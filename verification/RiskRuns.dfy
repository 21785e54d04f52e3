/** What every run of approvals keeps, whichever managers decide. */
module RiskRuns {
  import opened Market
  import opened Money
  import opened Risk

  /**
   One change to the book: a draft put to a manager of some configuration, and
   opened as proposed if approved; or a close, a size cut or a stop tightening.
   */
  datatype Move =
    | Submit(params: Params, draft: Draft, killSwitch: bool)
    | Close(k: nat)
    | Cut(k: nat, qty: NonNegative)
    | Tighten(k: nat, stop: Price)

  function Opened(p: Proposal): Position
  {
    Position(p.strategy, p.ticker, p.side, true, p.qty as real, p.entry, Some(p.stop))
  }

  function Decide(equity: real, book: seq<Position>, m: Move): Decision
    requires m.Submit?
  {
    Evaluate(Clamped(m.params), m.draft, Context(equity, book, m.killSwitch))
  }

  /** A tightened stop lies no farther from the entry than the stop it replaces. */
  predicate Tightens(p: Position, stop: Price)
  {
    p.stop.Some? && Abs(p.entry - stop) <= Abs(p.entry - p.stop.value)
  }

  function Next(equity: real, book: seq<Position>, m: Move): seq<Position>
  {
    match m
    case Submit(_, _, _) =>
      var d := Decide(equity, book, m);
      if d.Approved? then book + [Opened(d.proposal)] else book
    case Close(k) => if k < |book| then book[k := book[k].(isOpen := false)] else book
    case Cut(k, qty) => if k < |book| && qty <= book[k].qty then book[k := book[k].(qty := qty)] else book
    case Tighten(k, stop) =>
      if k < |book| && Tightens(book[k], stop) then book[k := book[k].(stop := Some(stop))] else book
  }

  function Book(equity: real, ms: seq<Move>): seq<Position>
  {
    if |ms| == 0 then [] else Next(equity, Book(equity, ms[..|ms| - 1]), ms[|ms| - 1])
  }

  // ---- The invariant -----------------------------------------------------------------

  ghost predicate WithinCaps(book: seq<Position>)
  {
    Count(Anything, book) <= 5 &&
    (forall x :: Count(OfStrategy(x), book) <= 2) &&
    (forall t :: Count(OfTicker(t), book) <= 1)
  }

  /** Open risk below 6.00005% of equity, plus what rounding one proposal's risk to cents may hide. */
  ghost predicate WithinRisk(equity: real, slack: real, book: seq<Position>)
  {
    OpenRisk(book) == 0.0 || OpenRisk(book) < 0.0600005 * equity + slack
  }

  lemma {:induction false} ReplaceCounts(q: Query, book: seq<Position>, k: nat, p: Position)
    requires k < |book| && (Matches(q, p) ==> Matches(q, book[k]))
    ensures Count(q, book[k := p]) <= Count(q, book)
  {
    var head, tail := book[..k], book[k + 1..];
    assert book == head + [book[k]] + tail;
    assert book[k := p] == head + [p] + tail;
    CountConcat(q, head + [book[k]], tail);
    CountConcat(q, head, [book[k]]);
    CountConcat(q, head + [p], tail);
    CountConcat(q, head, [p]);
  }

  function LiveRisk(p: Position): NonNegative
  {
    if p.isOpen then PositionRisk(p) else 0.0
  }

  lemma ReplaceRisk(book: seq<Position>, k: nat, p: Position)
    requires k < |book| && LiveRisk(p) <= LiveRisk(book[k])
    ensures OpenRisk(book[k := p]) <= OpenRisk(book)
  {
    var head, tail := book[..k], book[k + 1..];
    assert book == head + [book[k]] + tail;
    assert book[k := p] == head + [p] + tail;
    OpenRiskConcat(head + [book[k]], tail);
    OpenRiskConcat(head, [book[k]]);
    OpenRiskConcat(head + [p], tail);
    OpenRiskConcat(head, [p]);
    assert OpenRisk([p]) == LiveRisk(p) && OpenRisk([book[k]]) == LiveRisk(book[k]);
  }

  /** Cutting a position never raises its risk. */
  lemma CutRisk(p: Position, qty: NonNegative)
    requires qty <= p.qty
    ensures LiveRisk(p.(qty := qty)) <= LiveRisk(p)
  {
    if p.stop.Some? {
      var d := Abs(p.entry - p.stop.value);
      assert PositionRisk(p.(qty := qty)) == qty * d;
      assert PositionRisk(p) == p.qty * d;
      Monotone(qty, p.qty, d);
    }
  }

  /** Nor does tightening its stop. */
  lemma TightenedRisk(p: Position, stop: Price)
    requires Tightens(p, stop)
    ensures LiveRisk(p.(stop := Some(stop))) <= LiveRisk(p)
  {
    var near, far := Abs(p.entry - stop), Abs(p.entry - p.stop.value);
    assert PositionRisk(p.(stop := Some(stop))) == p.qty * near;
    assert PositionRisk(p) == p.qty * far;
    MonotoneRight(p.qty, near, far);
  }

  lemma MonotoneRight(q: NonNegative, x: real, y: real)
    requires x <= y
    ensures q * x <= q * y
  {
    Monotone(x, y, q);
  }

  lemma ReplaceKeeps(equity: real, slack: real, book: seq<Position>, k: nat, p: Position)
    requires k < |book| && WithinCaps(book) && WithinRisk(equity, slack, book)
    requires LiveRisk(p) <= LiveRisk(book[k])
    requires p.strategy == book[k].strategy && p.ticker == book[k].ticker && (p.isOpen ==> book[k].isOpen)
    ensures WithinCaps(book[k := p]) && WithinRisk(equity, slack, book[k := p])
  {
    ReplaceRisk(book, k, p);
    ReplaceCounts(Anything, book, k, p);
    forall x ensures Count(OfStrategy(x), book[k := p]) <= 2 {
      ReplaceCounts(OfStrategy(x), book, k, p);
    }
    forall t ensures Count(OfTicker(t), book[k := p]) <= 1 {
      ReplaceCounts(OfTicker(t), book, k, p);
    }
  }

  lemma AppendCounts(q: Query, book: seq<Position>, p: Position)
    ensures Count(q, book + [p]) == Count(q, book) + if Matches(q, p) then 1 else 0
  {
    assert (book + [p])[..|book|] == book;
  }

  lemma AppendRisk(book: seq<Position>, p: Position)
    ensures OpenRisk(book + [p]) == OpenRisk(book) + LiveRisk(p)
  {
    assert (book + [p])[..|book|] == book;
  }

  /** The rounded percentage test bounds the amount. */
  lemma PctBound(total: real, equity: Price)
    requires RoundPct(total / equity * 100.0) <= 6.0
    ensures total < 0.0600005 * equity
  {
    var x := total / equity;
    var n := (x * 100.0 * 10000.0 + 0.5).Floor;
    assert n as real / 10000.0 <= 6.0;
    assert x * 1000000.0 + 0.5 < 60001.0;
    assert x < 0.0600005;
    Below(total, equity, x, 0.0600005) by { Divided(total, equity); }
  }

  /** How much of a proposal's exact risk its rounding to cents leaves out. */
  function Hidden(p: Proposal): real
  {
    PositionRisk(Opened(p)) - p.risk as real
  }

  /** A proposal's exact risk is its quantity times a distance, and its stated risk that to the nearest cent. */
  ghost predicate RiskOver(p: Proposal, dist: real)
  {
    PositionRisk(Opened(p)) == p.qty as real * dist && p.risk == RiskCents(p.qty, dist) && 0 <= p.risk && Hidden(p) <= 0.5
  }

  lemma ProposalRisk(l: Params, d: Draft, ctx: Context)
    requires Evaluate(l, d, ctx).Approved?
    ensures RiskOver(Evaluate(l, d, ctx).proposal, StopDistance(d))
  {
    RiskNonNegative(Evaluate(l, d, ctx).proposal.qty as real, StopDistance(d));
  }

  /** Half a cent, or the whole risk of a trade where that is less: 2% of equity. */
  function MostHidden(equity: real): real
  {
    Min(0.5, 0.02 * equity)
  }

  lemma HiddenBound(params: Params, d: Draft, ctx: Context)
    requires Evaluate(Clamped(params), d, ctx).Approved?
    ensures Hidden(Evaluate(Clamped(params), d, ctx).proposal) <= MostHidden(ctx.equity)
  {
    ProposalRisk(Clamped(params), d, ctx);
    ApprovalWithin(params, d, ctx);
    HiddenWithin(ctx.equity, Evaluate(Clamped(params), d, ctx).proposal, StopDistance(d));
  }

  lemma ApprovalWithin(params: Params, d: Draft, ctx: Context)
    requires Evaluate(Clamped(params), d, ctx).Approved?
    ensures Evaluate(Clamped(params), d, ctx).proposal.qty as real * StopDistance(d) <= ctx.equity * 2.0 / 100.0
  {
    ApprovalFits(params, d, ctx, 0);
  }

  lemma HiddenWithin(equity: real, p: Proposal, dist: real)
    requires RiskOver(p, dist) && p.qty as real * dist <= equity * 2.0 / 100.0
    ensures Hidden(p) <= MostHidden(equity)
  {
  }

  lemma OpeningKeepsCaps(l: Params, d: Draft, ctx: Context, p: Position)
    requires FirstBreach(Clamped(l), d, ctx).None? && WithinCaps(ctx.positions)
    requires p.strategy == d.strategy && p.ticker == d.ticker
    ensures WithinCaps(ctx.positions + [p])
  {
    var book := ctx.positions;
    AppendCounts(Anything, book, p);
    forall x ensures Count(OfStrategy(x), book + [p]) <= 2 {
      AppendCounts(OfStrategy(x), book, p);
    }
    forall t ensures Count(OfTicker(t), book + [p]) <= 1 {
      AppendCounts(OfTicker(t), book, p);
    }
  }

  lemma ApprovedWithinRisk(l: Params, d: Draft, ctx: Context)
    requires Evaluate(Clamped(l), d, ctx).Approved?
    ensures OpenRisk(ctx.positions) + Evaluate(Clamped(l), d, ctx).proposal.risk as real < 0.0600005 * ctx.equity
  {
    ApprovedSolvent(Clamped(l), d, ctx);
    PctBound(OpenRisk(ctx.positions) + Evaluate(Clamped(l), d, ctx).proposal.risk as real, ctx.equity);
  }

  lemma SubmitKeeps(equity: real, slack: real, book: seq<Position>, m: Move)
    requires m.Submit? && WithinCaps(book) && WithinRisk(equity, slack, book)
    requires Decide(equity, book, m).Approved? ==> Hidden(Decide(equity, book, m).proposal) <= slack
    ensures WithinCaps(Next(equity, book, m)) && WithinRisk(equity, slack, Next(equity, book, m))
  {
    if Decide(equity, book, m).Approved? {
      var ctx, p := Context(equity, book, m.killSwitch), Decide(equity, book, m).proposal;
      ApprovedSolvent(Clamped(m.params), m.draft, ctx);
      OpeningKeepsCaps(m.params, m.draft, ctx, Opened(p));
      ApprovedWithinRisk(m.params, m.draft, ctx);
      AppendRisk(book, Opened(p));
    }
  }

  lemma NextKeeps(equity: real, slack: real, book: seq<Position>, m: Move)
    requires WithinCaps(book) && WithinRisk(equity, slack, book)
    requires m.Submit? && Decide(equity, book, m).Approved? ==> Hidden(Decide(equity, book, m).proposal) <= slack
    ensures WithinCaps(Next(equity, book, m)) && WithinRisk(equity, slack, Next(equity, book, m))
  {
    match m
    case Submit(_, _, _) => SubmitKeeps(equity, slack, book, m);
    case Close(k) =>
      if k < |book| {
        ReplaceKeeps(equity, slack, book, k, book[k].(isOpen := false));
      }
    case Cut(k, qty) =>
      if k < |book| && qty <= book[k].qty {
        CutRisk(book[k], qty);
        ReplaceKeeps(equity, slack, book, k, book[k].(qty := qty));
      }
    case Tighten(k, stop) =>
      if k < |book| && Tightens(book[k], stop) {
        TightenedRisk(book[k], stop);
        ReplaceKeeps(equity, slack, book, k, book[k].(stop := Some(stop)));
      }
  }

  /**
   From an empty book and at a fixed equity, every run keeps at most five positions,
   two per strategy and one per ticker, and open risk below 6.00005% of equity plus
   what one proposal can hide.
   */
  lemma {:induction false} RunWithinLimits(equity: real, ms: seq<Move>)
    ensures WithinCaps(Book(equity, ms)) && WithinRisk(equity, MostHidden(equity), Book(equity, ms))
  {
    if |ms| > 0 {
      var rest, m := ms[..|ms| - 1], ms[|ms| - 1];
      RunWithinLimits(equity, rest);
      var book := Book(equity, rest);
      if m.Submit? && Decide(equity, book, m).Approved? {
        HiddenBound(m.params, m.draft, Context(equity, book, m.killSwitch));
      }
      NextKeeps(equity, MostHidden(equity), book, m);
    }
  }

  // ---- Whole-cent prices hide nothing -------------------------------------------------------

  predicate WholeCents(x: real)
  {
    x == x.Floor as real
  }

  predicate WholeDraft(m: Move)
  {
    m.Submit? ==> WholeCents(m.draft.entry) && WholeCents(m.draft.stop)
  }

  lemma WholeProposal(l: Params, d: Draft, ctx: Context)
    requires Evaluate(l, d, ctx).Approved? && WholeCents(d.entry) && WholeCents(d.stop)
    ensures Hidden(Evaluate(l, d, ctx).proposal) == 0.0
  {
    ProposalRisk(l, d, ctx);
    WholeRisk(Evaluate(l, d, ctx).proposal, WholeDistance(d), StopDistance(d));
  }

  lemma WholeRisk(p: Proposal, whole: int, dist: real)
    requires dist == whole as real && RiskOver(p, dist)
    ensures Hidden(p) == 0.0
  {
    var x := p.qty as real * dist;
    WholeRound(p.qty, whole, x);
    assert p.risk == Round(x);
  }

  function WholeDistance(d: Draft): (dist: int)
    requires WholeCents(d.entry) && WholeCents(d.stop)
    ensures StopDistance(d) == dist as real
  {
    var a, b := d.entry.Floor, d.stop.Floor;
    if a < b then b - a else a - b
  }

  lemma WholeRound(q: int, dist: int, x: real)
    requires x == q as real * dist as real
    ensures Round(x) as real == x
  {
    assert (q * dist) as real == x;
    RoundWhole(q * dist);
  }

  /** When drafts are priced in whole cents the bound is 6.00005% of equity itself. */
  lemma {:induction false} RunWithinLimitsWholeCents(equity: real, ms: seq<Move>)
    requires forall n :: 0 <= n < |ms| ==> WholeDraft(ms[n])
    ensures WithinRisk(equity, 0.0, Book(equity, ms))
  {
    if |ms| > 0 {
      var rest, m := ms[..|ms| - 1], ms[|ms| - 1];
      RunWithinLimitsWholeCents(equity, rest);
      RunWithinLimits(equity, rest);
      var book := Book(equity, rest);
      if m.Submit? && Decide(equity, book, m).Approved? {
        assert WholeDraft(m);
        WholeProposal(Clamped(m.params), m.draft, Context(equity, book, m.killSwitch));
      }
      NextKeeps(equity, 0.0, book, m);
    }
  }

  // ---- Books of slices --------------------------------------------------------------------------

  /** A one-share draft's risk, and the budget of the manager it is put to. */
  datatype Slice = Slice(risk: Price, pct: Percent)

  /** The budget takes one share and not two. */
  predicate Affords(equity: real, s: Slice)
  {
    s.pct <= 2.0 && s.risk <= equity * s.pct / 100.0 < 2.0 * s.risk
  }

  function Name(n: nat): string { seq(n, _ => 'x') }

  /** Two slices a strategy, one a ticker. */
  function SliceDraft(n: nat, s: Slice): Draft
  {
    Draft(Name(n / 2), Name(n), Long, 1.0, 1.0 + s.risk, 1.0)
  }

  function SliceMove(n: nat, s: Slice): Move
  {
    Submit(GLOBAL_LIMITS.(maxRiskPerTradePct := s.pct), SliceDraft(n, s), false)
  }

  function SlicePosition(n: nat, s: Slice): Position
  {
    Position(Name(n / 2), Name(n), Long, true, 1.0, 1.0 + s.risk, Some(1.0))
  }

  function SliceMoves(ss: seq<Slice>): seq<Move>
  {
    if |ss| == 0 then [] else SliceMoves(ss[..|ss| - 1]) + [SliceMove(|ss| - 1, ss[|ss| - 1])]
  }

  function SliceBook(ss: seq<Slice>): seq<Position>
  {
    if |ss| == 0 then [] else SliceBook(ss[..|ss| - 1]) + [SlicePosition(|ss| - 1, ss[|ss| - 1])]
  }

  function Sum(ss: seq<Slice>): real
  {
    if |ss| == 0 then 0.0 else Sum(ss[..|ss| - 1]) + ss[|ss| - 1].risk
  }

  /** At most five slices, each of which passes the rounded test on top of those before it. */
  predicate Passing(equity: real, ss: seq<Slice>)
  {
    |ss| <= 5 &&
    forall n :: 0 <= n < |ss| ==>
      Affords(equity, ss[n]) && Sum(ss[..n]) + Round(ss[n].risk) as real < 0.0600005 * equity
  }

  /** Names of different lengths differ. */
  lemma NamesApart(n: nat, m: nat)
    ensures Name(n) == Name(m) <==> n == m
  {
    assert |Name(n)| == n && |Name(m)| == m;
  }

  lemma {:induction false} SliceCounts(ss: seq<Slice>, m: nat)
    ensures Count(Anything, SliceBook(ss)) == |ss|
    ensures Count(OfTicker(Name(m)), SliceBook(ss)) == if m < |ss| then 1 else 0
    ensures Count(OfStrategy(Name(m)), SliceBook(ss)) == if |ss| <= 2 * m then 0 else if |ss| == 2 * m + 1 then 1 else 2
  {
    if |ss| > 0 {
      var rest, n := ss[..|ss| - 1], |ss| - 1;
      SliceCounts(rest, m);
      NamesApart(n, m);
      NamesApart(n / 2, m);
      AppendCounts(Anything, SliceBook(rest), SlicePosition(n, ss[n]));
      AppendCounts(OfTicker(Name(m)), SliceBook(rest), SlicePosition(n, ss[n]));
      AppendCounts(OfStrategy(Name(m)), SliceBook(rest), SlicePosition(n, ss[n]));
    }
  }

  lemma SliceRisk(n: nat, s: Slice)
    ensures LiveRisk(SlicePosition(n, s)) == s.risk
  {
    assert Abs(1.0 + s.risk - 1.0) == s.risk;
  }

  lemma {:induction false} SliceBookRisk(ss: seq<Slice>)
    ensures OpenRisk(SliceBook(ss)) == Sum(ss)
  {
    if |ss| > 0 {
      SliceBookRisk(ss[..|ss| - 1]);
      SliceRisk(|ss| - 1, ss[|ss| - 1]);
      AppendRisk(SliceBook(ss[..|ss| - 1]), SlicePosition(|ss| - 1, ss[|ss| - 1]));
    }
  }

  /** The rounded percentage test passes exactly the amounts below 6.00005%. */
  lemma PctExactly(total: real, equity: Price)
    ensures RoundPct(total / equity * 100.0) <= 6.0 <==> total < 0.0600005 * equity
  {
    if total < 0.0600005 * equity {
      QuotientBelow(total, equity, 0.0600005);
      RoundsToSix(total / equity * 100.0);
    } else if RoundPct(total / equity * 100.0) <= 6.0 {
      PctBound(total, equity);
    }
  }

  lemma QuotientBelow(x: real, d: Price, high: real)
    requires x < high * d
    ensures x / d < high
  {
    Divided(x, d);
  }

  lemma RoundsToSix(pct: real)
    requires pct < 6.00005
    ensures RoundPct(pct) <= 6.0
  {
    var n := (pct * 10000.0 + 0.5).Floor;
    assert n <= 60000;
  }

  lemma OneShare(budget: real, dist: Price)
    requires dist <= budget < 2.0 * dist
    ensures SizeFor(budget, dist) == Sized(1)
  {
    var q := (budget / dist).Floor;
    LargestWithin(budget, dist, 1);
    LargestWithin(budget, dist, 2);
    assert 2 as real * dist == 2.0 * dist;
  }

  lemma SliceDecided(equity: Price, book: seq<Position>, n: nat, s: Slice)
    requires Affords(equity, s)
    requires Count(Anything, book) < 5 && Count(OfStrategy(Name(n / 2)), book) < 2 && Count(OfTicker(Name(n)), book) < 1
    ensures var m := SliceMove(n, s);
      Decide(equity, book, m) == Judge(m.params, m.draft, Context(equity, book, false), 1)
  {
    var l, d, ctx := GLOBAL_LIMITS.(maxRiskPerTradePct := s.pct), SliceDraft(n, s), Context(equity, book, false);
    assert Clamped(l) == l;
    SliceClear(l, d, ctx);
    SliceBudget(equity, l, s);
    SliceDistance(n, s);
    OneShare(Budget(l, equity), s.risk);
    SizedThenJudged(l, d, ctx, 1);
  }

  lemma SliceBudget(equity: Price, l: Params, s: Slice)
    requires Affords(equity, s) && l.maxRiskPerTradePct == s.pct
    ensures s.risk <= Budget(l, equity) < 2.0 * s.risk
  {
  }

  lemma SliceDistance(n: nat, s: Slice)
    ensures StopDistance(SliceDraft(n, s)) == s.risk
  {
  }

  lemma SliceApproved(equity: Price, book: seq<Position>, n: nat, s: Slice)
    requires Affords(equity, s) && OpenRisk(book) + Round(s.risk) as real < 0.0600005 * equity
    requires Count(Anything, book) < 5 && Count(OfStrategy(Name(n / 2)), book) < 2 && Count(OfTicker(Name(n)), book) < 1
    ensures Next(equity, book, SliceMove(n, s)) == book + [SlicePosition(n, s)]
  {
    var m := SliceMove(n, s);
    SliceDecided(equity, book, n, s);
    PctExactly(OpenRisk(book) + Round(s.risk) as real, equity);
    SliceDistance(n, s);
    SliceJudged(m.params, m.draft, Context(equity, book, false), s);
  }

  lemma SliceClear(l: Params, d: Draft, ctx: Context)
    requires !ctx.killSwitch && StopOnItsSide(d) && l.allowAveragingDown
    requires Count(Anything, ctx.positions) < l.maxConcurrent && Count(OfStrategy(d.strategy), ctx.positions) < l.maxPerStrategy
    requires Count(OfTicker(d.ticker), ctx.positions) < l.maxPerTicker
    ensures FirstBreach(l, d, ctx).None?
  {
  }

  lemma SizedThenJudged(l: Params, d: Draft, ctx: Context, qty: Shares)
    requires ctx.equity > 0.0 && FirstBreach(l, d, ctx).None?
    requires SizeFor(Budget(l, ctx.equity), StopDistance(d)) == Sized(qty)
    ensures Evaluate(l, d, ctx) == Judge(l, d, ctx, qty)
  {
  }

  lemma SliceJudged(l: Params, d: Draft, ctx: Context, s: Slice)
    requires ctx.equity > 0.0 && StopDistance(d) == s.risk && l.maxTotalOpenRiskPct == 6.0
    requires RoundPct((OpenRisk(ctx.positions) + Round(s.risk) as real) / ctx.equity * 100.0) <= 6.0
    ensures Judge(l, d, ctx, 1).Approved?
    ensures Opened(Judge(l, d, ctx, 1).proposal) == Position(d.strategy, d.ticker, d.side, true, 1.0, d.entry, Some(d.stop))
  {
    assert 1 as real * StopDistance(d) == s.risk;
  }

  lemma {:induction false} SlicesBooked(equity: Price, ss: seq<Slice>)
    requires Passing(equity, ss)
    ensures Book(equity, SliceMoves(ss)) == SliceBook(ss)
  {
    if |ss| > 0 {
      var rest, n := ss[..|ss| - 1], |ss| - 1;
      assert forall k :: 0 <= k < n ==> rest[..k] == ss[..k];
      SlicesBooked(equity, rest);
      SliceBookRisk(rest);
      SliceCounts(rest, n);
      SliceCounts(rest, n / 2);
      SliceApproved(equity, SliceBook(rest), n, ss[n]);
      var ms := SliceMoves(rest);
      assert SliceMoves(ss)[..|ms|] == ms;
      BookOn(equity, ms, SliceMove(n, ss[n]));
    }
  }

  lemma BookOn(equity: real, ms: seq<Move>, m: Move)
    ensures Book(equity, ms + [m]) == Next(equity, Book(equity, ms), m)
  {
    assert (ms + [m])[..|ms|] == ms;
  }

  // ---- How much is hidden at most -------------------------------------------------------------------

  /** A budget that is the risk itself. */
  function Exact(equity: Price, risk: Price): Slice
  {
    PctPositive(risk, equity);
    Slice(risk, risk / equity * 100.0)
  }

  lemma PctPositive(risk: Price, equity: Price)
    ensures risk / equity * 100.0 > 0.0
  {
  }

  lemma ExactAffords(equity: Price, risk: Price)
    requires risk <= 0.02 * equity
    ensures Affords(equity, Exact(equity, risk))
  {
    var x := risk / equity;
    Divided(risk, equity);
    if x > 0.02 {
      StrictlyMonotone(0.02, x, equity);
    }
    Regroup(equity, x);
  }

  lemma Regroup(e: real, x: real)
    ensures e * (x * 100.0) / 100.0 == x * e
  {
  }

  /** Four risks that a book of `equity` takes in turn. */
  ghost predicate FourTaken(equity: Price, a: real, b: real, c: real, d: real)
  {
    0.0 < a <= 0.02 * equity && 0.0 < b <= 0.02 * equity && 0.0 < c <= 0.02 * equity && 0.0 < d <= 0.02 * equity &&
    Round(a) as real < 0.0600005 * equity && a + Round(b) as real < 0.0600005 * equity &&
    a + b + Round(c) as real < 0.0600005 * equity && a + b + c + Round(d) as real < 0.0600005 * equity
  }

  /** Any total just below the bound is the sum of four such risks. */
  lemma FourRisks(equity: Price, total: real) returns (a: real, b: real, c: real, d: real)
    requires 0.0600004 * equity <= total < 0.0600005 * equity
    ensures FourTaken(equity, a, b, c, d) && a + b + c + d == total
  {
    if equity < 26.0 {
      a, b, c, d := total / 4.0, total / 4.0, total / 4.0, total / 4.0;
    } else if equity < 40.0 {
      a, b, c, d := (total - 0.98) / 2.0, (total - 0.98) / 2.0, 0.49, 0.49;
    } else if equity < 60.0 {
      a, b, c, d := (total - 0.49) / 3.0, (total - 0.49) / 3.0, (total - 0.49) / 3.0, 0.49;
    } else {
      var whole := (0.02 * equity).Floor;
      d := whole as real;
      RoundWhole(whole);
      a, b, c := (total - d) / 3.0, (total - d) / 3.0, (total - d) / 3.0;
    }
  }

  lemma SumFive(a: Slice, b: Slice, c: Slice, d: Slice, e: Slice)
    ensures var ss := [a, b, c, d, e];
      Sum(ss[..0]) == 0.0 && Sum(ss[..1]) == a.risk && Sum(ss[..2]) == a.risk + b.risk &&
      Sum(ss[..3]) == a.risk + b.risk + c.risk && Sum(ss[..4]) == a.risk + b.risk + c.risk + d.risk &&
      Sum(ss) == a.risk + b.risk + c.risk + d.risk + e.risk
  {
    assert [a, b][..1] == [a] && [a, b, c][..2] == [a, b] && [a, b, c, d][..3] == [a, b, c] &&
           [a, b, c, d, e][..4] == [a, b, c, d];
    assert [a, b, c, d, e][..1] == [a] && [a, b, c, d, e][..2] == [a, b] && [a, b, c, d, e][..3] == [a, b, c];
  }

  /** Four risks that fill the bound, and a fifth that rounds to nothing. */
  lemma FifthHides(equity: Price, a: real, b: real, c: real, d: real, hidden: real)
    requires FourTaken(equity, a, b, c, d) && a + b + c + d < 0.0600005 * equity
    requires 0.0 < hidden < 0.5 && hidden <= 0.02 * equity
    ensures exists ms :: OpenRisk(Book(equity, ms)) == a + b + c + d + hidden
  {
    var ss := [Exact(equity, a), Exact(equity, b), Exact(equity, c), Exact(equity, d), Exact(equity, hidden)];
    SumFive(ss[0], ss[1], ss[2], ss[3], ss[4]);
    ExactAffords(equity, a);
    ExactAffords(equity, b);
    ExactAffords(equity, c);
    ExactAffords(equity, d);
    ExactAffords(equity, hidden);
    assert Round(hidden) == 0;
    SlicesBooked(equity, ss);
    SliceBookRisk(ss);
    assert OpenRisk(Book(equity, SliceMoves(ss))) == a + b + c + d + hidden;
  }

  ghost predicate AlwaysWithin(equity: real, slack: real)
  {
    forall ms: seq<Move> :: WithinRisk(equity, slack, Book(equity, ms))
  }

  lemma LessSlackFails(equity: Price, slack: real)
    requires slack < MostHidden(equity)
    ensures !AlwaysWithin(equity, slack)
  {
    var most := MostHidden(equity);
    var from := Max(slack, 0.0);
    var total := 0.0600005 * equity - Min((most - from) / 2.0, 0.0000001 * equity);
    var a, b, c, d := FourRisks(equity, total);
    FifthHides(equity, a, b, c, d, (most + from) / 2.0);
    var ms :| OpenRisk(Book(equity, ms)) == total + (most + from) / 2.0;
    assert !WithinRisk(equity, slack, Book(equity, ms));
  }

  /**
   At any positive equity, the slack beyond 6.00005% that no run ever exceeds is half a
   cent, or 2% of an equity so small that this is less; nothing smaller will do.
   */
  lemma SlackExactly(equity: Price, slack: real)
    ensures AlwaysWithin(equity, slack) <==> slack >= MostHidden(equity)
  {
    if slack < MostHidden(equity) {
      LessSlackFails(equity, slack);
    } else {
      forall ms ensures WithinRisk(equity, slack, Book(equity, ms)) {
        RunWithinLimits(equity, ms);
      }
    }
  }

  // ---- Under the global limits alone -----------------------------------------------------------------

  /** 0.49 cents at risk, and an equity of 25 cents. */
  const TINY := Slice(0.49, 2.0)

  /** Four approvals of a manager at the global limits put 1.96 of 25 cents at risk: 7.84%. */
  lemma SubCentRiskExceeds()
    ensures OpenRisk(Book(25.0, SliceMoves([TINY, TINY, TINY, TINY]))) == 1.96
    ensures !WithinRisk(25.0, 0.0, Book(25.0, SliceMoves([TINY, TINY, TINY, TINY])))
  {
    var ss := [TINY, TINY, TINY, TINY];
    SumFive(TINY, TINY, TINY, TINY, TINY);
    var five := ss + [TINY];
    assert five == [TINY, TINY, TINY, TINY, TINY];
    assert ss == five[..4] && ss[..0] == five[..0] && ss[..1] == five[..1] && ss[..2] == five[..2] && ss[..3] == five[..3];
    assert Round(0.49) == 0;
    SlicesBooked(25.0, ss);
    SliceBookRisk(ss);
  }
}
