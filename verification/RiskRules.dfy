/** Which rule the risk gate reports: the first one broken, each in terms of the draft, the limits and the open positions. */
module RiskRules {
  import opened Market
  import opened Money
  import opened Risk
  import opened RiskRuns

  // ---- The open positions ---------------------------------------------------------------------------

  /** Places of the open positions of a book. */
  function OpenPlaces(ps: seq<Position>): set<nat>
  {
    set i: nat | i < |ps| && ps[i].isOpen
  }

  function OpenOf(ps: seq<Position>, x: StrategyId): set<nat>
  {
    set i: nat | i < |ps| && ps[i].isOpen && ps[i].strategy == x
  }

  function OpenIn(ps: seq<Position>, t: Ticker): set<nat>
  {
    set i: nat | i < |ps| && ps[i].isOpen && ps[i].ticker == t
  }

  ghost predicate SameLegOpen(ps: seq<Position>, d: Draft)
  {
    exists i :: 0 <= i < |ps| && ps[i].isOpen && ps[i].strategy == d.strategy && ps[i].ticker == d.ticker && ps[i].side == d.side
  }

  function Matching(q: Query, ps: seq<Position>): set<nat>
  {
    set i: nat | i < |ps| && Matches(q, ps[i])
  }

  lemma MatchingOn(q: Query, ps: seq<Position>)
    requires |ps| > 0
    ensures Matching(q, ps) == Matching(q, ps[..|ps| - 1]) + if Matches(q, ps[|ps| - 1]) then {|ps| - 1} else {}
  {
  }

  /** A count is the number of places that match. */
  lemma {:induction false} CountIsSize(q: Query, ps: seq<Position>)
    ensures Count(q, ps) == |Matching(q, ps)|
  {
    if |ps| > 0 {
      CountIsSize(q, ps[..|ps| - 1]);
      MatchingOn(q, ps);
    } else {
      assert Matching(q, ps) == {};
    }
  }

  lemma CountsAre(ps: seq<Position>, d: Draft)
    ensures Count(Anything, ps) == |OpenPlaces(ps)|
    ensures Count(OfStrategy(d.strategy), ps) == |OpenOf(ps, d.strategy)|
    ensures Count(OfTicker(d.ticker), ps) == |OpenIn(ps, d.ticker)|
    ensures Count(OfLeg(d.strategy, d.ticker, d.side), ps) > 0 <==> SameLegOpen(ps, d)
  {
    CountIsSize(Anything, ps);
    CountIsSize(OfStrategy(d.strategy), ps);
    CountIsSize(OfTicker(d.ticker), ps);
    assert Matching(Anything, ps) == OpenPlaces(ps);
    assert Matching(OfStrategy(d.strategy), ps) == OpenOf(ps, d.strategy);
    assert Matching(OfTicker(d.ticker), ps) == OpenIn(ps, d.ticker);
    LegCounted(ps, d);
  }

  lemma LegCounted(ps: seq<Position>, d: Draft)
    ensures Count(OfLeg(d.strategy, d.ticker, d.side), ps) > 0 <==> SameLegOpen(ps, d)
  {
    var q := OfLeg(d.strategy, d.ticker, d.side);
    CountIsSize(q, ps);
    if SameLegOpen(ps, d) {
      var i: nat :| i < |ps| && ps[i].isOpen && ps[i].strategy == d.strategy && ps[i].ticker == d.ticker && ps[i].side == d.side;
      assert i in Matching(q, ps);
    } else {
      assert Matching(q, ps) == {};
    }
  }

  // ---- The rules ------------------------------------------------------------------------------------

  /** What a trade may risk: the configured share of equity, and never more than 2%. */
  function Allowance(p: Params, equity: real): real
  {
    equity * (if p.maxRiskPerTradePct <= 2.0 then p.maxRiskPerTradePct else 2.0) / 100.0
  }

  /** The distance from entry to stop. */
  function Apart(d: Draft): real
  {
    if d.entry < d.stop then d.stop - d.entry else d.entry - d.stop
  }

  /** The most shares an allowance takes. */
  predicate FitsMost(qty: Shares, apart: real, allowance: real)
  {
    qty as real * apart <= allowance < (qty + 1) as real * apart
  }

  /** The book's risk with that of the new position, which is first rounded to cents. */
  function RiskPct(ctx: Context, qty: Shares, apart: real): real
    requires ctx.equity > 0.0
  {
    RoundPct((OpenRisk(ctx.positions) + Round(qty as real * apart) as real) / ctx.equity * 100.0)
  }

  /** A draft breaks a rule, under limits that may tighten 2%, 5, 2, 1 and 6% but not exceed them. */
  ghost predicate Broken(rule: Rule, p: Params, d: Draft, ctx: Context)
  {
    match rule
    case KillSwitchActive => ctx.killSwitch
    case InvalidStop => if d.side == Long then d.entry <= d.stop else d.stop < d.entry
    case NoAveragingDown => !p.allowAveragingDown && SameLegOpen(ctx.positions, d)
    case MaxPositionsTotal => |OpenPlaces(ctx.positions)| >= p.maxConcurrent || |OpenPlaces(ctx.positions)| >= 5
    case MaxPositionsPerStrategy =>
      |OpenOf(ctx.positions, d.strategy)| >= p.maxPerStrategy || |OpenOf(ctx.positions, d.strategy)| >= 2
    case MaxPositionsPerTicker =>
      |OpenIn(ctx.positions, d.ticker)| >= p.maxPerTicker || |OpenIn(ctx.positions, d.ticker)| >= 1
    case PerTradeRisk => Allowance(p, ctx.equity) < Apart(d)
    case TotalOpenRisk =>
      ctx.equity > 0.0 && exists qty: Shares ::
        FitsMost(qty, Apart(d), Allowance(p, ctx.equity)) && RiskPct(ctx, qty, Apart(d)) > Min(p.maxTotalOpenRiskPct, 6.0)
  }

  /** The order in which the rules are checked. */
  function Rank(rule: Rule): nat
  {
    match rule
    case KillSwitchActive => 0
    case InvalidStop => 1
    case NoAveragingDown => 2
    case MaxPositionsTotal => 3
    case MaxPositionsPerStrategy => 4
    case MaxPositionsPerTicker => 5
    case PerTradeRisk => 6
    case TotalOpenRisk => 7
  }

  ghost predicate FirstBroken(rule: Rule, p: Params, d: Draft, ctx: Context)
  {
    Broken(rule, p, d, ctx) && forall r: Rule :: Rank(r) < Rank(rule) ==> !Broken(r, p, d, ctx)
  }

  /** None of the rules before sizing is broken. */
  ghost predicate Clear(p: Params, d: Draft, ctx: Context)
  {
    !Broken(KillSwitchActive, p, d, ctx) && !Broken(InvalidStop, p, d, ctx) && !Broken(NoAveragingDown, p, d, ctx) &&
    !Broken(MaxPositionsTotal, p, d, ctx) && !Broken(MaxPositionsPerStrategy, p, d, ctx) &&
    !Broken(MaxPositionsPerTicker, p, d, ctx)
  }

  lemma BreachIs(p: Params, d: Draft, ctx: Context)
    ensures FirstBreach(Clamped(p), d, ctx).None? <==> Clear(p, d, ctx)
    ensures FirstBreach(Clamped(p), d, ctx).Some? ==>
      Rank(FirstBreach(Clamped(p), d, ctx).value) <= 5 && FirstBroken(FirstBreach(Clamped(p), d, ctx).value, p, d, ctx)
  {
    CountsAre(ctx.positions, d);
  }

  lemma OnlyOneFirst(a: Rule, b: Rule, p: Params, d: Draft, ctx: Context)
    requires FirstBroken(a, p, d, ctx) && FirstBroken(b, p, d, ctx)
    ensures a == b
  {
  }

  lemma AllowanceIs(p: Params, equity: real)
    ensures Budget(Clamped(p), equity) == Allowance(p, equity)
  {
  }

  lemma ApartIs(d: Draft)
    ensures StopDistance(d) == Apart(d) >= 0.0
  {
  }

  lemma SizeIs(budget: real, apart: NonNegative)
    ensures SizeFor(budget, apart).TooSmall? <==> budget < apart
    ensures SizeFor(budget, apart).Undefined? <==> apart == 0.0 && budget >= 0.0
    ensures SizeFor(budget, apart).Sized? ==> FitsMost(SizeFor(budget, apart).qty, apart, budget)
  {
    if apart > 0.0 {
      QuotientBounds(budget, apart);
      LargestWithin(budget, apart, 1);
      assert 1 as real * apart == apart;
    }
  }

  /** Only one quantity is the most that fits. */
  lemma OneFitsMost(a: Shares, b: Shares, apart: real, allowance: real)
    requires FitsMost(a, apart, allowance) && FitsMost(b, apart, allowance) && apart >= 0.0
    ensures a == b
  {
    FitsNoMore(a, b, apart, allowance);
    FitsNoMore(b, a, apart, allowance);
  }

  lemma FitsNoMore(a: Shares, b: Shares, apart: real, allowance: real)
    requires FitsMost(a, apart, allowance) && apart >= 0.0 && b as real * apart <= allowance
    ensures b <= a
  {
    LessTimes(b as real, (a + 1) as real, apart, allowance);
  }

  lemma LessTimes(x: real, y: real, d: real, z: real)
    requires d >= 0.0 && x * d <= z < y * d
    ensures x < y
  {
  }

  /** Past the structural rules: too small, undefined, or sized and judged. */
  lemma SizedIs(p: Params, d: Draft, ctx: Context)
    requires Clear(p, d, ctx)
    ensures var e := Evaluate(Clamped(p), d, ctx);
      if Allowance(p, ctx.equity) < Apart(d) then e == Rejected(PerTradeRisk)
      else if Apart(d) == 0.0 then e == Throws
      else
        ctx.equity > 0.0 && exists qty: Shares ::
          FitsMost(qty, Apart(d), Allowance(p, ctx.equity)) && e == Judge(Clamped(p), d, ctx, qty)
  {
    BreachIs(p, d, ctx);
    AllowanceIs(p, ctx.equity);
    ApartIs(d);
    SizeIs(Allowance(p, ctx.equity), Apart(d));
    var size := SizeFor(Budget(Clamped(p), ctx.equity), StopDistance(d));
    if size.Sized? {
      SizedMeansSolvent(Clamped(p), ctx.equity, StopDistance(d));
      assert Evaluate(Clamped(p), d, ctx) == Judge(Clamped(p), d, ctx, size.qty);
    }
  }

  lemma JudgeRejects(l: Params, d: Draft, ctx: Context, qty: Shares, risk: int)
    requires ctx.equity > 0.0 && risk == RiskCents(qty, StopDistance(d))
    ensures if TotalRiskPct(ctx, risk) > l.maxTotalOpenRiskPct then Judge(l, d, ctx, qty) == Rejected(TotalOpenRisk)
            else Judge(l, d, ctx, qty).Approved?
  {
  }

  lemma PctIs(ctx: Context, qty: Shares, apart: real)
    requires ctx.equity > 0.0
    ensures RiskPct(ctx, qty, apart) == TotalRiskPct(ctx, RiskCents(qty, apart))
  {
  }

  lemma LimitIs(p: Params)
    ensures Clamped(p).maxTotalOpenRiskPct == Min(p.maxTotalOpenRiskPct, 6.0)
  {
  }

  lemma RiskBroken(p: Params, d: Draft, ctx: Context, qty: Shares, pct: real)
    requires ctx.equity > 0.0 && FitsMost(qty, Apart(d), Allowance(p, ctx.equity)) && pct == RiskPct(ctx, qty, Apart(d))
    ensures Broken(TotalOpenRisk, p, d, ctx) <==> pct > Min(p.maxTotalOpenRiskPct, 6.0)
  {
    if Broken(TotalOpenRisk, p, d, ctx) {
      var other: Shares :|
        FitsMost(other, Apart(d), Allowance(p, ctx.equity)) && RiskPct(ctx, other, Apart(d)) > Min(p.maxTotalOpenRiskPct, 6.0);
      ApartIs(d);
      OneFitsMost(qty, other, Apart(d), Allowance(p, ctx.equity));
    }
  }

  lemma JudgeIs(p: Params, d: Draft, ctx: Context, qty: Shares)
    requires ctx.equity > 0.0 && FitsMost(qty, Apart(d), Allowance(p, ctx.equity))
    ensures var e := Judge(Clamped(p), d, ctx, qty);
      (e == Rejected(TotalOpenRisk) || e.Approved?) && (e.Rejected? <==> Broken(TotalOpenRisk, p, d, ctx))
  {
    var pct := RiskPct(ctx, qty, Apart(d));
    ApartIs(d);
    LimitIs(p);
    PctIs(ctx, qty, Apart(d));
    JudgeRejects(Clamped(p), d, ctx, qty, RiskCents(qty, StopDistance(d)));
    RiskBroken(p, d, ctx, qty, pct);
  }

  /** How the gate ends: the first broken rule if there is one, else the division by a distance of zero, else approval. */
  lemma EvaluateIs(p: Params, d: Draft, ctx: Context)
    ensures var e := Evaluate(Clamped(p), d, ctx);
      match e
      case Rejected(rule) => FirstBroken(rule, p, d, ctx)
      case Throws => Apart(d) == 0.0 && forall r: Rule :: !Broken(r, p, d, ctx)
      case Approved(_) => Apart(d) > 0.0 && forall r: Rule :: !Broken(r, p, d, ctx)
  {
    BreachIs(p, d, ctx);
    ApartIs(d);
    if Clear(p, d, ctx) {
      SizedIs(p, d, ctx);
      if Allowance(p, ctx.equity) >= Apart(d) {
        if Apart(d) == 0.0 {
          NothingFitsZero(p, d, ctx);
        } else {
          var qty: Shares :| FitsMost(qty, Apart(d), Allowance(p, ctx.equity)) &&
            Evaluate(Clamped(p), d, ctx) == Judge(Clamped(p), d, ctx, qty);
          JudgeIs(p, d, ctx, qty);
        }
        EachRule(p, d, ctx);
      }
    }
  }

  lemma NothingFitsZero(p: Params, d: Draft, ctx: Context)
    requires Apart(d) == 0.0
    ensures !Broken(TotalOpenRisk, p, d, ctx)
  {
    forall qty: Shares ensures !FitsMost(qty, 0.0, Allowance(p, ctx.equity)) {
      assert qty as real * 0.0 == 0.0 && (qty + 1) as real * 0.0 == 0.0;
    }
  }

  lemma EachRule(p: Params, d: Draft, ctx: Context)
    requires Clear(p, d, ctx) && !Broken(PerTradeRisk, p, d, ctx)
    ensures forall r: Rule :: Broken(r, p, d, ctx) ==> r == TotalOpenRisk
  {
    forall r: Rule | Broken(r, p, d, ctx) ensures r == TotalOpenRisk {
      match r
      case TotalOpenRisk =>
      case _ => assert false;
    }
  }

  /** A draft is rejected by a rule exactly when that is the first one it breaks. */
  lemma RejectedExactly(p: Params, d: Draft, ctx: Context, rule: Rule)
    ensures Evaluate(Clamped(p), d, ctx) == Rejected(rule) <==> FirstBroken(rule, p, d, ctx)
  {
    EvaluateIs(p, d, ctx);
    match Evaluate(Clamped(p), d, ctx)
    case Rejected(other) => if FirstBroken(rule, p, d, ctx) { OnlyOneFirst(rule, other, p, d, ctx); }
    case Throws =>
    case Approved(_) =>
  }

  /** And approved exactly when it breaks none and has its stop off its entry. */
  lemma ApprovedExactly(p: Params, d: Draft, ctx: Context)
    ensures Evaluate(Clamped(p), d, ctx).Approved? <==> Apart(d) > 0.0 && forall r: Rule :: !Broken(r, p, d, ctx)
  {
    EvaluateIs(p, d, ctx);
    ApartIs(d);
    var e := Evaluate(Clamped(p), d, ctx);
    if e.Rejected? {
      assert Broken(e.rule, p, d, ctx);
    }
  }

  ghost predicate NearestRisk(a: Proposal, apart: real, equity: Price)
  {
    -0.5 <= a.qty as real * apart - a.risk as real <= 0.5 &&
    -0.00005 <= a.risk as real / equity * 100.0 - a.riskPct <= 0.00005
  }

  /** An approval carries its risk to the nearest cent and the nearest ten-thousandth of a percent. */
  lemma ApprovedRisk(p: Params, d: Draft, ctx: Context)
    requires Evaluate(Clamped(p), d, ctx).Approved?
    ensures var a := Evaluate(Clamped(p), d, ctx).proposal;
      ctx.equity > 0.0 && FitsMost(a.qty, Apart(d), Allowance(p, ctx.equity)) &&
      NearestRisk(a, Apart(d), ctx.equity)
  {
    ApprovedExactly(p, d, ctx);
    SizedIs(p, d, ctx);
    ApartIs(d);
    var qty: Shares :| FitsMost(qty, Apart(d), Allowance(p, ctx.equity)) &&
      Evaluate(Clamped(p), d, ctx) == Judge(Clamped(p), d, ctx, qty);
    JudgedRisk(Clamped(p), d, ctx, qty);
  }

  lemma JudgedRisk(l: Params, d: Draft, ctx: Context, qty: Shares)
    requires ctx.equity > 0.0 && Judge(l, d, ctx, qty).Approved?
    ensures var a := Judge(l, d, ctx, qty).proposal;
      a.qty == qty && NearestRisk(a, StopDistance(d), ctx.equity)
  {
    NearestPct(Judge(l, d, ctx, qty).proposal.risk as real / ctx.equity * 100.0);
  }

  lemma NearestPct(x: real)
    ensures -0.00005 <= x - RoundPct(x) <= 0.00005
  {
    var n := (x * 10000.0 + 0.5).Floor as real;
    assert n / 10000.0 * 10000.0 == n;
  }

  // ---- Runs -----------------------------------------------------------------------------------------

  /** While the kill switch is active no submission changes the book. */
  lemma KillSwitchBlocks(equity: real, book: seq<Position>, m: Move)
    requires m.Submit? && m.killSwitch
    ensures Next(equity, book, m) == book
  {
    RejectedExactly(m.params, m.draft, Context(equity, book, true), KillSwitchActive);
  }

  /** An approved draft joins the book as an open position on its own terms, of the size approved; any other does not. */
  lemma ApprovedOpens(equity: real, book: seq<Position>, m: Move)
    requires m.Submit?
    ensures var e, d := Evaluate(Clamped(m.params), m.draft, Context(equity, book, m.killSwitch)), m.draft;
      Next(equity, book, m) == if e.Approved?
        then book + [Position(d.strategy, d.ticker, d.side, true, e.proposal.qty as real, d.entry, Some(d.stop))] else book
  {
    var ctx := Context(equity, book, m.killSwitch);
    if Evaluate(Clamped(m.params), m.draft, ctx).Approved? {
      ApprovalFits(m.params, m.draft, ctx, 0);
    }
  }

  /** Risk of one open position: its quantity times the distance to its stop; none without a stop. */
  lemma RiskOfOne(p: Position)
    ensures OpenRisk([p]) ==
      if !p.isOpen || p.stop.None? then 0.0
      else if p.stop.value <= p.entry then p.qty * (p.entry - p.stop.value) else p.qty * (p.stop.value - p.entry)
  {
    assert [p][..0] == [];
  }
}
