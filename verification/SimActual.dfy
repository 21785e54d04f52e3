/**
 The SIM exchange with its exception: a fill the schema refuses throws out of the
 operation that booked it, after the booking and before its record.
 */
module SimActual {
  import opened Market
  import opened Money
  import opened SimModel
  import opened SimLedger
  import opened SimRuns
  import opened SimLifecycle

  /** The state an operation leaves behind, and whether it threw. */
  datatype Result = Result(state: State, threw: bool)

  function PostOrThrow(s: State, i: nat, j: nat, bk: Booking): (r: Result)
    requires At(s, i, j)
    ensures |r.state.portfolios| == |s.portfolios|
    ensures forall k :: 0 <= k < |s.portfolios| ==> |r.state.portfolios[k].brackets| == |s.portfolios[k].brackets|
  {
    var t := Post(s, i, j, bk);
    if ValidFill(bk.fill) then Result(t, false) else Result(t.(fills := s.fills), true)
  }

  function VisitOrThrow(s: State, pass: Pass, i: nat, j: nat): (r: Result)
    requires At(s, i, j)
    ensures |r.state.portfolios| == |s.portfolios|
    ensures forall k :: 0 <= k < |s.portfolios| ==> |r.state.portfolios[k].brackets| == |s.portfolios[k].brackets|
  {
    match Visit(s.cfg, pass, BracketAt(s, i, j))
    case None => Result(s, false)
    case Some(bk) => PostOrThrow(s, i, j, bk)
  }

  /** The loops over every bracket, left at the first refused fill. */
  function SweepOrThrow(s: State, pass: Pass, i: nat, j: nat): Result
    decreases |s.portfolios| - i, if i < |s.portfolios| then |s.portfolios[i].brackets| - j else 0
  {
    if i >= |s.portfolios| then Result(s, false)
    else if j >= |s.portfolios[i].brackets| then SweepOrThrow(s, pass, i + 1, 0)
    else
      var v := VisitOrThrow(s, pass, i, j);
      if v.threw then v else SweepOrThrow(v.state, pass, i, j + 1)
  }

  function BarOrThrow(s: State, bar: Candle): Result
  {
    var quote := Synthesize(bar.close, s.cfg.spreadBps);
    var marked := s.(marks := s.marks[bar.ticker := Mark(quote, bar.ts)]);
    var filled := SweepOrThrow(marked, Entries(bar.ticker, quote, bar.ts, Some(bar)), 0, 0);
    if filled.threw then filled else SweepOrThrow(filled.state, Exits(bar), 0, 0)
  }

  function QuoteOrThrow(s: State, q: Quote): Result
  {
    match Book(q)
    case None => Result(s, false)
    case Some(book) =>
      SweepOrThrow(s.(marks := s.marks[q.ticker := Mark(book, q.ts)]), Entries(q.ticker, book, q.ts, None), 0, 0)
  }

  function ApplyOrThrow(s: State, i: nat, j: nat, e: Effect): Result
    requires At(s, i, j)
  {
    var t := SetBracket(s, i, j, e.bracket);
    if e.booking.Some? then PostOrThrow(t, i, j, e.booking.value) else Result(t, false)
  }

  /** A call's answer: the effect's own, unless its fill is refused. */
  function Answer(r: Result, o: Outcome): (State, Outcome)
  {
    (r.state, if r.threw then Refused else o)
  }

  function PlaceOrThrow(s: State, r: Request): (State, Outcome)
  {
    if r.rung == LIVE then (s, LiveLocked) else
    var t := Recorded(s, r);
    var i := PortfolioIndex(t.portfolios, r.strategy);
    var j := |t.portfolios[i].brackets| - 1;
    Answer(ApplyOrThrow(t, i, j, PlaceEffect(t.cfg, t.marks, BracketAt(t, i, j))), Done)
  }

  function ModifyOrThrow(s: State, m: Modification): (State, Outcome)
  {
    match Lookup(s, m.id)
    case None => (s, UnknownBracket)
    case Some(at) =>
      var e := ModifyEffect(s.cfg, s.marks, BracketAt(s, at.0, at.1), m);
      Answer(ApplyOrThrow(s, at.0, at.1, e), e.outcome)
  }

  function CancelOrThrow(s: State, id: nat): (State, Outcome)
  {
    match Lookup(s, id)
    case None => (s, UnknownBracket)
    case Some(at) =>
      var e := CancelEffect(s.cfg, s.marks, BracketAt(s, at.0, at.1));
      Answer(ApplyOrThrow(s, at.0, at.1, e), e.outcome)
  }

  function Threw(a: (State, Outcome)): Result
  {
    Result(a.0, a.1 == Refused)
  }

  function StepOrThrow(s: State, c: Command): Result
  {
    match c
    case Bar(bar) => BarOrThrow(s, bar)
    case Tick(q) => QuoteOrThrow(s, q)
    case PlaceBracket(r) => Threw(PlaceOrThrow(s, r))
    case ModifyBracket(m) => Threw(ModifyOrThrow(s, m))
    case CancelBracket(id) => Threw(CancelOrThrow(s, id))
    case _ => Result(Step(s, c), false)
  }

  /** A run goes on after a throw; `threw` says whether there was one. */
  function RunOrThrow(cfg: Config, cs: seq<Command>): Result
  {
    if |cs| == 0 then Result(Init(cfg), false) else
    var before := RunOrThrow(cfg, cs[..|cs| - 1]);
    var r := StepOrThrow(before.state, cs[|cs| - 1]);
    Result(r.state, before.threw || r.threw)
  }

  // ---- When nothing throws -------------------------------------------------------------------

  /** From accepted fills, a result is the plain one, or it threw and the plain one has a refused fill. */
  ghost predicate Agrees(r: Result, t: State)
  {
    (r.threw <==> !Accepted(t)) && (!r.threw ==> r.state == t)
  }

  lemma PostAgrees(s: State, i: nat, j: nat, bk: Booking)
    requires At(s, i, j) && Accepted(s)
    ensures Agrees(PostOrThrow(s, i, j, bk), Post(s, i, j, bk))
  {
    var t := Post(s, i, j, bk);
    assert t.fills[|s.fills|] == bk.fill;
  }

  lemma {:induction false} SweepAgrees(s: State, pass: Pass, i: nat, j: nat)
    requires Accepted(s)
    ensures Agrees(SweepOrThrow(s, pass, i, j), Sweep(s, pass, i, j))
    decreases |s.portfolios| - i, if i < |s.portfolios| then |s.portfolios[i].brackets| - j else 0
  {
    if i >= |s.portfolios| {
    } else if j >= |s.portfolios[i].brackets| {
      SweepAgrees(s, pass, i + 1, 0);
    } else {
      VisitAgrees(s, pass, i, j);
      var t := VisitAt(s, pass, i, j);
      if VisitOrThrow(s, pass, i, j).threw {
        RefusalStays(t, pass, i, j + 1);
      } else {
        SweepAgrees(t, pass, i, j + 1);
      }
    }
  }

  lemma VisitAgrees(s: State, pass: Pass, i: nat, j: nat)
    requires At(s, i, j) && Accepted(s)
    ensures Agrees(VisitOrThrow(s, pass, i, j), VisitAt(s, pass, i, j))
  {
    match Visit(s.cfg, pass, BracketAt(s, i, j))
    case None =>
    case Some(bk) => PostAgrees(s, i, j, bk);
  }

  lemma RefusalStays(s: State, pass: Pass, i: nat, j: nat)
    requires !Accepted(s)
    ensures !Accepted(Sweep(s, pass, i, j))
  {
    SweepFrame(s, pass, i, j);
    if Accepted(Sweep(s, pass, i, j)) {
      AcceptedPrefix(s, Sweep(s, pass, i, j));
    }
  }

  lemma BarAgrees(s: State, bar: Candle)
    requires Accepted(s)
    ensures Agrees(BarOrThrow(s, bar), OnBar(s, bar))
  {
    var quote := Synthesize(bar.close, s.cfg.spreadBps);
    var marked := s.(marks := s.marks[bar.ticker := Mark(quote, bar.ts)]);
    var entries := Entries(bar.ticker, quote, bar.ts, Some(bar));
    SweepAgrees(marked, entries, 0, 0);
    var filled := Sweep(marked, entries, 0, 0);
    if SweepOrThrow(marked, entries, 0, 0).threw {
      RefusalStays(filled, Exits(bar), 0, 0);
    } else {
      SweepAgrees(filled, Exits(bar), 0, 0);
    }
  }

  lemma QuoteAgrees(s: State, q: Quote)
    requires Accepted(s)
    ensures Agrees(QuoteOrThrow(s, q), UpdateQuote(s, q))
  {
    if Book(q).Some? {
      var book := Book(q).value;
      SweepAgrees(s.(marks := s.marks[q.ticker := Mark(book, q.ts)]), Entries(q.ticker, book, q.ts, None), 0, 0);
    }
  }

  lemma ApplyAgrees(s: State, i: nat, j: nat, e: Effect)
    requires At(s, i, j) && Accepted(s)
    ensures Agrees(ApplyOrThrow(s, i, j, e), Apply(s, i, j, e))
  {
    if e.booking.Some? {
      PostAgrees(SetBracket(s, i, j, e.bracket), i, j, e.booking.value);
    }
  }

  /** Placing ends as the effect on a pending bracket does, from what recording keeps. */
  lemma PlaceEnds(before: State -> bool, after: Result -> bool, s: State, r: Request)
    requires r.rung != LIVE && before(Recorded(s, r))
    requires forall t: State, i: nat, j: nat ::
      before(t) && At(t, i, j) && BracketAt(t, i, j).status == Pending ==>
        after(ApplyOrThrow(t, i, j, PlaceEffect(t.cfg, t.marks, BracketAt(t, i, j))))
    ensures after(Threw(PlaceOrThrow(s, r)))
  {
    RecordedAtEnd(s, r);
    var t := Recorded(s, r);
    var i := PortfolioIndex(t.portfolios, r.strategy);
    assert At(t, i, |t.portfolios[i].brackets| - 1);
  }

  lemma PlaceAgrees(s: State, r: Request)
    requires Accepted(s)
    ensures Agrees(Threw(PlaceOrThrow(s, r)), Place(s, r).0)
  {
    if r.rung != LIVE {
      var t := Recorded(s, r);
      var i := PortfolioIndex(t.portfolios, r.strategy);
      var j := |t.portfolios[i].brackets| - 1;
      ApplyAgrees(t, i, j, PlaceEffect(t.cfg, t.marks, BracketAt(t, i, j)));
    }
  }

  lemma ModifyAgrees(s: State, m: Modification)
    requires Accepted(s)
    ensures Agrees(Threw(ModifyOrThrow(s, m)), Modify(s, m).0)
  {
    if Lookup(s, m.id).Some? {
      var (i, j) := Lookup(s, m.id).value;
      ApplyAgrees(s, i, j, ModifyEffect(s.cfg, s.marks, BracketAt(s, i, j), m));
    }
  }

  lemma CancelAgrees(s: State, id: nat)
    requires Accepted(s)
    ensures Agrees(Threw(CancelOrThrow(s, id)), Cancel(s, id).0)
  {
    if Lookup(s, id).Some? {
      var (i, j) := Lookup(s, id).value;
      ApplyAgrees(s, i, j, CancelEffect(s.cfg, s.marks, BracketAt(s, i, j)));
    }
  }

  /** An operation throws exactly when it books a refused fill; otherwise it does what SimModel says. */
  lemma StepAgrees(s: State, c: Command)
    requires Accepted(s)
    ensures Agrees(StepOrThrow(s, c), Step(s, c))
  {
    match c
    case Bar(bar) => BarAgrees(s, bar);
    case Tick(q) => QuoteAgrees(s, q);
    case PlaceBracket(r) => PlaceAgrees(s, r);
    case ModifyBracket(m) => ModifyAgrees(s, m);
    case CancelBracket(id) => CancelAgrees(s, id);
    case _ =>
  }

  /**
   A run of the exchange throws nowhere exactly when the run of SimModel is accepted,
   and then they are in the same state.
   */
  lemma {:induction false} RunAgrees(cfg: Config, cs: seq<Command>)
    ensures Agrees(RunOrThrow(cfg, cs), Run(cfg, cs))
  {
    if |cs| > 0 {
      var ds, c := cs[..|cs| - 1], cs[|cs| - 1];
      RunAgrees(cfg, ds);
      if RunOrThrow(cfg, ds).threw {
        StepGrows(Run(cfg, ds), c);
        if Accepted(Run(cfg, cs)) {
          AcceptedPrefix(Run(cfg, ds), Run(cfg, cs));
        }
      } else {
        StepAgrees(Run(cfg, ds), c);
      }
    }
  }

  // ---- When a fill is refused --------------------------------------------------------------------

  /** A book whose price, after slippage, rounds to less than a cent. */
  predicate SubCent(cfg: Config, action: Action, quote: BidAsk)
  {
    MarketFillPrice(action, quote, cfg.slippageBps) < 0.5
  }

  /**
   Which bookings the schema refuses: those at a book that is worth less than half a
   cent, and a target exit of a bracket that has no target order.
   */
  lemma RefusedExactly(cfg: Config, b: Bracket, order: Option<nat>, qty: Shares, quote: BidAsk, ts: int)
    ensures !ValidFill(Enter(cfg, b, quote, ts).fill) <==> SubCent(cfg, OpenAction(b.side), quote)
    ensures b.status == Open ==>
      (!ValidFill(ExitAll(cfg, b, order, quote, ts).fill) <==> order.None? || SubCent(cfg, CloseAction(b.side), quote))
    ensures b.status == Open && qty < b.qty ==>
      (!ValidFill(ExitPart(cfg, b, qty, quote, ts).fill) <==> SubCent(cfg, CloseAction(b.side), quote))
  {
    RoundedBelow(MarketFillPrice(OpenAction(b.side), quote, cfg.slippageBps));
    RoundedBelow(MarketFillPrice(CloseAction(b.side), quote, cfg.slippageBps));
  }

  lemma RoundedBelow(x: real)
    ensures Round(x) < 1 <==> x < 0.5
  {
  }

  // ---- What a throw leaves behind ------------------------------------------------------------------

  predicate Before(i: nat, j: nat, k: nat, l: nat)
  {
    i < k || (i == k && j < l)
  }

  /** Where a pass throws. */
  function ThrowPlace(s: State, pass: Pass, i: nat, j: nat): (nat, nat)
    requires SweepOrThrow(s, pass, i, j).threw
    decreases |s.portfolios| - i, if i < |s.portfolios| then |s.portfolios[i].brackets| - j else 0
  {
    if j >= |s.portfolios[i].brackets| then ThrowPlace(s, pass, i + 1, 0)
    else
      var v := VisitOrThrow(s, pass, i, j);
      if v.threw then (i, j) else ThrowPlace(v.state, pass, i, j + 1)
  }

  lemma VisitPlaces(s: State, pass: Pass, i: nat, j: nat, k: nat, l: nat)
    requires At(s, i, j)
    ensures At(VisitOrThrow(s, pass, i, j).state, k, l) <==> At(s, k, l)
    ensures At(s, k, l) ==>
      BracketAt(VisitOrThrow(s, pass, i, j).state, k, l)
      == if k == i && l == j then After(s.cfg, pass, BracketAt(s, k, l)) else BracketAt(s, k, l)
    ensures VisitOrThrow(s, pass, i, j).state.cfg == s.cfg
  {
  }

  /** A pass throws at a bracket whose fill is refused. */
  lemma {:induction false} ThrowsAtRefusal(s: State, pass: Pass, i: nat, j: nat)
    requires SweepOrThrow(s, pass, i, j).threw
    ensures var (m, n) := ThrowPlace(s, pass, i, j);
      At(s, m, n) && !Before(m, n, i, j) &&
      Visit(s.cfg, pass, BracketAt(s, m, n)).Some? && !ValidFill(Visit(s.cfg, pass, BracketAt(s, m, n)).value.fill)
    decreases |s.portfolios| - i, if i < |s.portfolios| then |s.portfolios[i].brackets| - j else 0
  {
    if j >= |s.portfolios[i].brackets| {
      ThrowsAtRefusal(s, pass, i + 1, 0);
    } else {
      var v := VisitOrThrow(s, pass, i, j);
      if !v.threw {
        ThrowsAtRefusal(v.state, pass, i, j + 1);
        var (m, n) := ThrowPlace(v.state, pass, i, j + 1);
        VisitPlaces(s, pass, i, j, m, n);
      }
    }
  }

  /**
   It has then visited every bracket up to that one, and leaves every bracket after it
   as it was: pending entries unfilled and stops unchecked.
   */
  lemma {:induction false} ThrowSkipsTheRest(s: State, pass: Pass, i: nat, j: nat, k: nat, l: nat)
    requires SweepOrThrow(s, pass, i, j).threw && At(s, k, l)
    ensures At(SweepOrThrow(s, pass, i, j).state, k, l)
    ensures var (m, n) := ThrowPlace(s, pass, i, j);
      BracketAt(SweepOrThrow(s, pass, i, j).state, k, l) == Skipped(s, pass, i, j, m, n, k, l)
    decreases |s.portfolios| - i, if i < |s.portfolios| then |s.portfolios[i].brackets| - j else 0, 1
  {
    if j >= |s.portfolios[i].brackets| {
      ThrowSkipsTheRest(s, pass, i + 1, 0, k, l);
    } else if VisitOrThrow(s, pass, i, j).threw {
      VisitPlaces(s, pass, i, j, k, l);
    } else {
      VisitSkipsTheRest(s, pass, i, j, k, l);
    }
  }

  lemma {:induction false} VisitSkipsTheRest(s: State, pass: Pass, i: nat, j: nat, k: nat, l: nat)
    requires At(s, i, j) && !VisitOrThrow(s, pass, i, j).threw && SweepOrThrow(s, pass, i, j).threw && At(s, k, l)
    ensures At(SweepOrThrow(s, pass, i, j).state, k, l)
    ensures var (m, n) := ThrowPlace(s, pass, i, j);
      BracketAt(SweepOrThrow(s, pass, i, j).state, k, l) == Skipped(s, pass, i, j, m, n, k, l)
    decreases |s.portfolios| - i, if i < |s.portfolios| then |s.portfolios[i].brackets| - j else 0, 0
  {
    ThrowPlaceOn(s, pass, i, j);
    VisitPlaces(s, pass, i, j, k, l);
    ThrowSkipsTheRest(VisitOrThrow(s, pass, i, j).state, pass, i, j + 1, k, l);
    SkipsBack(s, VisitOrThrow(s, pass, i, j).state, pass, i, j, k, l);
  }

  /** What a throw leaves, from the next place on, is what it leaves from here on. */
  lemma SkipsBack(s: State, v: State, pass: Pass, i: nat, j: nat, k: nat, l: nat)
    requires At(s, k, l) && At(v, k, l) && v.cfg == s.cfg && SweepOrThrow(v, pass, i, j + 1).threw
    requires BracketAt(v, k, l) == if k == i && l == j then After(s.cfg, pass, BracketAt(s, k, l)) else BracketAt(s, k, l)
    ensures var (m, n) := ThrowPlace(v, pass, i, j + 1);
      Skipped(v, pass, i, j + 1, m, n, k, l) == Skipped(s, pass, i, j, m, n, k, l)
  {
    ThrowsAtRefusal(v, pass, i, j + 1);
    var (m, n) := ThrowPlace(v, pass, i, j + 1);
    SkipsOn(s, v, pass, i, j, m, n, k, l);
  }

  /** The bracket at `k`, `l` once a pass from `i`, `j` on has thrown at `m`, `n`. */
  function Skipped(s: State, pass: Pass, i: nat, j: nat, m: nat, n: nat, k: nat, l: nat): Bracket
    requires At(s, k, l)
  {
    if Before(k, l, i, j) || Before(m, n, k, l) then BracketAt(s, k, l) else After(s.cfg, pass, BracketAt(s, k, l))
  }

  lemma SkipsOn(s: State, v: State, pass: Pass, i: nat, j: nat, m: nat, n: nat, k: nat, l: nat)
    requires At(s, k, l) && At(v, k, l) && v.cfg == s.cfg && !Before(m, n, i, j + 1)
    requires BracketAt(v, k, l) == if k == i && l == j then After(s.cfg, pass, BracketAt(s, k, l)) else BracketAt(s, k, l)
    ensures Skipped(v, pass, i, j + 1, m, n, k, l) == Skipped(s, pass, i, j, m, n, k, l)
  {
  }

  lemma ThrowPlaceOn(s: State, pass: Pass, i: nat, j: nat)
    requires At(s, i, j) && !VisitOrThrow(s, pass, i, j).threw && SweepOrThrow(s, pass, i, j).threw
    ensures SweepOrThrow(s, pass, i, j) == SweepOrThrow(VisitOrThrow(s, pass, i, j).state, pass, i, j + 1)
    ensures ThrowPlace(s, pass, i, j) == ThrowPlace(VisitOrThrow(s, pass, i, j).state, pass, i, j + 1)
  {
  }

  // ---- Markets, throws or not -------------------------------------------------------------------

  /** Every open bracket's ticker has a mark. */
  ghost predicate OpenMarked(s: State)
  {
    forall i, j :: At(s, i, j) && BracketAt(s, i, j).status == Open ==> BracketAt(s, i, j).ticker in s.marks
  }

  lemma {:induction false} SweepPlaces(s: State, pass: Pass, i: nat, j: nat, k: nat, l: nat)
    ensures At(SweepOrThrow(s, pass, i, j).state, k, l) <==> At(s, k, l)
    ensures At(s, k, l) ==>
      BracketAt(SweepOrThrow(s, pass, i, j).state, k, l) in {BracketAt(s, k, l), After(s.cfg, pass, BracketAt(s, k, l))}
    ensures SweepOrThrow(s, pass, i, j).state.marks == s.marks && SweepOrThrow(s, pass, i, j).state.cfg == s.cfg
    decreases |s.portfolios| - i, if i < |s.portfolios| then |s.portfolios[i].brackets| - j else 0
  {
    if i >= |s.portfolios| {
    } else if j >= |s.portfolios[i].brackets| {
      SweepPlaces(s, pass, i + 1, 0, k, l);
    } else {
      VisitPlaces(s, pass, i, j, k, l);
      if !VisitOrThrow(s, pass, i, j).threw {
        SweepPlaces(VisitOrThrow(s, pass, i, j).state, pass, i, j + 1, k, l);
        if At(s, k, l) {
          AfterTwice(s.cfg, pass, BracketAt(s, k, l));
        }
      }
    }
  }

  lemma AfterTwice(cfg: Config, pass: Pass, b: Bracket)
    ensures After(cfg, pass, After(cfg, pass, b)) == After(cfg, pass, b)
  {
  }

  /** A pass opens brackets only on its own ticker. */
  lemma SweepMarked(s: State, pass: Pass)
    requires OpenMarked(s) && (pass.Entries? ==> pass.ticker in s.marks)
    ensures OpenMarked(SweepOrThrow(s, pass, 0, 0).state)
    ensures SweepOrThrow(s, pass, 0, 0).state.marks == s.marks
  {
    var t := SweepOrThrow(s, pass, 0, 0).state;
    SweepPlaces(s, pass, 0, 0, 0, 0);
    forall k, l | At(t, k, l) && BracketAt(t, k, l).status == Open
      ensures BracketAt(t, k, l).ticker in t.marks
    {
      SweepPlaces(s, pass, 0, 0, k, l);
    }
  }

  lemma SetMarkMarked(s: State, ticker: Ticker, mk: Mark)
    requires OpenMarked(s)
    ensures OpenMarked(s.(marks := s.marks[ticker := mk]))
  {
    var t := s.(marks := s.marks[ticker := mk]);
    forall i, j | At(t, i, j) && BracketAt(t, i, j).status == Open
      ensures BracketAt(t, i, j).ticker in t.marks
    {
      assert At(s, i, j) && BracketAt(s, i, j) == BracketAt(t, i, j);
    }
  }

  lemma ApplyBooks(s: State, i: nat, j: nat, e: Effect)
    requires At(s, i, j)
    ensures ApplyOrThrow(s, i, j, e).state == Apply(s, i, j, e).(fills := ApplyOrThrow(s, i, j, e).state.fills)
  {
  }

  /** A call that throws leaves what it leaves otherwise, but for the record of its fill. */
  lemma PlaceBooks(s: State, r: Request)
    ensures PlaceOrThrow(s, r).0 == Place(s, r).0.(fills := PlaceOrThrow(s, r).0.fills)
  {
    if r.rung != LIVE {
      var t := Recorded(s, r);
      var i := PortfolioIndex(t.portfolios, r.strategy);
      var j := |t.portfolios[i].brackets| - 1;
      ApplyBooks(t, i, j, PlaceEffect(t.cfg, t.marks, BracketAt(t, i, j)));
    }
  }

  lemma ModifyBooks(s: State, m: Modification)
    ensures ModifyOrThrow(s, m).0 == Modify(s, m).0.(fills := ModifyOrThrow(s, m).0.fills)
  {
    if Lookup(s, m.id).Some? {
      var (i, j) := Lookup(s, m.id).value;
      ApplyBooks(s, i, j, ModifyEffect(s.cfg, s.marks, BracketAt(s, i, j), m));
    }
  }

  lemma CancelBooks(s: State, id: nat)
    ensures CancelOrThrow(s, id).0 == Cancel(s, id).0.(fills := CancelOrThrow(s, id).0.fills)
  {
    if Lookup(s, id).Some? {
      var (i, j) := Lookup(s, id).value;
      ApplyBooks(s, i, j, CancelEffect(s.cfg, s.marks, BracketAt(s, i, j)));
    }
  }

  lemma SameBooksMarked(s: State, t: State)
    requires OpenMarked(t) && s == t.(fills := s.fills)
    ensures OpenMarked(s)
  {
    forall k, l | At(s, k, l) && BracketAt(s, k, l).status == Open
      ensures BracketAt(s, k, l).ticker in s.marks
    {
      assert At(t, k, l) && BracketAt(t, k, l) == BracketAt(s, k, l);
    }
  }

  lemma PlaceMarked(s: State, r: Request)
    requires OpenMarked(s) && r.rung != LIVE
    ensures OpenMarked(Place(s, r).0)
  {
    var u, t := Place(s, r).0, Recorded(s, r);
    forall k, l | At(u, k, l) && BracketAt(u, k, l).status == Open
      ensures BracketAt(u, k, l).ticker in u.marks
    {
      RecordedOrigin(s, r, k, l);
      assert At(t, k, l);
      RecordedPlaces(s, r, k, l);
    }
  }

  /** A step that opens nothing and keeps the marks. */
  lemma QuietMarked(s: State, t: State)
    requires OpenMarked(s) && t.marks == s.marks
    requires forall k, l :: At(t, k, l) ==> At(s, k, l) && Quietly(BracketAt(s, k, l), BracketAt(t, k, l))
    ensures OpenMarked(t)
  {
  }

  lemma ModifyMarked(s: State, m: Modification)
    requires OpenMarked(s)
    ensures OpenMarked(Modify(s, m).0)
  {
    forall k, l | At(Modify(s, m).0, k, l)
      ensures At(s, k, l) && Quietly(BracketAt(s, k, l), BracketAt(Modify(s, m).0, k, l))
    {
      ModifyOrigin(s, m, k, l);
    }
    QuietMarked(s, Modify(s, m).0);
  }

  lemma CancelMarked(s: State, id: nat)
    requires OpenMarked(s)
    ensures OpenMarked(Cancel(s, id).0)
  {
    forall k, l | At(Cancel(s, id).0, k, l)
      ensures At(s, k, l) && Quietly(BracketAt(s, k, l), BracketAt(Cancel(s, id).0, k, l))
    {
      CancelOrigin(s, id, k, l);
    }
    QuietMarked(s, Cancel(s, id).0);
  }

  lemma CallMarked(s: State, c: Command)
    requires OpenMarked(s) && !c.Bar? && !c.Tick?
    ensures OpenMarked(StepOrThrow(s, c).state)
  {
    match c
    case PlaceBracket(r) =>
      if r.rung != LIVE {
        PlaceMarked(s, r);
        PlaceBooks(s, r);
        SameBooksMarked(PlaceOrThrow(s, r).0, Place(s, r).0);
      }
    case ModifyBracket(m) =>
      ModifyMarked(s, m);
      ModifyBooks(s, m);
      SameBooksMarked(ModifyOrThrow(s, m).0, Modify(s, m).0);
    case CancelBracket(id) =>
      CancelMarked(s, id);
      CancelBooks(s, id);
      SameBooksMarked(CancelOrThrow(s, id).0, Cancel(s, id).0);
    case ResetPortfolio(x) => RestMarked(s, c);
    case DrainClosed(x) => RestMarked(s, c);
    case ReadPortfolio(x) => RestMarked(s, c);
  }

  lemma RestMarked(s: State, c: Command)
    requires OpenMarked(s) && (c.ResetPortfolio? || c.DrainClosed? || c.ReadPortfolio?)
    ensures OpenMarked(Step(s, c))
  {
    RestPlaces(s, c);
    QuietMarked(s, Step(s, c));
  }

  lemma StepMarked(s: State, c: Command)
    requires OpenMarked(s)
    ensures OpenMarked(StepOrThrow(s, c).state)
  {
    match c
    case Bar(bar) =>
      var quote := Synthesize(bar.close, s.cfg.spreadBps);
      var marked := s.(marks := s.marks[bar.ticker := Mark(quote, bar.ts)]);
      var entries := Entries(bar.ticker, quote, bar.ts, Some(bar));
      SetMarkMarked(s, bar.ticker, Mark(quote, bar.ts));
      SweepMarked(marked, entries);
      SweepMarked(SweepOrThrow(marked, entries, 0, 0).state, Exits(bar));
    case Tick(q) =>
      if Book(q).Some? {
        var book := Book(q).value;
        SetMarkMarked(s, q.ticker, Mark(book, q.ts));
        SweepMarked(s.(marks := s.marks[q.ticker := Mark(book, q.ts)]), Entries(q.ticker, book, q.ts, None));
      }
    case PlaceBracket(r) => CallMarked(s, c);
    case ModifyBracket(m) => CallMarked(s, c);
    case CancelBracket(id) => CallMarked(s, c);
    case ResetPortfolio(x) => CallMarked(s, c);
    case DrainClosed(x) => CallMarked(s, c);
    case ReadPortfolio(x) => CallMarked(s, c);
  }

  /** In every reachable state, throws or not, every open bracket's ticker has a mark. */
  lemma {:induction false} RunMarked(cfg: Config, cs: seq<Command>)
    ensures OpenMarked(RunOrThrow(cfg, cs).state)
  {
    if |cs| > 0 {
      RunMarked(cfg, cs[..|cs| - 1]);
      StepMarked(RunOrThrow(cfg, cs[..|cs| - 1]).state, cs[|cs| - 1]);
    }
  }

  /** So no scale-out and no flatten ever fails for lack of a market. */
  lemma NeverWithoutMarket(cfg: Config, cs: seq<Command>, m: Modification, id: nat)
    ensures ModifyOrThrow(RunOrThrow(cfg, cs).state, m).1 != NoMarket
    ensures CancelOrThrow(RunOrThrow(cfg, cs).state, id).1 != NoMarket
  {
    RunMarked(cfg, cs);
    var s := RunOrThrow(cfg, cs).state;
    ModifyHasMarket(s, m);
    CancelHasMarket(s, id);
  }

  lemma ModifyHasMarket(s: State, m: Modification)
    requires OpenMarked(s)
    ensures ModifyOrThrow(s, m).1 != NoMarket
  {
    if Lookup(s, m.id).Some? {
      var (i, j) := Lookup(s, m.id).value;
      assert At(s, i, j);
    }
  }

  lemma CancelHasMarket(s: State, id: nat)
    requires OpenMarked(s)
    ensures CancelOrThrow(s, id).1 != NoMarket
  {
    if Lookup(s, id).Some? {
      var (i, j) := Lookup(s, id).value;
      assert At(s, i, j);
    }
  }

  // ---- What visits keep, market events keep -----------------------------------------------------

  function Marked(s: State, ticker: Ticker, mk: Mark): State
  {
    s.(marks := s.marks[ticker := mk])
  }

  /** A property that neither a new mark nor a visit breaks, refused or not. */
  ghost predicate MarketProof(keeps: State -> bool)
  {
    (forall t: State, ticker: Ticker, mk: Mark :: keeps(t) ==> keeps(Marked(t, ticker, mk))) &&
    (forall t: State, pass: Pass, k: nat, l: nat :: At(t, k, l) && keeps(t) ==> keeps(VisitOrThrow(t, pass, k, l).state))
  }

  lemma {:induction false} SweepKeeps(keeps: State -> bool, s: State, pass: Pass, i: nat, j: nat)
    requires MarketProof(keeps) && keeps(s)
    ensures keeps(SweepOrThrow(s, pass, i, j).state)
    decreases |s.portfolios| - i, if i < |s.portfolios| then |s.portfolios[i].brackets| - j else 0
  {
    if i >= |s.portfolios| {
    } else if j >= |s.portfolios[i].brackets| {
      SweepKeeps(keeps, s, pass, i + 1, 0);
    } else {
      var v := VisitOrThrow(s, pass, i, j);
      if !v.threw {
        SweepKeeps(keeps, v.state, pass, i, j + 1);
      }
    }
  }

  lemma MarketKeeps(keeps: State -> bool, s: State, c: Command)
    requires MarketProof(keeps) && keeps(s) && (c.Bar? || c.Tick?)
    ensures keeps(StepOrThrow(s, c).state)
  {
    match c
    case Bar(bar) =>
      var quote := Synthesize(bar.close, s.cfg.spreadBps);
      var marked := Marked(s, bar.ticker, Mark(quote, bar.ts));
      var entries := Entries(bar.ticker, quote, bar.ts, Some(bar));
      SweepKeeps(keeps, marked, entries, 0, 0);
      SweepKeeps(keeps, SweepOrThrow(marked, entries, 0, 0).state, Exits(bar), 0, 0);
    case Tick(q) =>
      if Book(q).Some? {
        var book := Book(q).value;
        SweepKeeps(keeps, Marked(s, q.ticker, Mark(book, q.ts)), Entries(q.ticker, book, q.ts, None), 0, 0);
      }
  }

  /** A property that neither a new mark nor a visit breaks, unless it is refused. */
  ghost predicate UnthrownProof(keeps: State -> bool)
  {
    (forall t: State, ticker: Ticker, mk: Mark :: keeps(t) ==> keeps(Marked(t, ticker, mk))) &&
    (forall t: State, pass: Pass, k: nat, l: nat :: At(t, k, l) && keeps(t) && !VisitOrThrow(t, pass, k, l).threw
      ==> keeps(VisitOrThrow(t, pass, k, l).state))
  }

  lemma {:induction false} SweepKeepsUnthrown(keeps: State -> bool, s: State, pass: Pass, i: nat, j: nat)
    requires UnthrownProof(keeps) && keeps(s) && !SweepOrThrow(s, pass, i, j).threw
    ensures keeps(SweepOrThrow(s, pass, i, j).state)
    decreases |s.portfolios| - i, if i < |s.portfolios| then |s.portfolios[i].brackets| - j else 0
  {
    if i >= |s.portfolios| {
    } else if j >= |s.portfolios[i].brackets| {
      SweepKeepsUnthrown(keeps, s, pass, i + 1, 0);
    } else {
      SweepKeepsUnthrown(keeps, VisitOrThrow(s, pass, i, j).state, pass, i, j + 1);
    }
  }

  lemma MarketKeepsUnthrown(keeps: State -> bool, s: State, c: Command)
    requires UnthrownProof(keeps) && keeps(s) && (c.Bar? || c.Tick?) && !StepOrThrow(s, c).threw
    ensures keeps(StepOrThrow(s, c).state)
  {
    match c
    case Bar(bar) =>
      var quote := Synthesize(bar.close, s.cfg.spreadBps);
      var marked := Marked(s, bar.ticker, Mark(quote, bar.ts));
      var entries := Entries(bar.ticker, quote, bar.ts, Some(bar));
      SweepKeepsUnthrown(keeps, marked, entries, 0, 0);
      SweepKeepsUnthrown(keeps, SweepOrThrow(marked, entries, 0, 0).state, Exits(bar), 0, 0);
    case Tick(q) =>
      if Book(q).Some? {
        var book := Book(q).value;
        SweepKeepsUnthrown(keeps, Marked(s, q.ticker, Mark(book, q.ts)), Entries(q.ticker, book, q.ts, None), 0, 0);
      }
  }

  lemma VisitBooks(s: State, pass: Pass, i: nat, j: nat)
    requires At(s, i, j)
    ensures VisitOrThrow(s, pass, i, j).state == VisitAt(s, pass, i, j).(fills := VisitOrThrow(s, pass, i, j).state.fills)
  {
  }

  /** A call, or any other command that is no market event, leaves what it leaves unthrown, but for the fills. */
  lemma CallBooks(s: State, c: Command)
    requires !c.Bar? && !c.Tick?
    ensures StepOrThrow(s, c).state == Step(s, c).(fills := StepOrThrow(s, c).state.fills)
  {
    match c
    case PlaceBracket(r) => PlaceBooks(s, r);
    case ModifyBracket(m) => ModifyBooks(s, m);
    case CancelBracket(id) => CancelBooks(s, id);
    case ResetPortfolio(x) =>
    case DrainClosed(x) =>
    case ReadPortfolio(x) =>
  }

  /** Whatever is recorded was accepted. */
  lemma {:induction false} RecordsAccepted(cfg: Config, cs: seq<Command>)
    ensures Accepted(RunOrThrow(cfg, cs).state)
  {
    if |cs| > 0 {
      RecordsAccepted(cfg, cs[..|cs| - 1]);
      StepRecords(RunOrThrow(cfg, cs[..|cs| - 1]).state, cs[|cs| - 1]);
    }
  }

  lemma ApplyRecords(s: State, i: nat, j: nat, e: Effect)
    requires At(s, i, j) && Accepted(s)
    ensures Accepted(ApplyOrThrow(s, i, j, e).state)
  {
  }

  lemma PlaceRecords(s: State, r: Request)
    requires Accepted(s)
    ensures Accepted(PlaceOrThrow(s, r).0)
  {
    if r.rung != LIVE {
      var t := Recorded(s, r);
      var i := PortfolioIndex(t.portfolios, r.strategy);
      var j := |t.portfolios[i].brackets| - 1;
      ApplyRecords(t, i, j, PlaceEffect(t.cfg, t.marks, BracketAt(t, i, j)));
    }
  }

  lemma AmendRecords(s: State, m: Modification, id: nat)
    requires Accepted(s)
    ensures Accepted(ModifyOrThrow(s, m).0) && Accepted(CancelOrThrow(s, id).0)
  {
    if Lookup(s, m.id).Some? {
      var (i, j) := Lookup(s, m.id).value;
      ApplyRecords(s, i, j, ModifyEffect(s.cfg, s.marks, BracketAt(s, i, j), m));
    }
    if Lookup(s, id).Some? {
      var (i, j) := Lookup(s, id).value;
      ApplyRecords(s, i, j, CancelEffect(s.cfg, s.marks, BracketAt(s, i, j)));
    }
  }

  lemma MarketRecords(s: State, c: Command)
    requires Accepted(s) && (c.Bar? || c.Tick?)
    ensures Accepted(StepOrThrow(s, c).state)
  {
    forall t: State, pass: Pass, k: nat, l: nat | At(t, k, l) && Accepted(t)
      ensures Accepted(VisitOrThrow(t, pass, k, l).state) {
    }
    MarketKeeps(t => Accepted(t), s, c);
  }

  lemma StepRecords(s: State, c: Command)
    requires Accepted(s)
    ensures Accepted(StepOrThrow(s, c).state)
  {
    match c
    case Bar(bar) => MarketRecords(s, c);
    case Tick(q) => MarketRecords(s, c);
    case PlaceBracket(r) => PlaceRecords(s, r);
    case ModifyBracket(m) => AmendRecords(s, m, 0);
    case CancelBracket(id) => AmendRecords(s, Modification(0, None, None, None), id);
    case ResetPortfolio(x) =>
    case DrainClosed(x) =>
    case ReadPortfolio(x) =>
  }
}
