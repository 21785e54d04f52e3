/** Isolation of strategies: a run that throws nowhere does not throw for any of them alone. */
module SimAlone {
  import opened Market
  import opened Money
  import opened SimModel
  import opened SimLedger
  import opened SimRuns
  import opened SimLifecycle
  import opened SimActual
  import opened SimIsolation

  // ---- A sweep is accepted exactly when every visit is ------------------------------------------

  ghost predicate Taken(bk: Option<Booking>)
  {
    bk.Some? ==> ValidFill(bk.value.fill)
  }

  /** Every bracket from a place on would be visited without a refusal. */
  ghost predicate AllTaken(s: State, pass: Pass, i: nat, j: nat)
  {
    forall k: nat, l: nat :: At(s, k, l) && !Before(k, l, i, j) ==> Taken(Visit(s.cfg, pass, BracketAt(s, k, l)))
  }

  lemma VisitLeavesOthers(s: State, pass: Pass, i: nat, j: nat, k: nat, l: nat)
    requires At(s, i, j) && (k != i || l != j)
    ensures At(VisitAt(s, pass, i, j), k, l) <==> At(s, k, l)
    ensures At(s, k, l) ==> BracketAt(VisitAt(s, pass, i, j), k, l) == BracketAt(s, k, l)
    ensures VisitAt(s, pass, i, j).cfg == s.cfg
  {
  }

  lemma VisitTaken(s: State, pass: Pass, i: nat, j: nat)
    requires At(s, i, j)
    ensures Accepted(VisitAt(s, pass, i, j)) <==> Accepted(s) && Taken(Visit(s.cfg, pass, BracketAt(s, i, j)))
  {
    var t := VisitAt(s, pass, i, j);
    if Visit(s.cfg, pass, BracketAt(s, i, j)).Some? {
      assert t.fills[|s.fills|] == Visit(s.cfg, pass, BracketAt(s, i, j)).value.fill;
      if Accepted(t) {
        AcceptedPrefix(s, t);
      }
    }
  }

  lemma RestTaken(s: State, pass: Pass, i: nat, j: nat)
    requires At(s, i, j)
    ensures AllTaken(s, pass, i, j) <==>
      Taken(Visit(s.cfg, pass, BracketAt(s, i, j))) && AllTaken(VisitAt(s, pass, i, j), pass, i, j + 1)
  {
    var t := VisitAt(s, pass, i, j);
    assert !Before(i, j, i, j);
    if AllTaken(s, pass, i, j) {
      forall k: nat, l: nat | At(t, k, l) && !Before(k, l, i, j + 1)
        ensures Taken(Visit(t.cfg, pass, BracketAt(t, k, l))) {
        VisitLeavesOthers(s, pass, i, j, k, l);
      }
    }
    if Taken(Visit(s.cfg, pass, BracketAt(s, i, j))) && AllTaken(t, pass, i, j + 1) {
      forall k: nat, l: nat | At(s, k, l) && !Before(k, l, i, j)
        ensures Taken(Visit(s.cfg, pass, BracketAt(s, k, l))) {
        if k != i || l != j {
          VisitLeavesOthers(s, pass, i, j, k, l);
        }
      }
    }
  }

  lemma NextRowTaken(s: State, pass: Pass, i: nat, j: nat)
    requires i < |s.portfolios| && j >= |s.portfolios[i].brackets|
    ensures AllTaken(s, pass, i, j) <==> AllTaken(s, pass, i + 1, 0)
  {
  }

  lemma {:induction false} SweepTaken(s: State, pass: Pass, i: nat, j: nat)
    ensures Accepted(Sweep(s, pass, i, j)) <==> Accepted(s) && AllTaken(s, pass, i, j)
    decreases |s.portfolios| - i, if i < |s.portfolios| then |s.portfolios[i].brackets| - j else 0
  {
    if i >= |s.portfolios| {
    } else if j >= |s.portfolios[i].brackets| {
      NextRowTaken(s, pass, i, j);
      SweepTaken(s, pass, i + 1, 0);
    } else {
      VisitTaken(s, pass, i, j);
      RestTaken(s, pass, i, j);
      SweepTaken(VisitAt(s, pass, i, j), pass, i, j + 1);
    }
  }

  // ---- As one strategy sees it -----------------------------------------------------------------------

  ghost predicate PassTaken(cfg: Config, pass: Pass, v: View)
  {
    v.book.Some? ==>
      forall j :: 0 <= j < |v.book.value.brackets| ==> Taken(Visit(cfg, pass, v.book.value.brackets[j]))
  }

  lemma TakenInView(s: State, pass: Pass, x: StrategyId)
    requires AllTaken(s, pass, 0, 0)
    ensures PassTaken(s.cfg, pass, ViewOf(s, x))
  {
    var i := PortfolioIndex(s.portfolios, x);
    if i < |s.portfolios| {
      forall j | 0 <= j < |s.portfolios[i].brackets| ensures Taken(Visit(s.cfg, pass, s.portfolios[i].brackets[j])) {
        assert At(s, i, j) && !Before(i, j, 0, 0);
        assert BracketAt(s, i, j) == s.portfolios[i].brackets[j];
      }
    }
  }

  ghost predicate OnlyOf(s: State, x: StrategyId)
  {
    forall i :: 0 <= i < |s.portfolios| ==> s.portfolios[i].strategy == x
  }

  lemma TakenAlone(s: State, pass: Pass, x: StrategyId)
    requires Homes(s) && OnlyOf(s, x) && PassTaken(s.cfg, pass, ViewOf(s, x))
    ensures AllTaken(s, pass, 0, 0)
  {
    forall k: nat, l: nat | At(s, k, l) ensures Taken(Visit(s.cfg, pass, BracketAt(s, k, l))) {
      HomeIndex(s, k);
    }
  }

  lemma TakenAlike(cfg: Config, pass: Pass, v: View, w: View)
    requires Alike(v, w) && PassTaken(cfg, pass, v)
    ensures PassTaken(cfg, pass, w)
  {
    if w.book.Some? {
      forall j | 0 <= j < |w.book.value.brackets| ensures Taken(Visit(cfg, pass, w.book.value.brackets[j])) {
        assert Taken(Visit(cfg, pass, v.book.value.brackets[j]));
        VisitTakenAlike(cfg, pass, v.book.value.brackets[j], w.book.value.brackets[j]);
      }
    }
  }

  /** Alike brackets book fills at the same price, and both lack an order or neither. */
  lemma VisitTakenAlike(cfg: Config, pass: Pass, b: Bracket, c: Bracket)
    requires Anon(b) == Anon(c)
    ensures Taken(Visit(cfg, pass, b)) <==> Taken(Visit(cfg, pass, c))
  {
  }

  // ---- Market events ---------------------------------------------------------------------------------

  /** From a marked state on: the two passes of a bar. */
  lemma PassesSeen(s: State, entries: Pass, exits: Pass, x: StrategyId)
    requires Homes(s) && Accepted(Sweep(Sweep(s, entries, 0, 0), exits, 0, 0))
    ensures PassTaken(s.cfg, entries, ViewOf(s, x)) && PassTaken(s.cfg, exits, ViewOf(Sweep(s, entries, 0, 0), x))
  {
    var t := Sweep(s, entries, 0, 0);
    SweepFrame(s, entries, 0, 0);
    SweepTaken(t, exits, 0, 0);
    SweepTaken(s, entries, 0, 0);
    TakenInView(s, entries, x);
    TakenInView(t, exits, x);
  }

  lemma SweptAlike(s: State, t: State, pass: Pass, x: StrategyId)
    requires Homes(s) && Homes(t) && s.cfg == t.cfg && Alike(ViewOf(s, x), ViewOf(t, x))
    ensures Alike(ViewOf(Sweep(s, pass, 0, 0), x), ViewOf(Sweep(t, pass, 0, 0), x))
  {
    SweepView(s, pass, 0, 0, x);
    SweepView(t, pass, 0, 0, x);
    SweepAlike(s.cfg, pass, ViewOf(s, x), ViewOf(t, x), 0);
  }

  lemma SweptOnly(s: State, pass: Pass, x: StrategyId)
    requires Homes(s) && OnlyOf(s, x)
    ensures Homes(Sweep(s, pass, 0, 0)) && OnlyOf(Sweep(s, pass, 0, 0), x) && Sweep(s, pass, 0, 0).cfg == s.cfg
  {
    SweepHomes(s, pass);
    SweepFrame(s, pass, 0, 0);
  }

  lemma PassesAlone(s: State, t: State, entries: Pass, exits: Pass, x: StrategyId)
    requires Homes(s) && Homes(t) && s.cfg == t.cfg && Alike(ViewOf(s, x), ViewOf(t, x)) && OnlyOf(t, x)
    requires Accepted(t) && Accepted(Sweep(Sweep(s, entries, 0, 0), exits, 0, 0))
    ensures Accepted(Sweep(Sweep(t, entries, 0, 0), exits, 0, 0))
  {
    PassesSeen(s, entries, exits, x);
    TakenAlike(s.cfg, entries, ViewOf(s, x), ViewOf(t, x));
    TakenAlone(t, entries, x);
    SweepTaken(t, entries, 0, 0);
    var u := Sweep(t, entries, 0, 0);
    SweptAlike(s, t, entries, x);
    SweptOnly(t, entries, x);
    TakenAlike(s.cfg, exits, ViewOf(Sweep(s, entries, 0, 0), x), ViewOf(u, x));
    TakenAlone(u, exits, x);
    SweepTaken(u, exits, 0, 0);
  }

  lemma BarAlone(s: State, t: State, bar: Candle, x: StrategyId)
    requires Homes(s) && Homes(t) && s.cfg == t.cfg && Alike(ViewOf(s, x), ViewOf(t, x)) && OnlyOf(t, x)
    requires Accepted(t) && Accepted(OnBar(s, bar))
    ensures Accepted(OnBar(t, bar))
  {
    var quote := Synthesize(bar.close, s.cfg.spreadBps);
    var mk := Mark(quote, bar.ts);
    SetMarkHomes(s, bar.ticker, mk, x);
    SetMarkHomes(t, bar.ticker, mk, x);
    PassesAlone(Marked(s, bar.ticker, mk), Marked(t, bar.ticker, mk),
                Entries(bar.ticker, quote, bar.ts, Some(bar)), Exits(bar), x);
  }

  lemma QuoteAlone(s: State, t: State, q: Quote, x: StrategyId)
    requires Homes(s) && Homes(t) && s.cfg == t.cfg && Alike(ViewOf(s, x), ViewOf(t, x)) && OnlyOf(t, x)
    requires Accepted(t) && Accepted(UpdateQuote(s, q))
    ensures Accepted(UpdateQuote(t, q))
  {
    if Book(q).Some? {
      var mk, pass := Mark(Book(q).value, q.ts), Entries(q.ticker, Book(q).value, q.ts, None);
      SetMarkHomes(s, q.ticker, mk, x);
      SetMarkHomes(t, q.ticker, mk, x);
      var s1, t1 := Marked(s, q.ticker, mk), Marked(t, q.ticker, mk);
      SweepTaken(s1, pass, 0, 0);
      TakenInView(s1, pass, x);
      TakenAlike(s.cfg, pass, ViewOf(s1, x), ViewOf(t1, x));
      TakenAlone(t1, pass, x);
      SweepTaken(t1, pass, 0, 0);
    }
  }

  // ---- A strategy's own calls ----------------------------------------------------------------------

  ghost predicate EffectTaken(e: Effect)
  {
    Taken(e.booking)
  }

  lemma ApplyTaken(s: State, i: nat, j: nat, e: Effect)
    requires At(s, i, j)
    ensures Accepted(Apply(s, i, j, e)) <==> Accepted(s) && EffectTaken(e)
  {
    var t := Apply(s, i, j, e);
    if e.booking.Some? {
      assert t.fills[|s.fills|] == e.booking.value.fill;
      if Accepted(t) {
        AcceptedPrefix(s, t);
      }
    }
  }

  /** What a strategy's call books, if anything, is accepted. */
  ghost predicate ActTaken(cfg: Config, marks: map<Ticker, Mark>, lastId: nat, x: StrategyId, v: View, act: Act)
  {
    match act
    case Submit(r) => r.rung != LIVE ==> EffectTaken(PlaceEffect(cfg, marks, NewBracket(lastId, r.(strategy := x))))
    case Amend(k, stop, target, qty) =>
      In(v, k) ==> EffectTaken(ModifyEffect(cfg, marks, v.book.value.brackets[k], Modification(0, stop, target, qty)))
    case Withdraw(k) => In(v, k) ==> EffectTaken(CancelEffect(cfg, marks, v.book.value.brackets[k]))
    case StartOver => true
    case TakeClosed => true
    case Look => true
  }

  lemma PlaceTaken(s: State, r: Request)
    requires r.rung != LIVE
    ensures Accepted(Place(s, r).0) <==> Accepted(s) && EffectTaken(PlaceEffect(s.cfg, s.marks, NewBracket(s.lastId, r)))
  {
    var t := Recorded(s, r);
    var i := PortfolioIndex(t.portfolios, r.strategy);
    var j := |t.portfolios[i].brackets| - 1;
    RecordedPlaces(s, r, i, j);
    ApplyTaken(t, i, j, PlaceEffect(t.cfg, t.marks, BracketAt(t, i, j)));
  }

  lemma AmendTaken(s: State, y: StrategyId, k: nat, stop: Option<Price>, target: Option<Price>, qty: Option<Shares>)
    requires Homes(s)
    ensures Accepted(Modify(s, Modification(IdAt(s, y, k), stop, target, qty)).0) <==>
      Accepted(s) && ActTaken(s.cfg, s.marks, s.lastId, y, ViewOf(s, y), Amend(k, stop, target, qty))
  {
    var m := Modification(IdAt(s, y, k), stop, target, qty);
    ResolvedAt(s, y, k);
    if In(ViewOf(s, y), k) {
      var i := PortfolioIndex(s.portfolios, y);
      var b := BracketAt(s, i, k);
      assert Moved(b, m) == Moved(b, m.(id := 0));
      assert ModifyEffect(s.cfg, s.marks, b, m) == ModifyEffect(s.cfg, s.marks, b, m.(id := 0));
      ApplyTaken(s, i, k, ModifyEffect(s.cfg, s.marks, b, m));
    }
  }

  lemma WithdrawTaken(s: State, y: StrategyId, k: nat)
    requires Homes(s)
    ensures Accepted(Cancel(s, IdAt(s, y, k)).0) <==>
      Accepted(s) && ActTaken(s.cfg, s.marks, s.lastId, y, ViewOf(s, y), Withdraw(k))
  {
    ResolvedAt(s, y, k);
    if In(ViewOf(s, y), k) {
      var i := PortfolioIndex(s.portfolios, y);
      ApplyTaken(s, i, k, CancelEffect(s.cfg, s.marks, BracketAt(s, i, k)));
    }
  }

  lemma OwnTaken(s: State, y: StrategyId, act: Act)
    requires Homes(s)
    ensures Accepted(Step(s, CommandOf(s, Own(y, act)))) <==>
      Accepted(s) && ActTaken(s.cfg, s.marks, s.lastId, y, ViewOf(s, y), act)
  {
    match act
    case Submit(r) =>
      if r.rung != LIVE {
        PlaceTaken(s, r.(strategy := y));
      }
    case Amend(k, stop, target, qty) => AmendTaken(s, y, k, stop, target, qty);
    case Withdraw(k) => WithdrawTaken(s, y, k);
    case StartOver =>
    case TakeClosed =>
    case Look =>
  }

  lemma EffectsTakenAlike(cfg: Config, marks: map<Ticker, Mark>, b: Bracket, c: Bracket, m: Modification)
    requires Anon(b) == Anon(c)
    ensures EffectTaken(ModifyEffect(cfg, marks, b, m)) <==> EffectTaken(ModifyEffect(cfg, marks, c, m))
    ensures EffectTaken(CancelEffect(cfg, marks, b)) <==> EffectTaken(CancelEffect(cfg, marks, c))
    ensures EffectTaken(PlaceEffect(cfg, marks, b)) <==> EffectTaken(PlaceEffect(cfg, marks, c))
  {
  }

  lemma ActTakenAlike(cfg: Config, marks: map<Ticker, Mark>, n: nat, m: nat, x: StrategyId, v: View, w: View, act: Act)
    requires Alike(v, w) && ActTaken(cfg, marks, n, x, v, act)
    ensures ActTaken(cfg, marks, m, x, w, act)
  {
    match act
    case Submit(r) =>
      EffectsTakenAlike(cfg, marks, NewBracket(n, r.(strategy := x)), NewBracket(m, r.(strategy := x)),
                        Modification(0, None, None, None));
    case Amend(k, stop, target, qty) =>
      if In(w, k) {
        EffectsTakenAlike(cfg, marks, v.book.value.brackets[k], w.book.value.brackets[k], Modification(0, stop, target, qty));
      }
    case Withdraw(k) =>
      if In(w, k) {
        EffectsTakenAlike(cfg, marks, v.book.value.brackets[k], w.book.value.brackets[k], Modification(0, None, None, None));
      }
    case StartOver =>
    case TakeClosed =>
    case Look =>
  }

  // ---- The whole run --------------------------------------------------------------------------------

  /** What another strategy does is no part of the run of one alone. */
  ghost predicate Concerns(op: Op, x: StrategyId)
  {
    op.Own? ==> op.strategy == x
  }

  lemma StepAlone(s: State, t: State, op: Op, x: StrategyId)
    requires Homes(s) && Homes(t) && s.cfg == t.cfg && s.marks == t.marks && Alike(ViewOf(s, x), ViewOf(t, x))
    requires OnlyOf(t, x) && Concerns(op, x) && Accepted(t) && Accepted(Step(s, CommandOf(s, op)))
    ensures Accepted(Step(t, CommandOf(t, op)))
  {
    match op
    case OnMarketBar(bar) => BarAlone(s, t, bar, x);
    case OnMarketQuote(q) => QuoteAlone(s, t, q, x);
    case TakeAllClosed =>
    case Own(y, act) =>
      OwnTaken(s, x, act);
      ActTakenAlike(s.cfg, s.marks, s.lastId, t.lastId, x, ViewOf(s, x), ViewOf(t, x), act);
      OwnTaken(t, x, act);
  }

  lemma PlaceOnly(s: State, r: Request, x: StrategyId)
    requires OnlyOf(s, x) && r.strategy == x
    ensures OnlyOf(Place(s, r).0, x)
  {
    if r.rung != LIVE {
      assert OnlyOf(Ensured(s, x), x);
      assert OnlyOf(Recorded(s, r), x);
    }
  }

  lemma ActOnly(s: State, x: StrategyId, act: Act)
    requires OnlyOf(s, x)
    ensures OnlyOf(Step(s, CommandOf(s, Own(x, act))), x)
  {
    match act
    case Submit(r) => PlaceOnly(s, r.(strategy := x), x);
    case Amend(k, stop, target, qty) => AmendOnly(s, Modification(IdAt(s, x, k), stop, target, qty), 0, x);
    case Withdraw(k) => AmendOnly(s, Modification(0, None, None, None), IdAt(s, x, k), x);
    case StartOver =>
    case TakeClosed =>
    case Look =>
  }

  lemma AmendOnly(s: State, m: Modification, id: nat, x: StrategyId)
    requires OnlyOf(s, x)
    ensures OnlyOf(Modify(s, m).0, x) && OnlyOf(Cancel(s, id).0, x)
  {
  }

  lemma StepOnly(s: State, op: Op, x: StrategyId)
    requires OnlyOf(s, x) && Concerns(op, x)
    ensures OnlyOf(Step(s, CommandOf(s, op)), x)
  {
    match op
    case OnMarketBar(bar) => BarFrame(s, bar);
    case OnMarketQuote(q) => if Book(q).Some? { QuoteFrame(s, q); }
    case TakeAllClosed =>
    case Own(y, act) => ActOnly(s, x, act);
  }

  lemma {:induction false} LoneAccepted(cfg: Config, ops: seq<Op>, x: StrategyId)
    requires Accepted(Play(cfg, ops))
    ensures Accepted(Play(cfg, Only(x, ops))) && OnlyOf(Play(cfg, Only(x, ops)), x)
  {
    if |ops| > 0 {
      var rest, op := ops[..|ops| - 1], ops[|ops| - 1];
      var s, t := Play(cfg, rest), Play(cfg, Only(x, rest));
      StepGrows(s, CommandOf(s, op));
      AcceptedPrefix(s, Play(cfg, ops));
      LoneAccepted(cfg, rest, x);
      OnlyStep(x, ops);
      if Concerns(op, x) {
        PlayHomes(cfg, rest);
        PlayHomes(cfg, Only(x, rest));
        PlayIsolated(cfg, rest, x);
        PlayOn(cfg, Only(x, rest), op);
        StepAlone(s, t, op, x);
        StepOnly(t, op, x);
      }
    }
  }

  /**
   Isolation: in a run that throws nowhere, a strategy's cash, P&L, brackets and closed
   trades, and the marks, are those of the run without every other strategy's calls, up
   to ids; and that run throws nowhere either.
   */
  lemma Isolated(cfg: Config, cs: seq<Command>, x: StrategyId)
    requires !RunOrThrow(cfg, cs).threw
    ensures !RunOrThrow(cfg, OwnCommands(cfg, cs, x)).threw
    ensures var s, t := RunOrThrow(cfg, cs).state, RunOrThrow(cfg, OwnCommands(cfg, cs, x)).state;
      Alike(ViewOf(s, x), ViewOf(t, x)) && s.marks == t.marks
  {
    RunAgrees(cfg, cs);
    RunAgrees(cfg, OwnCommands(cfg, cs, x));
    RunIsPlay(cfg, cs);
    PlayIsRun(cfg, Only(x, OpsOf(cfg, cs)));
    PlayIsolated(cfg, OpsOf(cfg, cs), x);
    LoneAccepted(cfg, OpsOf(cfg, cs), x);
  }
}
