/** Every run of the SIM exchange conserves shares and explains its cash. */
module SimRuns {
  import opened Market
  import opened Money
  import opened SimModel
  import opened SimLedger

  // ---- Frames: what a sweep or a step leaves alone ------------------------------

  ghost predicate SameBooks(s: State, t: State)
  {
    t.cfg == s.cfg && t.marks == s.marks && t.owner == s.owner && t.lastId == s.lastId &&
    |t.portfolios| == |s.portfolios| &&
    (forall k :: 0 <= k < |s.portfolios| ==>
       t.portfolios[k].strategy == s.portfolios[k].strategy &&
       t.portfolios[k].startingCash == s.portfolios[k].startingCash &&
       |t.portfolios[k].brackets| == |s.portfolios[k].brackets|)
  }

  lemma {:induction false} SweepFrame(s: State, pass: Pass, i: nat, j: nat)
    ensures SameBooks(s, Sweep(s, pass, i, j)) && s.fills <= Sweep(s, pass, i, j).fills
    decreases |s.portfolios| - i, if i < |s.portfolios| then |s.portfolios[i].brackets| - j else 0
  {
    if i >= |s.portfolios| {
    } else if j >= |s.portfolios[i].brackets| {
      SweepFrame(s, pass, i + 1, 0);
    } else {
      SweepFrame(VisitAt(s, pass, i, j), pass, i, j + 1);
    }
  }

  lemma BarGrows(s: State, bar: Candle)
    ensures s.fills <= OnBar(s, bar).fills && OnBar(s, bar).cfg == s.cfg
  {
    var quote := Synthesize(bar.close, s.cfg.spreadBps);
    var marked := s.(marks := s.marks[bar.ticker := Mark(quote, bar.ts)]);
    var filled := Sweep(marked, Entries(bar.ticker, quote, bar.ts, Some(bar)), 0, 0);
    SweepFrame(marked, Entries(bar.ticker, quote, bar.ts, Some(bar)), 0, 0);
    SweepFrame(filled, Exits(bar), 0, 0);
  }

  lemma StepGrows(s: State, c: Command)
    ensures s.fills <= Step(s, c).fills
    ensures Step(s, c).cfg == s.cfg
  {
    match c
    case Bar(bar) => BarGrows(s, bar);
    case Tick(q) =>
      if Book(q).Some? {
        var book := Book(q).value;
        SweepFrame(s.(marks := s.marks[q.ticker := Mark(book, q.ts)]), Entries(q.ticker, book, q.ts, None), 0, 0);
      }
    case _ =>
  }

  // ---- Market events ----------------------------------------------------------------

  lemma VisitBalanced(cfg: Config, pass: Pass, b: Bracket, fs: seq<Fill>)
    requires Conserved(cfg.commission, b, fs)
    requires Visit(cfg, pass, b).Some? && ValidFill(Visit(cfg, pass, b).value.fill)
    ensures var bk := Visit(cfg, pass, b).value;
      SameIdentity(b, bk.bracket) && Owns(b.orders, bk.fill) && Balanced(cfg.commission, b, bk, fs)
  {
    match pass
    case Entries(ticker, quote, ts, bar) => EnterBalanced(cfg, b, quote, ts, fs);
    case Exits(bar) =>
      var t := DetectExit(b, bar).value;
      var order := if t.leg == StopLeg then Some(b.orders.stop) else b.orders.target;
      ExitAllBalanced(cfg, b, order, Synthesize(t.reference, cfg.spreadBps), bar.ts, fs);
  }

  lemma VisitSound(s: State, pass: Pass, i: nat, j: nat)
    requires Sound(s) && At(s, i, j) && Accepted(VisitAt(s, pass, i, j))
    ensures Sound(VisitAt(s, pass, i, j))
  {
    var b := BracketAt(s, i, j);
    match Visit(s.cfg, pass, b)
    case None =>
    case Some(bk) =>
      assert VisitAt(s, pass, i, j).fills[|s.fills|] == bk.fill;
      VisitBalanced(s.cfg, pass, b, s.fills);
      PostSound(s, i, j, bk);
  }

  /** A sweep is a visit and the rest of the sweep; what the whole is accepted for, the visit is. */
  lemma SweepOn(s: State, pass: Pass, i: nat, j: nat)
    requires At(s, i, j)
    ensures Sweep(s, pass, i, j) == Sweep(VisitAt(s, pass, i, j), pass, i, j + 1)
    ensures Accepted(Sweep(s, pass, i, j)) ==> Accepted(VisitAt(s, pass, i, j))
  {
    var t := VisitAt(s, pass, i, j);
    SweepFrame(t, pass, i, j + 1);
    if Accepted(Sweep(s, pass, i, j)) {
      AcceptedPrefix(t, Sweep(t, pass, i, j + 1));
    }
  }

  lemma {:induction false} SweepSound(s: State, pass: Pass, i: nat, j: nat)
    requires Sound(s) && Accepted(Sweep(s, pass, i, j))
    ensures Sound(Sweep(s, pass, i, j))
    decreases |s.portfolios| - i, if i < |s.portfolios| then |s.portfolios[i].brackets| - j else 0
  {
    if i >= |s.portfolios| {
    } else if j >= |s.portfolios[i].brackets| {
      SweepSound(s, pass, i + 1, 0);
    } else {
      SweepOn(s, pass, i, j);
      VisitSound(s, pass, i, j);
      SweepSound(VisitAt(s, pass, i, j), pass, i, j + 1);
    }
  }

  lemma AcceptedPrefix(s: State, t: State)
    requires Accepted(t) && s.fills <= t.fills
    ensures Accepted(s)
  {
    forall n | 0 <= n < |s.fills| ensures ValidFill(s.fills[n]) {
      assert s.fills[n] == t.fills[n];
    }
  }

  lemma SetMarkSound(s: State, ticker: Ticker, mk: Mark)
    requires Sound(s)
    ensures Sound(s.(marks := s.marks[ticker := mk]))
  {
    var t := s.(marks := s.marks[ticker := mk]);
    forall i, j | At(t, i, j)
      ensures At(s, i, j) && BracketAt(t, i, j) == BracketAt(s, i, j)
    {
      assert At(s, i, j);
    }
  }

  // ---- Port operations ------------------------------------------------------------------

  lemma EnsuredSound(s: State, x: StrategyId)
    requires Sound(s)
    ensures Sound(Ensured(s, x))
    ensures var t := Ensured(s, x); t.fills == s.fills && t.lastId == s.lastId && t.cfg == s.cfg
    ensures s.portfolios <= Ensured(s, x).portfolios
  {
    EnsuredPlaces(s, x);
    SameBracketsLayout(s, Ensured(s, x));
    EnsuredCash(s, x);
  }

  lemma EnsuredCash(s: State, x: StrategyId)
    requires CashExplained(s)
    ensures CashExplained(Ensured(s, x))
  {
  }

  lemma EnsuredPlaces(s: State, x: StrategyId)
    ensures forall i, j :: At(Ensured(s, x), i, j) ==> At(s, i, j) && BracketAt(Ensured(s, x), i, j) == BracketAt(s, i, j)
    ensures s.portfolios <= Ensured(s, x).portfolios
  {
  }

  /** A state with no other brackets than before. */
  lemma SameBracketsLayout(s: State, t: State)
    requires Layout(s) && t.owner == s.owner && t.lastId == s.lastId && t.fills == s.fills
    requires forall i, j :: At(t, i, j) ==> At(s, i, j) && BracketAt(t, i, j) == BracketAt(s, i, j)
    requires forall i, k :: 0 <= i < k < |t.portfolios| ==> t.portfolios[i].strategy != t.portfolios[k].strategy
    requires forall i, j :: At(t, i, j) ==> t.portfolios[i].strategy == s.portfolios[i].strategy
    ensures Layout(t)
  {
    forall i, j | At(t, i, j)
      ensures Placed(t, t.portfolios[i].strategy, BracketAt(t, i, j))
    {
      assert Placed(s, s.portfolios[i].strategy, BracketAt(s, i, j));
    }
  }

  lemma {:induction false} TotalCarryAppend(m: CommissionModel, bs: seq<Bracket>, b: Bracket, fs: seq<Fill>)
    ensures TotalCarry(m, bs + [b], fs) == TotalCarry(m, bs, fs) + Carry(m, b, fs)
  {
    if |bs| > 0 {
      assert (bs + [b])[1..] == bs[1..] + [b];
      TotalCarryAppend(m, bs[1..], b, fs);
    }
  }

  lemma NewBracketUntouched(s: State, r: Request)
    requires Layout(s)
    ensures Untouched(NewBracket(s.lastId, r).orders, s.fills)
  {
  }

  /** The new bracket goes at the end of its portfolio; every other place keeps its bracket. */
  lemma RecordedPlaces(s: State, r: Request, k: int, l: int)
    requires At(Recorded(s, r), k, l)
    ensures var u, t := Ensured(s, r.strategy), Recorded(s, r);
      var i := PortfolioIndex(u.portfolios, r.strategy);
      if k == i && l == |u.portfolios[i].brackets| then BracketAt(t, k, l) == NewBracket(s.lastId, r)
      else At(u, k, l) && BracketAt(t, k, l) == BracketAt(u, k, l)
  {
  }

  lemma RecordedAtEnd(s: State, r: Request)
    ensures var t := Recorded(s, r); var i := PortfolioIndex(t.portfolios, r.strategy);
      BracketAt(t, i, |t.portfolios[i].brackets| - 1) == NewBracket(s.lastId, r)
  {
    var t := Recorded(s, r);
    var i := PortfolioIndex(t.portfolios, r.strategy);
    RecordedPlaces(s, r, i, |t.portfolios[i].brackets| - 1);
  }

  lemma NewIdUnused(s: State)
    requires Layout(s)
    ensures LegFills(IdOrders(s.lastId + 1), s.fills) == 0
  {
    UntouchedLegs(IdOrders(s.lastId + 1), s.fills);
  }

  lemma RecordedPlaced(s: State, r: Request, k: nat, l: nat)
    requires Layout(s) && Layout(Ensured(s, r.strategy)) && At(Recorded(s, r), k, l)
    ensures var t := Recorded(s, r); Placed(t, t.portfolios[k].strategy, BracketAt(t, k, l))
    ensures var t := Recorded(s, r);
      At(Ensured(s, r.strategy), k, l) ==> LastUsed(BracketAt(t, k, l)) < NewBracket(s.lastId, r).id
  {
    RecordedPlaces(s, r, k, l);
    if At(Ensured(s, r.strategy), k, l) {
      assert Placed(Ensured(s, r.strategy), Ensured(s, r.strategy).portfolios[k].strategy, BracketAt(Recorded(s, r), k, l));
    }
  }

  lemma RecordedApart(s: State, r: Request, k: nat, l: nat, m: nat, n: nat)
    requires Layout(s) && Layout(Ensured(s, r.strategy)) && At(Recorded(s, r), k, l) && At(Recorded(s, r), m, n)
    requires k != m || l != n
    ensures Apart(BracketAt(Recorded(s, r), k, l), BracketAt(Recorded(s, r), m, n))
  {
    RecordedPlaces(s, r, k, l);
    RecordedPlaces(s, r, m, n);
    RecordedPlaced(s, r, k, l);
    RecordedPlaced(s, r, m, n);
  }

  lemma RecordedLayout(s: State, r: Request)
    requires Layout(s) && Layout(Ensured(s, r.strategy))
    ensures Layout(Recorded(s, r))
  {
    var t := Recorded(s, r);
    forall k, l | At(t, k, l)
      ensures Placed(t, t.portfolios[k].strategy, BracketAt(t, k, l))
    {
      RecordedPlaced(s, r, k, l);
    }
    forall k, l, m, n | At(t, k, l) && At(t, m, n) && (k != m || l != n)
      ensures Apart(BracketAt(t, k, l), BracketAt(t, m, n))
    {
      RecordedApart(s, r, k, l, m, n);
    }
  }

  lemma RecordedSound(s: State, r: Request)
    requires Sound(s)
    ensures Sound(Recorded(s, r)) && Recorded(s, r).fills == s.fills
  {
    EnsuredSound(s, r.strategy);
    RecordedLayout(s, r);
    NewIdUnused(s);
    var u, t, b := Ensured(s, r.strategy), Recorded(s, r), NewBracket(s.lastId, r);
    var i := PortfolioIndex(u.portfolios, r.strategy);
    NewBracketUntouched(u, r);
    UntouchedLedger(s.cfg.commission, KeyOf(b), s.fills);
    forall k, l | At(t, k, l)
      ensures Conserved(t.cfg.commission, BracketAt(t, k, l), t.fills)
    {
      RecordedPlaces(s, r, k, l);
    }
    TotalCarryAppend(s.cfg.commission, u.portfolios[i].brackets, b, s.fills);
    assert t.portfolios[i].brackets == u.portfolios[i].brackets + [b];
  }

  /** An effect keeps a bracket's history, and balances what it executes. */
  ghost predicate SoundEffect(m: CommissionModel, b: Bracket, e: Effect, fs: seq<Fill>)
  {
    SameIdentity(b, e.bracket) && Conserved(m, e.bracket, fs) && Carry(m, e.bracket, fs) == Carry(m, b, fs) &&
    (e.booking.Some? ==>
      var bk := e.booking.value;
      SameIdentity(e.bracket, bk.bracket) && Owns(b.orders, bk.fill) && Balanced(m, e.bracket, bk, fs))
  }

  lemma ApplySound(s: State, i: nat, j: nat, e: Effect)
    requires Sound(s) && At(s, i, j) && SoundEffect(s.cfg.commission, BracketAt(s, i, j), e, s.fills)
    ensures Sound(Apply(s, i, j, e))
  {
    SetBracketSound(s, i, j, e.bracket);
    if e.booking.Some? {
      PostSound(SetBracket(s, i, j, e.bracket), i, j, e.booking.value);
    }
  }

  lemma PlaceEffectSound(cfg: Config, marks: map<Ticker, Mark>, b: Bracket, fs: seq<Fill>)
    requires b.status == Pending && Conserved(cfg.commission, b, fs)
    ensures SoundEffect(cfg.commission, b, PlaceEffect(cfg, marks, b), fs)
  {
    if b.entry == MarketEntry && b.ticker in marks {
      EnterBalanced(cfg, b, marks[b.ticker].quote, marks[b.ticker].ts, fs);
    }
  }

  lemma ModifyEffectSound(cfg: Config, marks: map<Ticker, Mark>, b: Bracket, m: Modification, fs: seq<Fill>)
    requires Conserved(cfg.commission, b, fs)
    ensures SoundEffect(cfg.commission, b, ModifyEffect(cfg, marks, b, m), fs)
  {
    var e := ModifyEffect(cfg, marks, b, m);
    assert KeyOf(e.bracket) == KeyOf(b);
    if e.booking.Some? {
      var mk := marks[b.ticker];
      ExitPartBalanced(cfg, e.bracket, b.qty - m.newQty.value, mk.quote, mk.ts, fs);
    }
  }

  lemma CancelEffectSound(cfg: Config, marks: map<Ticker, Mark>, b: Bracket, fs: seq<Fill>)
    requires Conserved(cfg.commission, b, fs)
    ensures SoundEffect(cfg.commission, b, CancelEffect(cfg, marks, b), fs)
  {
    var e := CancelEffect(cfg, marks, b);
    assert KeyOf(e.bracket) == KeyOf(b);
    if e.booking.Some? {
      var mk := marks[b.ticker];
      ExitAllBalanced(cfg, b, Some(b.orders.parent), mk.quote, mk.ts, fs);
    }
  }

  lemma PlacedSound(t: State, i: nat, j: nat)
    requires Sound(t) && At(t, i, j) && BracketAt(t, i, j).status == Pending
    ensures Sound(Apply(t, i, j, PlaceEffect(t.cfg, t.marks, BracketAt(t, i, j))))
  {
    PlaceEffectSound(t.cfg, t.marks, BracketAt(t, i, j), t.fills);
    ApplySound(t, i, j, PlaceEffect(t.cfg, t.marks, BracketAt(t, i, j)));
  }

  /** Placing keeps what recording keeps and the effect on a pending bracket keeps. */
  lemma PlaceKeeps(keeps: State -> bool, s: State, r: Request)
    requires r.rung != LIVE && keeps(Recorded(s, r))
    requires forall t: State, i: nat, j: nat ::
      keeps(t) && At(t, i, j) && BracketAt(t, i, j).status == Pending ==>
        keeps(Apply(t, i, j, PlaceEffect(t.cfg, t.marks, BracketAt(t, i, j))))
    ensures keeps(Place(s, r).0)
  {
    RecordedAtEnd(s, r);
    var t := Recorded(s, r);
    var i := PortfolioIndex(t.portfolios, r.strategy);
    assert At(t, i, |t.portfolios[i].brackets| - 1);
  }

  lemma PlaceSound(s: State, r: Request)
    requires Sound(s)
    ensures Sound(Place(s, r).0)
  {
    if r.rung != LIVE {
      RecordedSound(s, r);
      forall t: State, i: nat, j: nat | Sound(t) && At(t, i, j) && BracketAt(t, i, j).status == Pending
        ensures Sound(Apply(t, i, j, PlaceEffect(t.cfg, t.marks, BracketAt(t, i, j)))) {
        PlacedSound(t, i, j);
      }
      PlaceKeeps(t => Sound(t), s, r);
    }
  }

  lemma ModifySound(s: State, m: Modification)
    requires Sound(s)
    ensures Sound(Modify(s, m).0)
  {
    var at := Lookup(s, m.id);
    if at.Some? {
      var (i, j) := at.value;
      ModifyEffectSound(s.cfg, s.marks, BracketAt(s, i, j), m, s.fills);
      ApplySound(s, i, j, ModifyEffect(s.cfg, s.marks, BracketAt(s, i, j), m));
    }
  }

  lemma CancelSound(s: State, id: nat)
    requires Sound(s)
    ensures Sound(Cancel(s, id).0)
  {
    var at := Lookup(s, id);
    if at.Some? {
      var (i, j) := at.value;
      CancelEffectSound(s.cfg, s.marks, BracketAt(s, i, j), s.fills);
      ApplySound(s, i, j, CancelEffect(s.cfg, s.marks, BracketAt(s, i, j)));
    }
  }

  lemma ResetSound(s: State, x: StrategyId)
    requires Sound(s)
    ensures Sound(Reset(s, x))
  {
    EnsuredSound(s, x);
    var u, t := Ensured(s, x), Reset(s, x);
    ResetPlaces(s, x);
    SameBracketsLayout(u, t);
    assert CashExplained(t);
  }

  lemma ResetPlaces(s: State, x: StrategyId)
    ensures var u, t := Ensured(s, x), Reset(s, x);
      forall i, j :: At(t, i, j) ==> At(u, i, j) && BracketAt(t, i, j) == BracketAt(u, i, j)
  {
  }

  /** Resets, drains and reads add no bracket and change none. */
  lemma RestPlaces(s: State, c: Command)
    requires c.ResetPortfolio? || c.DrainClosed? || c.ReadPortfolio?
    ensures Step(s, c).marks == s.marks
    ensures forall i, j :: At(Step(s, c), i, j) ==> At(s, i, j) && BracketAt(Step(s, c), i, j) == BracketAt(s, i, j)
  {
    match c
    case ResetPortfolio(x) =>
      EnsuredPlaces(s, x);
      ResetPlaces(s, x);
    case DrainClosed(x) =>
    case ReadPortfolio(x) => EnsuredPlaces(s, x);
  }

  lemma BarSound(s: State, bar: Candle)
    requires Sound(s) && Accepted(OnBar(s, bar))
    ensures Sound(OnBar(s, bar))
  {
    var quote := Synthesize(bar.close, s.cfg.spreadBps);
    var marked := s.(marks := s.marks[bar.ticker := Mark(quote, bar.ts)]);
    var entries := Entries(bar.ticker, quote, bar.ts, Some(bar));
    var filled := Sweep(marked, entries, 0, 0);
    SetMarkSound(s, bar.ticker, Mark(quote, bar.ts));
    SweepFrame(filled, Exits(bar), 0, 0);
    AcceptedPrefix(filled, OnBar(s, bar));
    SweepSound(marked, entries, 0, 0);
    SweepSound(filled, Exits(bar), 0, 0);
  }

  lemma StepSound(s: State, c: Command)
    requires Sound(s) && Accepted(Step(s, c))
    ensures Sound(Step(s, c))
  {
    match c
    case Bar(bar) => BarSound(s, bar);
    case Tick(q) =>
      if Book(q).Some? {
        var book := Book(q).value;
        SetMarkSound(s, q.ticker, Mark(book, q.ts));
        SweepSound(s.(marks := s.marks[q.ticker := Mark(book, q.ts)]), Entries(q.ticker, book, q.ts, None), 0, 0);
      }
    case PlaceBracket(r) => PlaceSound(s, r);
    case ModifyBracket(m) => ModifySound(s, m);
    case CancelBracket(id) => CancelSound(s, id);
    case ResetPortfolio(x) => ResetSound(s, x);
    case DrainClosed(x) => DrainSound(s, x);
    case ReadPortfolio(x) => EnsuredSound(s, x);
  }

  lemma DrainSound(s: State, x: Option<StrategyId>)
    requires Sound(s)
    ensures Sound(Drain(s, x).0)
  {
    var t := Drain(s, x).0;
    forall i, j | At(t, i, j)
      ensures At(s, i, j) && BracketAt(t, i, j) == BracketAt(s, i, j)
    {
      assert At(s, i, j);
    }
  }

  /**
   Every reachable state is sound: shares are conserved in every bracket, and in
   every portfolio cash equals starting cash plus realized P&L plus what open
   positions tie up plus the commission gap, to the cent.
   */
  lemma {:induction false} RunSound(cfg: Config, cs: seq<Command>)
    requires Accepted(Run(cfg, cs))
    ensures Sound(Run(cfg, cs)) && Run(cfg, cs).cfg == cfg
  {
    if |cs| > 0 {
      var before := Run(cfg, cs[..|cs| - 1]);
      StepGrows(before, cs[|cs| - 1]);
      AcceptedPrefix(before, Run(cfg, cs));
      RunSound(cfg, cs[..|cs| - 1]);
      StepSound(before, cs[|cs| - 1]);
    }
  }
}
