/** What every run of the SIM exchange keeps, the runs that throw included. */
module SimAlways {
  import opened Market
  import opened Money
  import opened SimModel
  import opened SimLedger
  import opened SimRuns
  import opened SimLifecycle
  import opened SimActual
  import opened SimIsolation

  // ---- Ids and owners ---------------------------------------------------------------------

  /** The fill records have no part in where brackets live. */
  lemma FillsHomes(s: State, fs: seq<Fill>)
    requires Homes(s)
    ensures Homes(s.(fills := fs))
  {
    var t := s.(fills := fs);
    forall k, l | At(t, k, l) ensures At(s, k, l) && BracketAt(t, k, l) == BracketAt(s, k, l) {
      assert At(s, k, l);
    }
    QuietHomes(s, t);
  }

  lemma VisitHomes(s: State, pass: Pass, i: nat, j: nat)
    requires Homes(s) && At(s, i, j)
    ensures Homes(VisitOrThrow(s, pass, i, j).state)
  {
    VisitView(s, pass, i, j, "");
    VisitBooks(s, pass, i, j);
    FillsHomes(VisitAt(s, pass, i, j), VisitOrThrow(s, pass, i, j).state.fills);
  }

  lemma StepOrThrowHomes(s: State, c: Command)
    requires Homes(s)
    ensures Homes(StepOrThrow(s, c).state)
  {
    if c.Bar? || c.Tick? {
      forall t: State, ticker: Ticker, mk: Mark | Homes(t) ensures Homes(Marked(t, ticker, mk)) {
        SetMarkHomes(t, ticker, mk, "");
      }
      forall t: State, pass: Pass, k: nat, l: nat | At(t, k, l) && Homes(t)
        ensures Homes(VisitOrThrow(t, pass, k, l).state) {
        VisitHomes(t, pass, k, l);
      }
      MarketKeeps(t => Homes(t), s, c);
    } else {
      StepHomes(s, c);
      CallBooks(s, c);
      FillsHomes(Step(s, c), StepOrThrow(s, c).state.fills);
    }
  }

  lemma {:induction false} RunHomes(cfg: Config, cs: seq<Command>)
    ensures Homes(RunOrThrow(cfg, cs).state)
  {
    if |cs| > 0 {
      RunHomes(cfg, cs[..|cs| - 1]);
      StepOrThrowHomes(RunOrThrow(cfg, cs[..|cs| - 1]).state, cs[|cs| - 1]);
    }
  }

  lemma HomesApart(s: State, i: nat, j: nat, k: nat, l: nat)
    requires Homes(s) && At(s, i, j) && At(s, k, l) && BracketAt(s, i, j).id == BracketAt(s, k, l).id
    ensures i == k && j == l
  {
    assert AtHome(s, s.portfolios[i].strategy, BracketAt(s, i, j));
    assert AtHome(s, s.portfolios[k].strategy, BracketAt(s, k, l));
  }

  lemma OthersIds(s: State, i: nat, j: nat, k: nat, l: nat)
    requires Homes(s) && At(s, i, j) && At(s, k, l) && (k != i || l != j)
    ensures BracketAt(s, k, l).id != BracketAt(s, i, j).id
  {
    assert AtHome(s, s.portfolios[i].strategy, BracketAt(s, i, j));
    assert AtHome(s, s.portfolios[k].strategy, BracketAt(s, k, l));
  }

  /** Every bracket in a portfolio is found, in its own place, under its id. */
  lemma LookupExact(cfg: Config, cs: seq<Command>, i: nat, j: nat)
    requires At(RunOrThrow(cfg, cs).state, i, j)
    ensures var s := RunOrThrow(cfg, cs).state; Lookup(s, BracketAt(s, i, j).id) == Some((i, j))
  {
    RunHomes(cfg, cs);
    HomeLookup(RunOrThrow(cfg, cs).state, i, j);
  }

  // ---- One way only --------------------------------------------------------------------------

  lemma AdvancesOn(a: Bracket, b: Bracket, c: Bracket)
    requires Advances(a, b) && Advances(b, c)
    ensures Advances(a, c)
  {
  }

  /** A pass, thrown or not, leaves every bracket as it was or moves it onward. */
  lemma SweepOrigin(s: State, pass: Pass, k: nat, l: nat)
    requires At(SweepOrThrow(s, pass, 0, 0).state, k, l)
    ensures At(s, k, l) && Advances(BracketAt(s, k, l), BracketAt(SweepOrThrow(s, pass, 0, 0).state, k, l))
  {
    SweepPlaces(s, pass, 0, 0, k, l);
    VisitAdvances(s.cfg, pass, BracketAt(s, k, l));
  }

  lemma BarOrigin(s: State, bar: Candle, k: nat, l: nat)
    requires At(BarOrThrow(s, bar).state, k, l)
    ensures At(s, k, l) && Advances(BracketAt(s, k, l), BracketAt(BarOrThrow(s, bar).state, k, l))
  {
    var marked := Marked(s, bar.ticker, Mark(Synthesize(bar.close, s.cfg.spreadBps), bar.ts));
    var filled := SweepOrThrow(marked, EntriesOf(s, bar), 0, 0);
    if !filled.threw {
      SweepOrigin(filled.state, Exits(bar), k, l);
    }
    SweepOrigin(marked, EntriesOf(s, bar), k, l);
    if !filled.threw {
      AdvancesOn(BracketAt(s, k, l), BracketAt(filled.state, k, l), BracketAt(BarOrThrow(s, bar).state, k, l));
    }
  }

  lemma QuoteOrigin(s: State, q: Quote, k: nat, l: nat)
    requires At(QuoteOrThrow(s, q).state, k, l)
    ensures At(s, k, l) && Advances(BracketAt(s, k, l), BracketAt(QuoteOrThrow(s, q).state, k, l))
  {
    if Book(q).Some? {
      SweepOrigin(Marked(s, q.ticker, Mark(Book(q).value, q.ts)), Entries(q.ticker, Book(q).value, q.ts, None), k, l);
    }
  }

  /** Where each bracket of the next state comes from. */
  lemma StepOrThrowOrigin(s: State, c: Command, k: nat, l: nat)
    requires At(StepOrThrow(s, c).state, k, l)
    ensures var b := BracketAt(StepOrThrow(s, c).state, k, l);
      if At(s, k, l) then Advances(BracketAt(s, k, l), b) else b.id > s.lastId
  {
    if c.Bar? {
      BarOrigin(s, c.bar, k, l);
    } else if c.Tick? {
      QuoteOrigin(s, c.quote, k, l);
    } else {
      CallBooks(s, c);
      assert At(Step(s, c), k, l);
      StepOrigin(s, c, k, l);
    }
  }

  lemma StepOrThrowIds(s: State, c: Command)
    ensures s.lastId <= StepOrThrow(s, c).state.lastId
  {
    if c.Bar? || c.Tick? {
      var n := s.lastId;
      MarketKeeps((t: State) => n <= t.lastId, s, c);
    } else {
      CallBooks(s, c);
      LastIdGrows(s, c);
    }
  }

  lemma {:induction false} IdsStayBelow(cfg: Config, cs: seq<Command>, n: nat)
    requires n <= |cs|
    ensures RunOrThrow(cfg, cs[..n]).state.lastId <= RunOrThrow(cfg, cs).state.lastId
  {
    if n == |cs| {
      assert cs[..n] == cs;
    } else {
      var ds := cs[..|cs| - 1];
      assert ds[..n] == cs[..n];
      IdsStayBelow(cfg, ds, n);
      StepOrThrowIds(RunOrThrow(cfg, ds).state, cs[|cs| - 1]);
    }
  }

  /** Brackets that share an id share their past. */
  ghost predicate Later(s: State, t: State)
  {
    forall i: nat, j: nat, k: nat, l: nat ::
      At(s, i, j) && At(t, k, l) && BracketAt(s, i, j).id == BracketAt(t, k, l).id ==>
        Advances(BracketAt(s, i, j), BracketAt(t, k, l))
  }

  lemma LaterSelf(s: State)
    requires Homes(s)
    ensures Later(s, s)
  {
    forall i: nat, j: nat, k: nat, l: nat |
        At(s, i, j) && At(s, k, l) && BracketAt(s, i, j).id == BracketAt(s, k, l).id
      ensures Advances(BracketAt(s, i, j), BracketAt(s, k, l))
    {
      HomesApart(s, i, j, k, l);
    }
  }

  lemma LaterStep(s: State, t: State, c: Command)
    requires Homes(s) && Homes(t) && Later(s, t) && s.lastId <= t.lastId
    ensures Later(s, StepOrThrow(t, c).state)
  {
    var u := StepOrThrow(t, c).state;
    forall i: nat, j: nat, k: nat, l: nat |
        At(s, i, j) && At(u, k, l) && BracketAt(s, i, j).id == BracketAt(u, k, l).id
      ensures Advances(BracketAt(s, i, j), BracketAt(u, k, l))
    {
      assert AtHome(s, s.portfolios[i].strategy, BracketAt(s, i, j));
      StepOrThrowOrigin(t, c, k, l);
      assert At(t, k, l);
      AdvancesOn(BracketAt(s, i, j), BracketAt(t, k, l), BracketAt(u, k, l));
    }
  }

  /**
   Between any two points of any run, throws included, a bracket only moves onward:
   pending to open to closed, or pending to cancelled; once closed or cancelled it never
   changes again.
   */
  lemma {:induction false} OneWay(cfg: Config, cs: seq<Command>, n: nat)
    requires n <= |cs|
    ensures Later(RunOrThrow(cfg, cs[..n]).state, RunOrThrow(cfg, cs).state)
  {
    RunHomes(cfg, cs[..n]);
    if n == |cs| {
      assert cs[..n] == cs;
      LaterSelf(RunOrThrow(cfg, cs).state);
    } else {
      var ds := cs[..|cs| - 1];
      assert ds[..n] == cs[..n];
      OneWay(cfg, ds, n);
      RunHomes(cfg, ds);
      IdsStayBelow(cfg, ds, n);
      LaterStep(RunOrThrow(cfg, cs[..n]).state, RunOrThrow(cfg, ds).state, cs[|cs| - 1]);
    }
  }

  // ---- The books are sound exactly until something throws -------------------------------------------

  lemma EnterUnrecorded(cfg: Config, b: Bracket, quote: BidAsk, ts: int, fs: seq<Fill>)
    requires b.status == Pending && Conserved(cfg.commission, b, fs)
    ensures !Conserved(cfg.commission, Enter(cfg, b, quote, ts).bracket, fs)
  {
    UntouchedLedger(cfg.commission, KeyOf(Enter(cfg, b, quote, ts).bracket), fs);
  }

  lemma ExitUnrecorded(cfg: Config, b: Bracket, order: Option<nat>, qty: Shares, quote: BidAsk, ts: int, fs: seq<Fill>)
    requires b.status == Open && Conserved(cfg.commission, b, fs)
    ensures !Conserved(cfg.commission, ExitAll(cfg, b, order, quote, ts).bracket, fs)
    ensures qty < b.qty ==> !Conserved(cfg.commission, ExitPart(cfg, b, qty, quote, ts).bracket, fs)
  {
    assert KeyOf(ExitAll(cfg, b, order, quote, ts).bracket) == KeyOf(b);
    assert qty < b.qty ==> KeyOf(ExitPart(cfg, b, qty, quote, ts).bracket) == KeyOf(b);
  }

  /** A booking whose fill is not recorded leaves a bracket its fills do not account for. */
  lemma VisitUnrecorded(cfg: Config, pass: Pass, b: Bracket, fs: seq<Fill>)
    requires Conserved(cfg.commission, b, fs) && Visit(cfg, pass, b).Some?
    ensures !Conserved(cfg.commission, Visit(cfg, pass, b).value.bracket, fs)
  {
    match pass
    case Entries(ticker, quote, ts, bar) => EnterUnrecorded(cfg, b, quote, ts, fs);
    case Exits(bar) =>
      var t := DetectExit(b, bar).value;
      var order := if t.leg == StopLeg then Some(b.orders.stop) else b.orders.target;
      ExitUnrecorded(cfg, b, order, b.qty, Synthesize(t.reference, cfg.spreadBps), bar.ts, fs);
  }

  ghost predicate UnrecordedEffect(m: CommissionModel, e: Effect, fs: seq<Fill>)
  {
    e.booking.Some? ==> !Conserved(m, e.booking.value.bracket, fs)
  }

  lemma EffectsUnrecorded(cfg: Config, marks: map<Ticker, Mark>, b: Bracket, m: Modification, fs: seq<Fill>)
    requires Conserved(cfg.commission, b, fs)
    ensures UnrecordedEffect(cfg.commission, ModifyEffect(cfg, marks, b, m), fs)
    ensures UnrecordedEffect(cfg.commission, CancelEffect(cfg, marks, b), fs)
    ensures b.status == Pending ==> UnrecordedEffect(cfg.commission, PlaceEffect(cfg, marks, b), fs)
  {
    ModifyEffectSound(cfg, marks, b, m, fs);
    var e := ModifyEffect(cfg, marks, b, m);
    if e.booking.Some? {
      ExitUnrecorded(cfg, e.bracket, None, b.qty - m.newQty.value, marks[b.ticker].quote, marks[b.ticker].ts, fs);
    }
    if b.ticker in marks {
      var mk := marks[b.ticker];
      if b.status == Open {
        ExitUnrecorded(cfg, b, Some(b.orders.parent), b.qty, mk.quote, mk.ts, fs);
      } else if b.status == Pending {
        EnterUnrecorded(cfg, b, mk.quote, mk.ts, fs);
      }
    }
  }

  lemma ThrownUnsound(s: State, i: nat, j: nat, bk: Booking)
    requires At(s, i, j) && PostOrThrow(s, i, j, bk).threw && !Conserved(s.cfg.commission, bk.bracket, s.fills)
    ensures !Sound(PostOrThrow(s, i, j, bk).state)
  {
    var t := PostOrThrow(s, i, j, bk).state;
    assert At(t, i, j) && BracketAt(t, i, j) == bk.bracket;
  }

  lemma {:induction false} SweepThrowsUnsound(s: State, pass: Pass, i: nat, j: nat)
    requires Sound(s) && Accepted(s) && SweepOrThrow(s, pass, i, j).threw
    ensures !Sound(SweepOrThrow(s, pass, i, j).state)
    decreases |s.portfolios| - i, if i < |s.portfolios| then |s.portfolios[i].brackets| - j else 0
  {
    if j >= |s.portfolios[i].brackets| {
      SweepThrowsUnsound(s, pass, i + 1, 0);
    } else if VisitOrThrow(s, pass, i, j).threw {
      VisitThrowsUnsound(s, pass, i, j);
    } else {
      VisitAgrees(s, pass, i, j);
      VisitSound(s, pass, i, j);
      SweepThrowsUnsound(VisitAt(s, pass, i, j), pass, i, j + 1);
    }
  }

  lemma VisitThrowsUnsound(s: State, pass: Pass, i: nat, j: nat)
    requires Sound(s) && At(s, i, j) && VisitOrThrow(s, pass, i, j).threw
    ensures !Sound(VisitOrThrow(s, pass, i, j).state)
  {
    var b := BracketAt(s, i, j);
    assert Conserved(s.cfg.commission, b, s.fills);
    VisitUnrecorded(s.cfg, pass, b, s.fills);
    ThrownUnsound(s, i, j, Visit(s.cfg, pass, b).value);
  }

  lemma BarThrowsUnsound(s: State, bar: Candle)
    requires Sound(s) && Accepted(s) && BarOrThrow(s, bar).threw
    ensures !Sound(BarOrThrow(s, bar).state)
  {
    var mk := Mark(Synthesize(bar.close, s.cfg.spreadBps), bar.ts);
    var marked, entries := Marked(s, bar.ticker, mk), EntriesOf(s, bar);
    SetMarkSound(s, bar.ticker, mk);
    if SweepOrThrow(marked, entries, 0, 0).threw {
      SweepThrowsUnsound(marked, entries, 0, 0);
    } else {
      SweepAgrees(marked, entries, 0, 0);
      SweepSound(marked, entries, 0, 0);
      SweepThrowsUnsound(Sweep(marked, entries, 0, 0), Exits(bar), 0, 0);
    }
  }

  lemma QuoteThrowsUnsound(s: State, q: Quote)
    requires Sound(s) && Accepted(s) && QuoteOrThrow(s, q).threw
    ensures !Sound(QuoteOrThrow(s, q).state)
  {
    var mk := Mark(Book(q).value, q.ts);
    SetMarkSound(s, q.ticker, mk);
    SweepThrowsUnsound(Marked(s, q.ticker, mk), Entries(q.ticker, Book(q).value, q.ts, None), 0, 0);
  }

  lemma ApplyThrowsUnsound(s: State, i: nat, j: nat, e: Effect)
    requires At(s, i, j) && ApplyOrThrow(s, i, j, e).threw && UnrecordedEffect(s.cfg.commission, e, s.fills)
    ensures !Sound(ApplyOrThrow(s, i, j, e).state)
  {
    ThrownUnsound(SetBracket(s, i, j, e.bracket), i, j, e.booking.value);
  }

  lemma PlacedThrowsUnsound(t: State, i: nat, j: nat)
    requires Sound(t) && At(t, i, j) && BracketAt(t, i, j).status == Pending
    requires ApplyOrThrow(t, i, j, PlaceEffect(t.cfg, t.marks, BracketAt(t, i, j))).threw
    ensures !Sound(ApplyOrThrow(t, i, j, PlaceEffect(t.cfg, t.marks, BracketAt(t, i, j))).state)
  {
    EffectsUnrecorded(t.cfg, t.marks, BracketAt(t, i, j), Modification(0, None, None, None), t.fills);
    ApplyThrowsUnsound(t, i, j, PlaceEffect(t.cfg, t.marks, BracketAt(t, i, j)));
  }

  lemma PlaceThrowsUnsound(s: State, r: Request)
    requires Sound(s) && PlaceOrThrow(s, r).1 == Refused
    ensures !Sound(PlaceOrThrow(s, r).0)
  {
    RecordedSound(s, r);
    forall t: State, i: nat, j: nat | Sound(t) && At(t, i, j) && BracketAt(t, i, j).status == Pending
      ensures Unthrown(ApplyOrThrow(t, i, j, PlaceEffect(t.cfg, t.marks, BracketAt(t, i, j)))) {
      if ApplyOrThrow(t, i, j, PlaceEffect(t.cfg, t.marks, BracketAt(t, i, j))).threw {
        PlacedThrowsUnsound(t, i, j);
      }
    }
    PlaceEnds(t => Sound(t), u => Unthrown(u), s, r);
  }

  ghost predicate Unthrown(r: Result)
  {
    r.threw ==> !Sound(r.state)
  }

  lemma ModifyThrowsUnsound(s: State, m: Modification)
    requires Sound(s) && ModifyOrThrow(s, m).1 == Refused
    ensures !Sound(ModifyOrThrow(s, m).0)
  {
    var (i, j) := Lookup(s, m.id).value;
    EffectsUnrecorded(s.cfg, s.marks, BracketAt(s, i, j), m, s.fills);
    ApplyThrowsUnsound(s, i, j, ModifyEffect(s.cfg, s.marks, BracketAt(s, i, j), m));
  }

  lemma CancelThrowsUnsound(s: State, id: nat)
    requires Sound(s) && CancelOrThrow(s, id).1 == Refused
    ensures !Sound(CancelOrThrow(s, id).0)
  {
    var (i, j) := Lookup(s, id).value;
    EffectsUnrecorded(s.cfg, s.marks, BracketAt(s, i, j), Modification(0, None, None, None), s.fills);
    ApplyThrowsUnsound(s, i, j, CancelEffect(s.cfg, s.marks, BracketAt(s, i, j)));
  }

  /** From sound books, an operation leaves sound books exactly when it does not throw. */
  lemma StepSoundExactly(s: State, c: Command)
    requires Sound(s) && Accepted(s)
    ensures Sound(StepOrThrow(s, c).state) <==> !StepOrThrow(s, c).threw
  {
    if !StepOrThrow(s, c).threw {
      StepAgrees(s, c);
      StepSound(s, c);
    } else {
      match c
      case Bar(bar) => BarThrowsUnsound(s, bar);
      case Tick(q) => QuoteThrowsUnsound(s, q);
      case PlaceBracket(r) => PlaceThrowsUnsound(s, r);
      case ModifyBracket(m) => ModifyThrowsUnsound(s, m);
      case CancelBracket(id) => CancelThrowsUnsound(s, id);
    }
  }

  /** The books of a run are sound all along exactly when it throws nowhere. */
  ghost predicate SoundAllAlong(cfg: Config, cs: seq<Command>)
  {
    forall n :: 0 <= n <= |cs| ==> Sound(RunOrThrow(cfg, cs[..n]).state)
  }

  lemma {:induction false} RunSoundExactly(cfg: Config, cs: seq<Command>)
    ensures SoundAllAlong(cfg, cs) <==> !RunOrThrow(cfg, cs).threw
  {
    if |cs| == 0 {
      assert forall n :: 0 <= n <= |cs| ==> cs[..n] == cs;
    } else {
      var ds := cs[..|cs| - 1];
      RunSoundExactly(cfg, ds);
      RecordsAccepted(cfg, ds);
      AllAlongOn(cfg, cs);
      assert ds[..|ds|] == ds;
      if SoundAllAlong(cfg, ds) {
        StepSoundExactly(RunOrThrow(cfg, ds).state, cs[|cs| - 1]);
      }
    }
  }

  lemma AllAlongOn(cfg: Config, cs: seq<Command>)
    requires |cs| > 0
    ensures SoundAllAlong(cfg, cs) <==> SoundAllAlong(cfg, cs[..|cs| - 1]) && Sound(RunOrThrow(cfg, cs).state)
  {
    var ds := cs[..|cs| - 1];
    assert forall n :: 0 <= n <= |ds| ==> ds[..n] == cs[..n];
    assert cs[..|cs|] == cs;
    if SoundAllAlong(cfg, cs) {
      forall n | 0 <= n <= |ds| ensures Sound(RunOrThrow(cfg, ds[..n]).state) {
        assert Sound(RunOrThrow(cfg, cs[..n]).state);
      }
    }
    if SoundAllAlong(cfg, ds) && Sound(RunOrThrow(cfg, cs).state) {
      forall n | 0 <= n <= |cs| ensures Sound(RunOrThrow(cfg, cs[..n]).state) {
        if n < |cs| {
          assert Sound(RunOrThrow(cfg, ds[..n]).state);
        }
      }
    }
  }
}
