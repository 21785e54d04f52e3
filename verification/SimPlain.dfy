/** Runs that scale nothing out: every bracket leaves in one piece, and the books are exact. */
module SimPlain {
  import opened Market
  import opened Money
  import opened SimModel
  import opened SimLedger
  import opened SimRuns
  import opened SimAccounting
  import opened SimActual
  import opened SimTotals

  // ---- What runs without scale-outs keep ---------------------------------------------------

  /** A bracket leaves in one piece. */
  ghost predicate OnePiece(m: CommissionModel, b: Bracket, fs: seq<Fill>)
  {
    var l := LedgerOf(m, KeyOf(b), fs);
    (b.status == Open ==> l.exits == 0) && (b.status == Closed ==> l.exits == 1)
  }

  ghost predicate AllOnePiece(s: State)
  {
    forall i, j :: At(s, i, j) ==> OnePiece(s.cfg.commission, BracketAt(s, i, j), s.fills)
  }

  ghost predicate Whole(s: State)
  {
    Sound(s) && AllOnePiece(s) && Accepted(s)
  }

  lemma PostOnePiece(s: State, i: nat, j: nat, bk: Booking)
    requires Layout(s) && AllOnePiece(s) && At(s, i, j) && SameIdentity(BracketAt(s, i, j), bk.bracket)
    requires Owns(bk.bracket.orders, bk.fill) && OnePiece(s.cfg.commission, bk.bracket, s.fills + [bk.fill])
    ensures AllOnePiece(Post(s, i, j, bk))
  {
    var t := Post(s, i, j, bk);
    forall k, l | At(t, k, l)
      ensures OnePiece(t.cfg.commission, BracketAt(t, k, l), t.fills)
    {
      assert At(s, k, l);
      if k != i || l != j {
        OthersFillUnowned(s, i, j, k, l, bk.fill);
        UnownedFillKeeps(t.cfg.commission, BracketAt(s, k, l), s.fills, bk.fill);
      }
    }
  }

  /** Entering and leaving in full keep a bracket whole. */
  ghost predicate WholeBooking(m: CommissionModel, b: Bracket, bk: Booking, fs: seq<Fill>)
  {
    SameIdentity(b, bk.bracket) && Owns(bk.bracket.orders, bk.fill) && Balanced(m, b, bk, fs) &&
    OnePiece(m, bk.bracket, fs + [bk.fill])
  }

  lemma PostWhole(s: State, i: nat, j: nat, bk: Booking)
    requires Whole(s) && At(s, i, j) && ValidFill(bk.fill)
    requires WholeBooking(s.cfg.commission, BracketAt(s, i, j), bk, s.fills)
    ensures Whole(Post(s, i, j, bk))
  {
    PostSound(s, i, j, bk);
    PostOnePiece(s, i, j, bk);
    PostAgrees(s, i, j, bk);
  }

  lemma EnterWhole(cfg: Config, b: Bracket, quote: BidAsk, ts: int, fs: seq<Fill>)
    requires b.status == Pending && Conserved(cfg.commission, b, fs)
    ensures WholeBooking(cfg.commission, b, Enter(cfg, b, quote, ts), fs)
  {
    var bk := Enter(cfg, b, quote, ts);
    EnterBalanced(cfg, b, quote, ts, fs);
    UntouchedLedger(cfg.commission, KeyOf(bk.bracket), fs);
    LedgerAppend(cfg.commission, KeyOf(bk.bracket), fs, bk.fill);
  }

  lemma ExitAllWhole(cfg: Config, b: Bracket, order: Option<nat>, quote: BidAsk, ts: int, fs: seq<Fill>)
    requires b.status == Open && Conserved(cfg.commission, b, fs) && OnePiece(cfg.commission, b, fs)
    requires order == Some(b.orders.parent) || order == Some(b.orders.stop) || (order.Some? && order == b.orders.target)
    ensures WholeBooking(cfg.commission, b, ExitAll(cfg, b, order, quote, ts), fs)
  {
    var bk := ExitAll(cfg, b, order, quote, ts);
    ExitAllBalanced(cfg, b, order, quote, ts, fs);
    LedgerAppend(cfg.commission, KeyOf(b), fs, bk.fill);
  }

  /** An accepted visit's booking. */
  lemma VisitBooking(cfg: Config, pass: Pass, b: Bracket, fs: seq<Fill>)
    requires Conserved(cfg.commission, b, fs) && OnePiece(cfg.commission, b, fs)
    requires Visit(cfg, pass, b).Some? && ValidFill(Visit(cfg, pass, b).value.fill)
    ensures WholeBooking(cfg.commission, b, Visit(cfg, pass, b).value, fs)
  {
    match pass
    case Entries(ticker, quote, ts, bar) => EnterWhole(cfg, b, quote, ts, fs);
    case Exits(bar) =>
      var t := DetectExit(b, bar).value;
      ExitAllWhole(cfg, b, if t.leg == StopLeg then Some(b.orders.stop) else b.orders.target,
                   Synthesize(t.reference, cfg.spreadBps), bar.ts, fs);
  }

  lemma VisitWhole(s: State, pass: Pass, i: nat, j: nat)
    requires Whole(s) && At(s, i, j) && !VisitOrThrow(s, pass, i, j).threw
    ensures Whole(VisitOrThrow(s, pass, i, j).state)
  {
    var b := BracketAt(s, i, j);
    if Visit(s.cfg, pass, b).Some? {
      VisitBooking(s.cfg, pass, b, s.fills);
      PostWhole(s, i, j, Visit(s.cfg, pass, b).value);
    }
  }

  /** Changing a bracket without booking anything. */
  lemma SetWhole(s: State, i: nat, j: nat, b: Bracket)
    requires AllOnePiece(s) && At(s, i, j) && KeyOf(b) == KeyOf(BracketAt(s, i, j))
    requires b.status == BracketAt(s, i, j).status || b.status == Cancelled
    ensures AllOnePiece(SetBracket(s, i, j, b))
  {
    var t := SetBracket(s, i, j, b);
    forall k, l | At(t, k, l)
      ensures OnePiece(t.cfg.commission, BracketAt(t, k, l), t.fills)
    {
      assert At(s, k, l);
      assert k != i || l != j ==> BracketAt(t, k, l) == BracketAt(s, k, l);
    }
  }

  lemma ApplyWhole(s: State, i: nat, j: nat, e: Effect)
    requires Whole(s) && At(s, i, j) && SoundEffect(s.cfg.commission, BracketAt(s, i, j), e, s.fills)
    requires KeyOf(e.bracket) == KeyOf(BracketAt(s, i, j))
    requires e.bracket.status == BracketAt(s, i, j).status || e.bracket.status == Cancelled
    requires e.booking.Some? ==> WholeBooking(s.cfg.commission, e.bracket, e.booking.value, s.fills)
    requires !ApplyOrThrow(s, i, j, e).threw
    ensures Whole(ApplyOrThrow(s, i, j, e).state)
  {
    SetBracketSound(s, i, j, e.bracket);
    SetWhole(s, i, j, e.bracket);
    if e.booking.Some? {
      PostWhole(SetBracket(s, i, j, e.bracket), i, j, e.booking.value);
    }
  }

  /** A state with no bracket but those of another. */
  lemma SubsetWhole(s: State, t: State)
    requires Whole(s) && Sound(t) && t.cfg == s.cfg && t.fills == s.fills
    requires forall i, j :: At(t, i, j) ==> At(s, i, j) && BracketAt(t, i, j) == BracketAt(s, i, j)
    ensures Whole(t)
  {
  }

  lemma EnsuredWhole(s: State, x: StrategyId)
    requires Whole(s)
    ensures Whole(Ensured(s, x))
  {
    EnsuredSound(s, x);
    forall i, j | At(Ensured(s, x), i, j)
      ensures At(s, i, j) && BracketAt(Ensured(s, x), i, j) == BracketAt(s, i, j)
    {
      assert At(s, i, j);
    }
    SubsetWhole(s, Ensured(s, x));
  }

  lemma NewOnePiece(m: CommissionModel, lastId: nat, r: Request, fs: seq<Fill>)
    ensures OnePiece(m, NewBracket(lastId, r), fs)
  {
  }

  lemma RecordedWhole(s: State, r: Request)
    requires Whole(s)
    ensures Whole(Recorded(s, r))
  {
    EnsuredWhole(s, r.strategy);
    RecordedSound(s, r);
    NewOnePiece(s.cfg.commission, s.lastId, r, s.fills);
    forall k, l | At(Recorded(s, r), k, l)
      ensures OnePiece(s.cfg.commission, BracketAt(Recorded(s, r), k, l), s.fills)
    {
      RecordedPlaces(s, r, k, l);
    }
  }

  ghost predicate WholeUnthrown(r: Result)
  {
    r.threw || Whole(r.state)
  }

  lemma PlaceWhole(s: State, r: Request)
    requires Whole(s) && PlaceOrThrow(s, r).1 != Refused
    ensures Whole(PlaceOrThrow(s, r).0)
  {
    if r.rung != LIVE {
      RecordedWhole(s, r);
      forall t: State, i: nat, j: nat | Whole(t) && At(t, i, j) && BracketAt(t, i, j).status == Pending
        ensures WholeUnthrown(ApplyOrThrow(t, i, j, PlaceEffect(t.cfg, t.marks, BracketAt(t, i, j)))) {
        if !ApplyOrThrow(t, i, j, PlaceEffect(t.cfg, t.marks, BracketAt(t, i, j))).threw {
          PlacedWhole(t, i, j);
        }
      }
      PlaceEnds(t => Whole(t), u => WholeUnthrown(u), s, r);
    }
  }

  lemma PlacedWhole(t: State, i: nat, j: nat)
    requires Whole(t) && At(t, i, j) && BracketAt(t, i, j).status == Pending
    requires !ApplyOrThrow(t, i, j, PlaceEffect(t.cfg, t.marks, BracketAt(t, i, j))).threw
    ensures Whole(ApplyOrThrow(t, i, j, PlaceEffect(t.cfg, t.marks, BracketAt(t, i, j))).state)
  {
    var b := BracketAt(t, i, j);
    PlaceEffectSound(t.cfg, t.marks, b, t.fills);
    if b.entry == MarketEntry && b.ticker in t.marks {
      EnterWhole(t.cfg, b, t.marks[b.ticker].quote, t.marks[b.ticker].ts, t.fills);
    }
    ApplyWhole(t, i, j, PlaceEffect(t.cfg, t.marks, b));
  }

  lemma ModifyWhole(s: State, m: Modification)
    requires Whole(s) && !ScalesOut(s, ModifyBracket(m)) && ModifyOrThrow(s, m).1 != Refused
    ensures Whole(ModifyOrThrow(s, m).0)
  {
    if Lookup(s, m.id).Some? {
      var (i, j) := Lookup(s, m.id).value;
      ModifyEffectSound(s.cfg, s.marks, BracketAt(s, i, j), m, s.fills);
      ApplyWhole(s, i, j, ModifyEffect(s.cfg, s.marks, BracketAt(s, i, j), m));
    }
  }

  lemma CancelWhole(s: State, id: nat)
    requires Whole(s) && CancelOrThrow(s, id).1 != Refused
    ensures Whole(CancelOrThrow(s, id).0)
  {
    if Lookup(s, id).Some? {
      var (i, j) := Lookup(s, id).value;
      var b := BracketAt(s, i, j);
      CancelEffectSound(s.cfg, s.marks, b, s.fills);
      if b.status == Open && b.ticker in s.marks {
        ExitAllWhole(s.cfg, b, Some(b.orders.parent), s.marks[b.ticker].quote, s.marks[b.ticker].ts, s.fills);
      }
      ApplyWhole(s, i, j, CancelEffect(s.cfg, s.marks, b));
    }
  }

  lemma ResetWhole(s: State, x: StrategyId)
    requires Whole(s)
    ensures Whole(Reset(s, x))
  {
    ResetSound(s, x);
    EnsuredWhole(s, x);
    var u, t := Ensured(s, x), Reset(s, x);
    forall i, j | At(t, i, j)
      ensures At(u, i, j) && BracketAt(t, i, j) == BracketAt(u, i, j)
    {
      assert At(u, i, j);
    }
    SubsetWhole(u, t);
  }

  lemma DrainWhole(s: State, x: Option<StrategyId>)
    requires Whole(s)
    ensures Whole(Drain(s, x).0)
  {
    DrainSound(s, x);
    forall i, j | At(Drain(s, x).0, i, j)
      ensures At(s, i, j) && BracketAt(Drain(s, x).0, i, j) == BracketAt(s, i, j)
    {
      assert At(s, i, j);
    }
    SubsetWhole(s, Drain(s, x).0);
  }

  lemma MarkedWhole(s: State, ticker: Ticker, mk: Mark)
    requires Whole(s)
    ensures Whole(Marked(s, ticker, mk))
  {
    SetMarkSound(s, ticker, mk);
    forall i, j | At(Marked(s, ticker, mk), i, j)
      ensures At(s, i, j) && BracketAt(Marked(s, ticker, mk), i, j) == BracketAt(s, i, j)
    {
      assert At(s, i, j);
    }
    SubsetWhole(s, Marked(s, ticker, mk));
  }

  lemma MarketWhole(s: State, c: Command)
    requires Whole(s) && (c.Bar? || c.Tick?) && !StepOrThrow(s, c).threw
    ensures Whole(StepOrThrow(s, c).state)
  {
    forall t: State, ticker: Ticker, mk: Mark | Whole(t) ensures Whole(Marked(t, ticker, mk)) {
      MarkedWhole(t, ticker, mk);
    }
    forall t: State, pass: Pass, k: nat, l: nat | At(t, k, l) && Whole(t) && !VisitOrThrow(t, pass, k, l).threw
      ensures Whole(VisitOrThrow(t, pass, k, l).state) {
      VisitWhole(t, pass, k, l);
    }
    MarketKeepsUnthrown((t: State) => Whole(t), s, c);
  }

  lemma StepWhole(s: State, c: Command)
    requires Whole(s) && !StepOrThrow(s, c).threw && !ScalesOut(s, c)
    ensures Whole(StepOrThrow(s, c).state)
  {
    match c
    case Bar(bar) => MarketWhole(s, c);
    case Tick(q) => MarketWhole(s, c);
    case PlaceBracket(r) => PlaceWhole(s, r);
    case ModifyBracket(m) => ModifyWhole(s, m);
    case CancelBracket(id) => CancelWhole(s, id);
    case ResetPortfolio(x) => ResetWhole(s, x);
    case DrainClosed(x) => DrainWhole(s, x);
    case ReadPortfolio(x) => EnsuredWhole(s, x);
  }

  // ---- Whole runs ------------------------------------------------------------------------------

  predicate NeverScalesOut(cfg: Config, cs: seq<Command>)
  {
    if |cs| == 0 then true else
    var ds := cs[..|cs| - 1];
    NeverScalesOut(cfg, ds) && !ScalesOut(RunOrThrow(cfg, ds).state, cs[|cs| - 1])
  }

  /** Books are sound, and every closed bracket left in one exit, in a run that scales nothing out and throws nowhere. */
  lemma {:induction false} RunWhole(cfg: Config, cs: seq<Command>)
    requires NeverScalesOut(cfg, cs) && !RunOrThrow(cfg, cs).threw
    ensures Whole(RunOrThrow(cfg, cs).state)
  {
    if |cs| > 0 {
      RunWhole(cfg, cs[..|cs| - 1]);
      StepWhole(RunOrThrow(cfg, cs[..|cs| - 1]).state, cs[|cs| - 1]);
    }
  }

  /** Then cash of a flat book moved by exactly its realized P&L, resets and drains or not. */
  lemma WholeBookExact(cfg: Config, cs: seq<Command>, i: nat)
    requires NeverScalesOut(cfg, cs) && !RunOrThrow(cfg, cs).threw
    requires i < |RunOrThrow(cfg, cs).state.portfolios| && Flat(RunOrThrow(cfg, cs).state.portfolios[i])
    ensures var p := RunOrThrow(cfg, cs).state.portfolios[i]; p.cash - p.startingCash == p.realized
  {
    RunWhole(cfg, cs);
    RunAgrees(cfg, cs);
    FlatBook(cfg, cs, i);
    var s := RunOrThrow(cfg, cs).state;
    RunSound(cfg, cs);
    forall j | 0 <= j < |s.portfolios[i].brackets| && s.portfolios[i].brackets[j].status == Closed
      ensures LedgerOf(cfg.commission, KeyOf(s.portfolios[i].brackets[j]), s.fills).exits == 1
    {
      assert At(s, i, j);
      assert OnePiece(s.cfg.commission, BracketAt(s, i, j), s.fills);
    }
  }

  /** Nothing scaled out, no portfolio reset, no closed trades drained. */
  predicate PlainRun(cfg: Config, cs: seq<Command>)
  {
    NeverScalesOut(cfg, cs) && forall c :: c in cs ==> !c.ResetPortfolio? && !c.DrainClosed?
  }

  lemma {:induction false} PlainNeverDrifts(cfg: Config, cs: seq<Command>, x: StrategyId)
    requires PlainRun(cfg, cs)
    ensures Drift(cfg, cs, x) == 0
  {
    if |cs| > 0 {
      var ds, c := cs[..|cs| - 1], cs[|cs| - 1];
      assert c in cs;
      assert forall d :: d in ds ==> d in cs;
      PlainNeverDrifts(cfg, ds, x);
    }
  }

  /**
   After a plain run, throws included, a strategy's closed trades add up to its realized
   P&L; once its book is flat, and nothing threw, to its change in cash.
   */
  lemma ClosedTradesAddUp(cfg: Config, cs: seq<Command>, i: nat)
    requires PlainRun(cfg, cs) && i < |RunOrThrow(cfg, cs).state.portfolios|
    ensures var s := RunOrThrow(cfg, cs).state;
      var p := s.portfolios[i];
      p.realized == Total(Of(p.strategy, s.closed)) &&
      (Flat(p) && !RunOrThrow(cfg, cs).threw ==> p.cash - p.startingCash == Total(Of(p.strategy, s.closed)))
  {
    var s := RunOrThrow(cfg, cs).state;
    PlainNeverDrifts(cfg, cs, s.portfolios[i].strategy);
    RealizedExactly(cfg, cs, i);
    if Flat(s.portfolios[i]) && !RunOrThrow(cfg, cs).threw {
      WholeBookExact(cfg, cs, i);
    }
  }
}
