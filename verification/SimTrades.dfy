/** Closed brackets and closed trades of the SIM exchange correspond one to one. */
module SimTrades {
  import opened Market
  import opened Money
  import opened SimModel
  import opened SimLedger
  import opened SimRuns
  import opened SimLifecycle
  import opened SimActual
  import opened SimIsolation
  import opened SimAlways

  /** What a closed bracket reports. */
  function TradeOf(b: Bracket): ClosedTrade
  {
    ClosedTrade(b.strategy, b.id, b.ticker, b.side, b.qty, b.entryPrice, b.stop, b.realized, GetOr(b.closedAt, 0))
  }

  /** The closed trades of one bracket, in order. */
  function ByBracket(id: nat, ts: seq<ClosedTrade>): seq<ClosedTrade>
  {
    if |ts| == 0 then [] else
    ByBracket(id, ts[..|ts| - 1]) + if ts[|ts| - 1].bracket == id then [ts[|ts| - 1]] else []
  }

  lemma ByBracketAppend(id: nat, ts: seq<ClosedTrade>, t: ClosedTrade)
    ensures ByBracket(id, ts + [t]) == ByBracket(id, ts) + if t.bracket == id then [t] else []
  {
    assert (ts + [t])[..|ts|] == ts;
  }

  lemma {:induction false} NoneByBracket(id: nat, ts: seq<ClosedTrade>)
    requires forall n :: 0 <= n < |ts| ==> ts[n].bracket != id
    ensures ByBracket(id, ts) == []
  {
    if |ts| > 0 {
      NoneByBracket(id, ts[..|ts| - 1]);
    }
  }

  /** A closed bracket has reported once, as it is; any other has not. */
  ghost predicate Reported(b: Bracket, ts: seq<ClosedTrade>)
  {
    ByBracket(b.id, ts) == if b.status == Closed then [TradeOf(b)] else []
  }

  ghost predicate Traded(s: State)
  {
    (forall i, j :: At(s, i, j) ==> Reported(BracketAt(s, i, j), s.closed)) &&
    (forall n :: 0 <= n < |s.closed| ==> s.closed[n].bracket in s.owner) &&
    (forall id :: |ByBracket(id, s.closed)| <= 1)
  }

  /** A booking that closes reports the bracket it leaves; any other reports nothing. */
  ghost predicate Reports(b: Bracket, bk: Booking)
  {
    SameIdentity(b, bk.bracket) && b.status != Closed &&
    if bk.bracket.status == Closed then bk.trade == Some(TradeOf(bk.bracket)) else bk.trade == None
  }

  lemma PostTraded(s: State, i: nat, j: nat, bk: Booking)
    requires Homes(s) && Traded(s) && At(s, i, j) && Reports(BracketAt(s, i, j), bk)
    ensures Traded(Post(s, i, j, bk))
  {
    var t, id := Post(s, i, j, bk), bk.bracket.id;
    assert AtHome(s, s.portfolios[i].strategy, BracketAt(s, i, j));
    assert Reported(BracketAt(s, i, j), s.closed);
    if bk.trade.Some? {
      forall x ensures ByBracket(x, t.closed) == ByBracket(x, s.closed) + if x == id then [bk.trade.value] else [] {
        ByBracketAppend(x, s.closed, bk.trade.value);
      }
    }
    forall k, l | At(t, k, l)
      ensures Reported(BracketAt(t, k, l), t.closed)
    {
      assert At(s, k, l);
      if k != i || l != j {
        assert Reported(BracketAt(s, k, l), s.closed);
        OthersIds(s, i, j, k, l);
      }
    }
  }

  lemma VisitReports(cfg: Config, pass: Pass, b: Bracket)
    requires Visit(cfg, pass, b).Some?
    ensures Reports(b, Visit(cfg, pass, b).value)
  {
  }

  ghost predicate Tracked(s: State)
  {
    Homes(s) && Traded(s)
  }

  lemma VisitTraded(s: State, pass: Pass, i: nat, j: nat)
    requires Tracked(s) && At(s, i, j)
    ensures Tracked(VisitAt(s, pass, i, j))
  {
    VisitView(s, pass, i, j, "");
    var b := BracketAt(s, i, j);
    if Visit(s.cfg, pass, b).Some? {
      VisitReports(s.cfg, pass, b);
      PostTraded(s, i, j, Visit(s.cfg, pass, b).value);
    }
  }

  /** A state with no other brackets, trades or owners than before. */
  lemma SameBracketsTraded(s: State, t: State)
    requires Traded(s) && t.closed == s.closed && forall id :: id in s.owner ==> id in t.owner
    requires forall k, l :: At(t, k, l) ==> At(s, k, l) && BracketAt(t, k, l) == BracketAt(s, k, l)
    ensures Traded(t)
  {
    forall k, l | At(t, k, l) ensures Reported(BracketAt(t, k, l), t.closed) {
      assert Reported(BracketAt(s, k, l), s.closed);
    }
  }

  lemma MarkTraded(s: State, ticker: Ticker, mk: Mark)
    requires Homes(s) && Traded(s)
    ensures Homes(s.(marks := s.marks[ticker := mk])) && Traded(s.(marks := s.marks[ticker := mk]))
  {
    var t := s.(marks := s.marks[ticker := mk]);
    SetMarkHomes(s, ticker, mk, "");
    forall k, l | At(t, k, l) ensures At(s, k, l) && BracketAt(t, k, l) == BracketAt(s, k, l) {
      assert At(s, k, l);
    }
    SameBracketsTraded(s, t);
  }

  /** The fill records have no part in it. */
  lemma FillsTracked(s: State, fs: seq<Fill>)
    requires Tracked(s)
    ensures Tracked(s.(fills := fs))
  {
    var t := s.(fills := fs);
    FillsHomes(s, fs);
    forall k, l | At(t, k, l) ensures At(s, k, l) && BracketAt(t, k, l) == BracketAt(s, k, l) {
      assert At(s, k, l);
    }
    SameBracketsTraded(s, t);
  }

  lemma MarketTracked(s: State, c: Command)
    requires Tracked(s) && (c.Bar? || c.Tick?)
    ensures Tracked(StepOrThrow(s, c).state)
  {
    forall t: State, ticker: Ticker, mk: Mark | Tracked(t) ensures Tracked(Marked(t, ticker, mk)) {
      MarkTraded(t, ticker, mk);
    }
    forall t: State, pass: Pass, k: nat, l: nat | At(t, k, l) && Tracked(t)
      ensures Tracked(VisitOrThrow(t, pass, k, l).state) {
      VisitTraded(t, pass, k, l);
      VisitBooks(t, pass, k, l);
      FillsTracked(VisitAt(t, pass, k, l), VisitOrThrow(t, pass, k, l).state.fills);
    }
    MarketKeeps(t => Tracked(t), s, c);
  }

  /** New terms leave a closed bracket as it is, and close none. */
  lemma SetTraded(s: State, i: nat, j: nat, b: Bracket)
    requires Homes(s) && Traded(s) && At(s, i, j) && SameIdentity(BracketAt(s, i, j), b)
    requires b == BracketAt(s, i, j) || (b.status != Closed && BracketAt(s, i, j).status != Closed)
    ensures Traded(SetBracket(s, i, j, b))
  {
    var t := SetBracket(s, i, j, b);
    assert Reported(BracketAt(s, i, j), s.closed);
    forall k, l | At(t, k, l)
      ensures Reported(BracketAt(t, k, l), t.closed)
    {
      assert At(s, k, l);
      assert k != i || l != j ==> BracketAt(t, k, l) == BracketAt(s, k, l) && Reported(BracketAt(s, k, l), s.closed);
    }
  }

  ghost predicate ReportingEffect(b: Bracket, e: Effect)
  {
    SameIdentity(b, e.bracket) && (e.bracket == b || (e.bracket.status != Closed && b.status != Closed)) &&
    (e.booking.Some? ==> Reports(e.bracket, e.booking.value))
  }

  lemma ApplyTraded(s: State, i: nat, j: nat, e: Effect)
    requires Homes(s) && Traded(s) && At(s, i, j) && ReportingEffect(BracketAt(s, i, j), e)
    ensures Traded(Apply(s, i, j, e))
  {
    SetTraded(s, i, j, e.bracket);
    if e.booking.Some? {
      ApplyHomes(s, i, j, Effect(e.bracket, None, Done));
      PostTraded(SetBracket(s, i, j, e.bracket), i, j, e.booking.value);
    }
  }

  lemma EnsuredTraded(s: State, x: StrategyId)
    requires Traded(s)
    ensures Traded(Ensured(s, x))
  {
    EnsuredPlaces(s, x);
    SameBracketsTraded(s, Ensured(s, x));
  }

  lemma RecordedTraded(s: State, r: Request)
    requires Homes(s) && Traded(s)
    ensures Traded(Recorded(s, r))
  {
    EnsuredTraded(s, r.strategy);
    var u, t := Ensured(s, r.strategy), Recorded(s, r);
    forall n | 0 <= n < |s.closed| ensures s.closed[n].bracket != s.lastId + 1 {
      assert s.closed[n].bracket in s.owner;
    }
    NoneByBracket(s.lastId + 1, s.closed);
    forall k, l | At(t, k, l)
      ensures Reported(BracketAt(t, k, l), t.closed)
    {
      RecordedPlaces(s, r, k, l);
    }
  }

  lemma PlaceTraded(s: State, r: Request)
    requires Homes(s) && Traded(s)
    ensures Traded(Place(s, r).0)
  {
    if r.rung != LIVE {
      RecordedTraded(s, r);
      RecordedHomes(s, r);
      var t := Recorded(s, r);
      var i := PortfolioIndex(t.portfolios, r.strategy);
      var j := |t.portfolios[i].brackets| - 1;
      RecordedPlaces(s, r, i, j);
      ApplyTraded(t, i, j, PlaceEffect(t.cfg, t.marks, BracketAt(t, i, j)));
    }
  }

  lemma ModifyReports(cfg: Config, marks: map<Ticker, Mark>, b: Bracket, m: Modification)
    ensures ReportingEffect(b, ModifyEffect(cfg, marks, b, m))
  {
  }

  lemma CancelReports(cfg: Config, marks: map<Ticker, Mark>, b: Bracket)
    ensures ReportingEffect(b, CancelEffect(cfg, marks, b))
  {
  }

  lemma ModifyTraded(s: State, m: Modification)
    requires Homes(s) && Traded(s)
    ensures Traded(Modify(s, m).0)
  {
    if Lookup(s, m.id).Some? {
      var (i, j) := Lookup(s, m.id).value;
      ModifyReports(s.cfg, s.marks, BracketAt(s, i, j), m);
      ApplyTraded(s, i, j, ModifyEffect(s.cfg, s.marks, BracketAt(s, i, j), m));
    }
  }

  lemma CancelTraded(s: State, id: nat)
    requires Homes(s) && Traded(s)
    ensures Traded(Cancel(s, id).0)
  {
    if Lookup(s, id).Some? {
      var (i, j) := Lookup(s, id).value;
      CancelReports(s.cfg, s.marks, BracketAt(s, i, j));
      ApplyTraded(s, i, j, CancelEffect(s.cfg, s.marks, BracketAt(s, i, j)));
    }
  }

  lemma ResetTraded(s: State, x: StrategyId)
    requires Traded(s)
    ensures Traded(Reset(s, x))
  {
    EnsuredTraded(s, x);
    ResetPlaces(s, x);
    SameBracketsTraded(Ensured(s, x), Reset(s, x));
  }

  lemma CallTraded(s: State, c: Command)
    requires Homes(s) && Traded(s) && !c.DrainClosed? && !c.Bar? && !c.Tick?
    ensures Traded(Step(s, c))
  {
    match c
    case PlaceBracket(r) => PlaceTraded(s, r);
    case ModifyBracket(m) => ModifyTraded(s, m);
    case CancelBracket(id) => CancelTraded(s, id);
    case ResetPortfolio(x) => ResetTraded(s, x);
    case ReadPortfolio(x) => EnsuredTraded(s, x);
  }

  lemma StepTracked(s: State, c: Command)
    requires Tracked(s) && !c.DrainClosed?
    ensures Tracked(StepOrThrow(s, c).state)
  {
    if c.Bar? || c.Tick? {
      MarketTracked(s, c);
    } else {
      CallTraded(s, c);
      StepHomes(s, c);
      CallBooks(s, c);
      FillsTracked(Step(s, c), StepOrThrow(s, c).state.fills);
    }
  }

  ghost predicate NeverDrained(cs: seq<Command>)
  {
    forall n :: 0 <= n < |cs| ==> !cs[n].DrainClosed?
  }

  lemma {:induction false} RunTracked(cfg: Config, cs: seq<Command>)
    requires NeverDrained(cs)
    ensures Tracked(RunOrThrow(cfg, cs).state)
  {
    if |cs| > 0 {
      RunTracked(cfg, cs[..|cs| - 1]);
      StepTracked(RunOrThrow(cfg, cs[..|cs| - 1]).state, cs[|cs| - 1]);
    }
  }

  /**
   While nothing is drained, throws or not, each closed bracket has exactly one closed
   trade, with its P&L, terms and time; a bracket that is not closed has none; and no
   bracket that was ever placed has two.
   */
  lemma OneTradeEach(cfg: Config, cs: seq<Command>, i: nat, j: nat, id: nat)
    requires NeverDrained(cs) && At(RunOrThrow(cfg, cs).state, i, j)
    ensures var s := RunOrThrow(cfg, cs).state;
      var b := BracketAt(s, i, j);
      ByBracket(b.id, s.closed) == (if b.status == Closed then [TradeOf(b)] else []) && |ByBracket(id, s.closed)| <= 1
  {
    RunTracked(cfg, cs);
    var s := RunOrThrow(cfg, cs).state;
    assert Reported(BracketAt(s, i, j), s.closed);
  }
}
