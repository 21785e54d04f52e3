/** Realized P&L of the SIM exchange against the closed trades that wait, in every run. */
module SimTotals {
  import opened Market
  import opened Money
  import opened SimModel
  import opened SimLedger
  import opened SimRuns
  import opened SimAccounting
  import opened SimActual
  import opened SimIsolation
  import opened SimAlways

  function Total(ts: seq<ClosedTrade>): int
  {
    if |ts| == 0 then 0 else Total(ts[..|ts| - 1]) + ts[|ts| - 1].realized
  }

  lemma TotalAppend(ts: seq<ClosedTrade>, t: ClosedTrade)
    ensures Total(ts + [t]) == Total(ts) + t.realized
  {
    assert (ts + [t])[..|ts|] == ts;
  }

  // ---- What moves realized P&L without a closed trade, or a closed trade without it -----------------

  /** Whether a command reduces an open position. */
  predicate ScalesOut(s: State, c: Command)
  {
    c.ModifyBracket? && c.mod.newQty.Some? && Lookup(s, c.mod.id).Some? &&
    var at := Lookup(s, c.mod.id).value;
    var b := BracketAt(s, at.0, at.1);
    b.status == Open && c.mod.newQty.value < b.qty && b.ticker in s.marks
  }

  /** Whose position it is, and the net P&L of the shares that leave it. */
  function ScaledOut(s: State, c: Command): (StrategyId, int)
    requires ScalesOut(s, c)
  {
    var at := Lookup(s, c.mod.id).value;
    var b := BracketAt(s, at.0, at.1);
    (s.portfolios[at.0].strategy,
     Net(s.cfg, b.side, b.qty - c.mod.newQty.value, b.entryPrice.value,
         FillPrice(s.cfg, CloseAction(b.side), s.marks[b.ticker].quote)))
  }

  function RealizedOf(v: View): int
  {
    if v.book.Some? then v.book.value.realized else 0
  }

  /** By how much a command raises a strategy's realized P&L above what it adds to its waiting trades. */
  function DriftOf(s: State, c: Command, x: StrategyId): int
  {
    match c
    case ModifyBracket(m) => if ScalesOut(s, c) && ScaledOut(s, c).0 == x then ScaledOut(s, c).1 else 0
    case ResetPortfolio(y) => if y == x then -RealizedOf(ViewOf(s, x)) else 0
    case DrainClosed(y) => if y.None? || y == Some(x) then Total(Of(x, s.closed)) else 0
    case _ => 0
  }

  /** Over a run: the pieces scaled out, plus the trades drained, less the P&L wiped by resets. */
  function Drift(cfg: Config, cs: seq<Command>, x: StrategyId): int
  {
    if |cs| == 0 then 0 else
    var ds := cs[..|cs| - 1];
    Drift(cfg, ds, x) + DriftOf(RunOrThrow(cfg, ds).state, cs[|cs| - 1], x)
  }

  // ---- One view at a time ---------------------------------------------------------------------------

  /** Every waiting trade knows its entry price, and they add up to realized P&L but for `n`. */
  ghost predicate AddsUp(v: View, n: int)
  {
    RealizedOf(v) == Total(v.closed) + n && forall k :: 0 <= k < |v.closed| ==> v.closed[k].entryPrice.Some?
  }

  /** A booking that closes a trade realizes what the trade says. */
  ghost predicate TradeTells(bk: Booking)
  {
    bk.trade.Some? ==> bk.trade.value.realized == bk.realized && bk.trade.value.entryPrice.Some?
  }

  lemma PostAddsUp(v: View, j: nat, bk: Booking, n: int)
    requires In(v, j) && AddsUp(v, n) && TradeTells(bk)
    ensures AddsUp(PostIn(v, j, bk), if bk.trade.Some? then n else n + bk.realized)
  {
    if bk.trade.Some? {
      TotalAppend(v.closed, bk.trade.value);
    }
  }

  lemma ApplyAddsUp(v: View, j: nat, e: Effect, n: int)
    requires In(v, j) && AddsUp(v, n) && (e.booking.Some? ==> TradeTells(e.booking.value))
    ensures AddsUp(ApplyIn(v, j, e), if e.booking.Some? && e.booking.value.trade.None? then n + e.booking.value.realized else n)
  {
    var p := v.book.value;
    var v1 := v.(book := Some(p.(brackets := p.brackets[j := e.bracket])));
    if e.booking.Some? {
      PostAddsUp(v1, j, e.booking.value, n);
    }
  }

  /** What a market event books closes a trade or realizes nothing. */
  lemma VisitTells(cfg: Config, pass: Pass, b: Bracket)
    requires Visit(cfg, pass, b).Some?
    ensures var bk := Visit(cfg, pass, b).value; TradeTells(bk) && (bk.trade.None? ==> bk.realized == 0)
  {
  }

  lemma VisitAddsUp(s: State, pass: Pass, i: nat, j: nat, x: StrategyId, n: int)
    requires Homes(s) && At(s, i, j) && AddsUp(ViewOf(s, x), n)
    ensures AddsUp(ViewOf(VisitOrThrow(s, pass, i, j).state, x), n)
  {
    VisitView(s, pass, i, j, x);
    VisitBooks(s, pass, i, j);
    var v, b := ViewOf(s, x), BracketAt(s, i, j);
    if Visit(s.cfg, pass, b).Some? && PortfolioIndex(s.portfolios, x) == i {
      VisitTells(s.cfg, pass, b);
      PostAddsUp(v, j, Visit(s.cfg, pass, b).value, n);
    }
  }

  lemma MarketAddsUp(s: State, c: Command, x: StrategyId, n: int)
    requires Homes(s) && AddsUp(ViewOf(s, x), n) && (c.Bar? || c.Tick?)
    ensures AddsUp(ViewOf(StepOrThrow(s, c).state, x), n)
  {
    forall t: State, ticker: Ticker, mk: Mark | Homes(t) && AddsUp(ViewOf(t, x), n)
      ensures Homes(Marked(t, ticker, mk)) && AddsUp(ViewOf(Marked(t, ticker, mk), x), n) {
      SetMarkHomes(t, ticker, mk, x);
    }
    forall t: State, pass: Pass, k: nat, l: nat | At(t, k, l) && Homes(t) && AddsUp(ViewOf(t, x), n)
      ensures Homes(VisitOrThrow(t, pass, k, l).state) && AddsUp(ViewOf(VisitOrThrow(t, pass, k, l).state, x), n) {
      VisitHomes(t, pass, k, l);
      VisitAddsUp(t, pass, k, l, x, n);
    }
    MarketKeeps((t: State) => Homes(t) && AddsUp(ViewOf(t, x), n), s, c);
  }

  // ---- A strategy's own calls -------------------------------------------------------------------------

  lemma PlaceAddsUp(s: State, r: Request, x: StrategyId, n: int)
    requires Homes(s) && AddsUp(ViewOf(s, x), n)
    ensures AddsUp(ViewOf(Place(s, r).0, x), n)
  {
    if r.rung != LIVE {
      SubmitView(s, r, x);
      if x == r.strategy {
        SubmitAddsUp(s.cfg, s.marks, s.lastId, x, ViewOf(s, x), r, n);
      }
    }
  }

  lemma SubmitAddsUp(cfg: Config, marks: map<Ticker, Mark>, id: nat, x: StrategyId, v: View, r: Request, n: int)
    requires AddsUp(v, n)
    ensures AddsUp(SubmitIn(cfg, marks, id, x, v, r), n)
  {
    var p := EnsuredIn(cfg, x, v).book.value;
    var b := NewBracket(id, r.(strategy := x));
    ApplyAddsUp(v.(book := Some(p.(brackets := p.brackets + [b]))), |p.brackets|, PlaceEffect(cfg, marks, b), n);
  }

  lemma ModifyTells(cfg: Config, marks: map<Ticker, Mark>, b: Bracket, m: Modification)
    ensures var e := ModifyEffect(cfg, marks, b, m);
      (e.booking.Some? <==> b.status == Open && m.newQty.Some? && m.newQty.value < b.qty && b.ticker in marks) &&
      (e.booking.Some? ==>
        e.booking.value.trade.None? &&
        e.booking.value.realized == Net(cfg, b.side, b.qty - m.newQty.value, b.entryPrice.value,
                                        FillPrice(cfg, CloseAction(b.side), marks[b.ticker].quote)))
  {
  }

  lemma ModifyAddsUp(s: State, m: Modification, x: StrategyId, n: int)
    requires Homes(s) && AddsUp(ViewOf(s, x), n)
    ensures AddsUp(ViewOf(Modify(s, m).0, x), n + DriftOf(s, ModifyBracket(m), x))
  {
    if Lookup(s, m.id).Some? {
      var (i, j) := Lookup(s, m.id).value;
      var b := BracketAt(s, i, j);
      var e := ModifyEffect(s.cfg, s.marks, b, m);
      ModifyTells(s.cfg, s.marks, b, m);
      ModifyEffectOwn(s.cfg, s.marks, b, m);
      ApplyView(s, i, j, e, x);
      if s.portfolios[i].strategy == x {
        ApplyAddsUp(ViewOf(s, x), j, e, n);
      }
    }
  }

  lemma CancelTells(cfg: Config, marks: map<Ticker, Mark>, b: Bracket)
    ensures var e := CancelEffect(cfg, marks, b);
      SameIdentity(b, e.bracket) &&
      (e.booking.Some? ==>
        TradeTells(e.booking.value) && e.booking.value.trade.Some? && e.booking.value.trade.value.strategy == b.strategy)
  {
  }

  lemma CancelAddsUp(s: State, id: nat, x: StrategyId, n: int)
    requires Homes(s) && AddsUp(ViewOf(s, x), n)
    ensures AddsUp(ViewOf(Cancel(s, id).0, x), n)
  {
    if Lookup(s, id).Some? {
      var (i, j) := Lookup(s, id).value;
      var b := BracketAt(s, i, j);
      var e := CancelEffect(s.cfg, s.marks, b);
      CancelTells(s.cfg, s.marks, b);
      assert AtHome(s, s.portfolios[i].strategy, b);
      ApplyView(s, i, j, e, x);
      if s.portfolios[i].strategy == x {
        ApplyAddsUp(ViewOf(s, x), j, e, n);
      }
    }
  }

  lemma RestAddsUp(s: State, c: Command, x: StrategyId, n: int)
    requires AddsUp(ViewOf(s, x), n) && (c.ResetPortfolio? || c.DrainClosed? || c.ReadPortfolio?)
    ensures AddsUp(ViewOf(Step(s, c), x), n + DriftOf(s, c, x))
  {
    match c
    case ResetPortfolio(y) => ResetView(s, y, x);
    case DrainClosed(y) =>
      if y.Some? {
        OfSplits(y.value, x, s.closed);
      }
    case ReadPortfolio(y) => EnsuredView(s, y, x);
  }

  lemma StepAddsUp(s: State, c: Command, x: StrategyId, n: int)
    requires Homes(s) && AddsUp(ViewOf(s, x), n)
    ensures AddsUp(ViewOf(StepOrThrow(s, c).state, x), n + DriftOf(s, c, x))
  {
    if c.Bar? || c.Tick? {
      MarketAddsUp(s, c, x, n);
    } else {
      CallBooks(s, c);
      assert ViewOf(StepOrThrow(s, c).state, x) == ViewOf(Step(s, c), x);
      match c
      case PlaceBracket(r) => PlaceAddsUp(s, r, x, n);
      case ModifyBracket(m) => ModifyAddsUp(s, m, x, n);
      case CancelBracket(id) => CancelAddsUp(s, id, x, n);
      case ResetPortfolio(y) => RestAddsUp(s, c, x, n);
      case DrainClosed(y) => RestAddsUp(s, c, x, n);
      case ReadPortfolio(y) => RestAddsUp(s, c, x, n);
    }
  }

  /**
   In every run, throws included, a strategy's realized P&L is what its waiting trades
   add up to, plus the pieces scaled out, plus what drains took, less what resets wiped;
   and every waiting trade knows its entry price.
   */
  lemma {:induction false} RunAddsUp(cfg: Config, cs: seq<Command>, x: StrategyId)
    ensures AddsUp(ViewOf(RunOrThrow(cfg, cs).state, x), Drift(cfg, cs, x))
  {
    if |cs| > 0 {
      var ds := cs[..|cs| - 1];
      RunAddsUp(cfg, ds, x);
      RunHomes(cfg, ds);
      StepAddsUp(RunOrThrow(cfg, ds).state, cs[|cs| - 1], x, Drift(cfg, ds, x));
    }
  }

  // ---- Portfolios -----------------------------------------------------------------------------------

  /** Waiting trades add up to a portfolio's realized P&L exactly when nothing set the two apart. */
  lemma RealizedExactly(cfg: Config, cs: seq<Command>, i: nat)
    requires i < |RunOrThrow(cfg, cs).state.portfolios|
    ensures var s := RunOrThrow(cfg, cs).state;
      var p := s.portfolios[i];
      (p.realized == Total(Of(p.strategy, s.closed)) <==> Drift(cfg, cs, p.strategy) == 0) &&
      p.realized == Total(Of(p.strategy, s.closed)) + Drift(cfg, cs, p.strategy)
  {
    RunHomes(cfg, cs);
    var s := RunOrThrow(cfg, cs).state;
    HomeIndex(s, i);
    RunAddsUp(cfg, cs, s.portfolios[i].strategy);
  }

  /**
   Once a book is flat, in a run that throws nowhere, its waiting trades add up to its
   change in cash exactly when what set realized P&L apart is undone by what splitting
   orders cost.
   */
  lemma CashExactly(cfg: Config, cs: seq<Command>, i: nat)
    requires !RunOrThrow(cfg, cs).threw
    requires i < |RunOrThrow(cfg, cs).state.portfolios| && Flat(RunOrThrow(cfg, cs).state.portfolios[i])
    ensures var s := RunOrThrow(cfg, cs).state;
      var p := s.portfolios[i];
      var apart := Drift(cfg, cs, p.strategy) + PieceGap(cfg.commission, p.brackets, s.fills);
      p.cash - p.startingCash == Total(Of(p.strategy, s.closed)) + apart &&
      (p.cash - p.startingCash == Total(Of(p.strategy, s.closed)) <==> apart == 0)
  {
    RunAgrees(cfg, cs);
    RealizedExactly(cfg, cs, i);
    FlatExactly(cfg, cs, i);
  }
}
