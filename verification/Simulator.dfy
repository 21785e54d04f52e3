/**
 The SIM exchange as an object: fields updated in place, each method
 proved equal to the function that specifies it, its exception included.
 */
module SimulatorPort {
  import opened Market
  import opened Money
  import M = SimModel
  import A = SimActual

  class Simulator {
    const cfg: M.Config
    var portfolios: seq<M.Portfolio>
    var marks: map<Ticker, M.Mark>
    var fills: seq<M.Fill>
    var closed: seq<M.ClosedTrade>
    var bracketOwner: map<nat, StrategyId>
    var lastId: nat

    ghost function State(): M.State
      reads this
    {
      M.State(cfg, portfolios, marks, fills, closed, bracketOwner, lastId)
    }

    constructor (config: M.Config)
      ensures State() == M.Init(config)
    {
      cfg := config;
      portfolios, marks, fills, closed, bracketOwner, lastId := [], map[], [], [], map[], 0;
    }

    method NextId() returns (id: nat)
      modifies this`lastId
      ensures id == lastId == old(lastId) + 1
    {
      lastId := lastId + 1;
      id := lastId;
    }

    /** The strategy's portfolio, created with the starting cash on first use. */
    method PortfolioFor(x: StrategyId) returns (i: nat)
      modifies this`portfolios
      ensures State() == M.Ensured(old(State()), x)
      ensures i == M.PortfolioIndex(portfolios, x) < |portfolios|
    {
      i := M.PortfolioIndex(portfolios, x);
      if i == |portfolios| {
        portfolios := portfolios + [M.Portfolio(x, cfg.startingCash, cfg.startingCash, 0, [])];
        assert portfolios[i].strategy == x;
      }
    }

    /** Keep a fill the schema accepts; for any other the answer is no, and the caller throws. */
    method RecordFill(f: M.Fill) returns (ok: bool)
      modifies this`fills
      ensures ok == M.ValidFill(f) && fills == if ok then old(fills) + [f] else old(fills)
    {
      ok := M.ValidFill(f);
      if ok {
        fills := fills + [f];
      }
    }

    method RecordClosed(b: M.Bracket, ts: int)
      modifies this`closed
      ensures closed == old(closed)
        + [M.ClosedTrade(b.strategy, b.id, b.ticker, b.side, b.qty, b.entryPrice, b.stop, b.realized, ts)]
    {
      closed := closed
        + [M.ClosedTrade(b.strategy, b.id, b.ticker, b.side, b.qty, b.entryPrice, b.stop, b.realized, ts)];
    }

    /** A pending bracket enters at a book, long ones paying for it and short ones being paid. */
    method OpenBracket(i: nat, j: nat, quote: BidAsk, ts: int) returns (ok: bool)
      requires M.At(State(), i, j)
      modifies this`portfolios, this`fills
      ensures A.Result(State(), !ok) == A.PostOrThrow(old(State()), i, j, M.Enter(cfg, old(portfolios)[i].brackets[j], quote, ts))
    {
      var p := portfolios[i];
      var b: M.Bracket := p.brackets[j];
      var price := M.FillPrice(cfg, OpenAction(b.side), quote);
      var commission := Commission(cfg.commission, b.qty, price);
      var notional := b.qty * price;
      var cashDelta := if b.side == Long then -(notional + commission) else notional - commission;
      b := b.(status := M.Open, entryPrice := Some(price), openedAt := Some(ts));
      portfolios := portfolios[i := p.(cash := p.cash + cashDelta, brackets := p.brackets[j := b])];
      ok := RecordFill(M.Fill(Some(b.orders.parent), b.ticker, FillSide(OpenAction(b.side)), b.qty, price, commission, ts));
    }

    /** Leave at the book around a leg's reference price, on that leg's order. */
    method CloseBracket(i: nat, j: nat, leg: M.Leg, reference: real, ts: int) returns (ok: bool)
      requires M.At(State(), i, j) && portfolios[i].brackets[j].status == M.Open
      modifies this`portfolios, this`fills, this`closed
      ensures var b := old(portfolios)[i].brackets[j];
        var order := if leg == M.StopLeg then Some(b.orders.stop) else b.orders.target;
        A.Result(State(), !ok) ==
        A.PostOrThrow(old(State()), i, j, M.ExitAll(cfg, b, order, Synthesize(reference, cfg.spreadBps), ts))
    {
      var order := if leg == M.StopLeg then Some(portfolios[i].brackets[j].orders.stop)
                   else portfolios[i].brackets[j].orders.target;
      ok := Flatten(i, j, order, Synthesize(reference, cfg.spreadBps), ts);
    }

    /** Sell or buy back everything that is left of a bracket, and book the trade. */
    method Flatten(i: nat, j: nat, order: Option<nat>, quote: BidAsk, ts: int) returns (ok: bool)
      requires M.At(State(), i, j) && portfolios[i].brackets[j].status == M.Open
      modifies this`portfolios, this`fills, this`closed
      ensures A.Result(State(), !ok) ==
        A.PostOrThrow(old(State()), i, j, M.ExitAll(cfg, old(portfolios)[i].brackets[j], order, quote, ts))
    {
      var p := portfolios[i];
      var b: M.Bracket := p.brackets[j];
      var price := M.FillPrice(cfg, CloseAction(b.side), quote);
      var commission := Commission(cfg.commission, b.qty, price);
      var notional := b.qty * price;
      var cashDelta := if b.side == Long then notional - commission else -(notional + commission);
      var entry := b.entryPrice.value;
      var gross := if b.side == Long then b.qty * (price - entry) else b.qty * (entry - price);
      var entryCommission := Commission(cfg.commission, b.qty, entry);
      var realized := gross - entryCommission - commission;
      b := b.(realized := realized, status := M.Closed, exitPrice := Some(price), closedAt := Some(ts));
      portfolios := portfolios[i := p.(cash := p.cash + cashDelta,
                                       realized := p.realized + realized,
                                       brackets := p.brackets[j := b])];
      RecordClosed(b, ts);
      ok := RecordFill(M.Fill(order, b.ticker, FillSide(CloseAction(b.side)), b.qty, price, commission, ts));
    }

    /** Visit every waiting bracket of a ticker at its mark; limit entries only if the bar or the book reaches them. */
    method FillPendingEntries(ticker: Ticker, ts: int, bar: Option<Candle>) returns (ok: bool)
      requires ticker in marks
      modifies this`portfolios, this`fills
      ensures A.Result(State(), !ok) == A.SweepOrThrow(old(State()), M.Entries(ticker, marks[ticker].quote, ts, bar), 0, 0)
    {
      ok := true;
      var quote := marks[ticker].quote;
      ghost var pass := M.Entries(ticker, quote, ts, bar);
      ghost var s0 := State();
      var i := 0;
      while i < |portfolios|
        invariant ok && A.SweepOrThrow(State(), pass, i, 0) == A.SweepOrThrow(s0, pass, 0, 0)
        invariant |portfolios| == |s0.portfolios|
      {
        var j := 0;
        while j < |portfolios[i].brackets|
          invariant i < |portfolios| == |s0.portfolios|
          invariant ok && A.SweepOrThrow(State(), pass, i, j) == A.SweepOrThrow(s0, pass, 0, 0)
          decreases |portfolios[i].brackets| - j
        {
          var b := portfolios[i].brackets[j];
          if b.status == M.Pending && b.ticker == ticker {
            var touched := true;
            if b.entry.LimitEntry? {
              var limit := b.entry.limit;
              touched :=
                if bar.Some? then bar.value.low <= limit <= bar.value.high
                else if b.side == Long then quote.ask <= limit
                else quote.bid >= limit;
            }
            if touched {
              ok := OpenBracket(i, j, quote, ts);
              if !ok {
                return;
              }
            }
          }
          j := j + 1;
        }
        i := i + 1;
      }
    }

    /** A quote comes in: mark the ticker and fill what was waiting on it. */
    method UpdateQuote(q: Quote) returns (ok: bool)
      modifies this`portfolios, this`marks, this`fills
      ensures A.Result(State(), !ok) == A.QuoteOrThrow(old(State()), q)
    {
      ok := true;
      var bid := if q.bid.Some? then q.bid else if q.last.Some? then q.last else q.ask;
      var ask := if q.ask.Some? then q.ask else if q.last.Some? then q.last else q.bid;
      if bid.None? || ask.None? {
        return;
      }
      marks := marks[q.ticker := M.Mark(BidAsk(bid.value, ask.value), q.ts)];
      ok := FillPendingEntries(q.ticker, q.ts, None);
    }

    /** Advance by one bar: mark, fill what was waiting, then check stops and targets. */
    method OnBar(bar: Candle) returns (ok: bool)
      modifies this`portfolios, this`marks, this`fills, this`closed
      ensures A.Result(State(), !ok) == A.BarOrThrow(old(State()), bar)
    {
      marks := marks[bar.ticker := M.Mark(Synthesize(bar.close, cfg.spreadBps), bar.ts)];
      ok := FillPendingEntries(bar.ticker, bar.ts, Some(bar));
      if ok {
        ok := CheckExits(bar);
      }
    }

    /** Visit every open bracket of the bar's ticker, and leave where the bar reaches a level. */
    method CheckExits(bar: Candle) returns (ok: bool)
      modifies this`portfolios, this`fills, this`closed
      ensures A.Result(State(), !ok) == A.SweepOrThrow(old(State()), M.Exits(bar), 0, 0)
    {
      ok := true;
      ghost var pass := M.Exits(bar);
      ghost var s0 := State();
      var i := 0;
      while i < |portfolios|
        invariant ok && A.SweepOrThrow(State(), pass, i, 0) == A.SweepOrThrow(s0, pass, 0, 0)
        invariant |portfolios| == |s0.portfolios|
      {
        var j := 0;
        while j < |portfolios[i].brackets|
          invariant i < |portfolios| == |s0.portfolios|
          invariant ok && A.SweepOrThrow(State(), pass, i, j) == A.SweepOrThrow(s0, pass, 0, 0)
          decreases |portfolios[i].brackets| - j
        {
          var b := portfolios[i].brackets[j];
          if b.status == M.Open && b.ticker == bar.ticker {
            var trigger := M.DetectExit(b, bar);
            if trigger.Some? {
              ok := CloseBracket(i, j, trigger.value.leg, trigger.value.reference, bar.ts);
              if !ok {
                return;
              }
            }
          }
          j := j + 1;
        }
        i := i + 1;
      }
    }

    /** The ids of a new bracket: its own, parent, stop, and target if there is one. */
    method DrawIds(hasTarget: bool) returns (bracketId: nat, orders: M.Orders)
      modifies this`lastId
      ensures bracketId == old(lastId) + 1
      ensures orders == M.Orders(old(lastId) + 2, old(lastId) + 3, if hasTarget then Some(old(lastId) + 4) else None)
      ensures lastId == old(lastId) + if hasTarget then 4 else 3
    {
      bracketId := NextId();
      var parentId := NextId();
      var stopId := NextId();
      var targetId: Option<nat> := None;
      if hasTarget {
        var id := NextId();
        targetId := Some(id);
      }
      orders := M.Orders(parentId, stopId, targetId);
    }

    /** Draw the ids and record the bracket as pending. */
    method RecordBracket(r: M.Request) returns (i: nat, j: nat)
      modifies this
      ensures State() == M.Recorded(old(State()), r)
      ensures i == M.PortfolioIndex(portfolios, r.strategy) && j == |portfolios[i].brackets| - 1
    {
      var bracketId, orders := DrawIds(r.target.Some?);
      i := PortfolioFor(r.strategy);
      assert portfolios == M.Ensured(old(State()), r.strategy).portfolios;
      var b: M.Bracket := M.RawBracket(
        bracketId, r.strategy, r.ticker, r.side, r.qty, r.stop, r.target, M.Pending,
        None, None, None, None, 0, orders, r.entry);
      assert b == M.NewBracket(old(lastId), r);
      var p := portfolios[i];
      j := |p.brackets|;
      portfolios := portfolios[i := p.(brackets := p.brackets + [b])];
      bracketOwner := bracketOwner[bracketId := r.strategy];
      assert portfolios == M.Recorded(old(State()), r).portfolios;
      assert lastId == M.Recorded(old(State()), r).lastId;
    }

    /** Place a bracket; a market entry fills at once when the ticker has a mark. */
    method PlaceBracket(r: M.Request) returns (outcome: M.Outcome, bracketId: nat)
      modifies this
      ensures (State(), outcome) == A.PlaceOrThrow(old(State()), r)
      ensures outcome == M.Done ==> bracketId == old(lastId) + 1
    {
      bracketId := lastId + 1;
      if r.rung == M.LIVE {
        return M.LiveLocked, bracketId;
      }
      var i, j := RecordBracket(r);
      M.SetSame(State(), i, j);
      var ok := true;
      if r.entry == M.MarketEntry && r.ticker in marks {
        ok := OpenBracket(i, j, marks[r.ticker].quote, marks[r.ticker].ts);
      }
      outcome := if ok then M.Done else M.Refused;
    }

    /** Move levels, resize a pending entry, or scale out of an open position. */
    method ModifyBracket(m: M.Modification) returns (outcome: M.Outcome)
      modifies this`portfolios, this`fills
      ensures (State(), outcome) == A.ModifyOrThrow(old(State()), m)
    {
      var at := Lookup(m.id);
      if at.None? {
        return M.UnknownBracket;
      }
      var (i, j) := at.value;
      M.SetSame(State(), i, j);
      if portfolios[i].brackets[j].status != M.Open && portfolios[i].brackets[j].status != M.Pending {
        return M.NotWorking;
      }
      outcome := Amend(i, j, m);
    }

    /** The levels are written first; the quantity may be refused after that. */
    method Amend(i: nat, j: nat, m: M.Modification) returns (outcome: M.Outcome)
      requires M.At(State(), i, j)
      requires portfolios[i].brackets[j].status == M.Open || portfolios[i].brackets[j].status == M.Pending
      modifies this`portfolios, this`fills
      ensures var e := M.ModifyEffect(cfg, marks, old(portfolios)[i].brackets[j], m);
        (State(), outcome) == A.Answer(A.ApplyOrThrow(old(State()), i, j, e), e.outcome)
    {
      var b: M.Bracket := portfolios[i].brackets[j];
      if m.newStop.Some? { b := b.(stop := m.newStop.value); }
      if m.newTarget.Some? { b := b.(target := m.newTarget); }
      assert b == M.Moved(portfolios[i].brackets[j], m);
      if m.newQty.Some? && m.newQty.value < b.qty && b.status == M.Pending {
        Replace(i, j, b.(qty := m.newQty.value));
        return M.Done;
      }
      Replace(i, j, b);
      if m.newQty.None? {
        return M.Done;
      }
      if m.newQty.value >= b.qty {
        return M.NotDownward;
      }
      outcome := ScaleOut(i, j, b.qty - m.newQty.value);
    }

    method Replace(i: nat, j: nat, b: M.Bracket)
      requires M.At(State(), i, j)
      modifies this`portfolios
      ensures State() == M.SetBracket(old(State()), i, j, b)
    {
      var p := portfolios[i];
      portfolios := portfolios[i := p.(brackets := p.brackets[j := b])];
    }

    method Lookup(id: nat) returns (at: Option<(nat, nat)>)
      ensures at == M.Lookup(State(), id)
    {
      if id !in bracketOwner {
        return None;
      }
      var i := M.PortfolioIndex(portfolios, bracketOwner[id]);
      if i == |portfolios| {
        return None;
      }
      var j := M.BracketIndex(portfolios[i].brackets, id);
      at := if j == |portfolios[i].brackets| then None else Some((i, j));
    }

    /** Sell or buy back a part of a bracket at its ticker's mark, charging the entry commission of that part. */
    method ScaleOut(i: nat, j: nat, reduceBy: Shares) returns (outcome: M.Outcome)
      requires M.At(State(), i, j)
      requires var b := portfolios[i].brackets[j]; b.status == M.Open && reduceBy < b.qty
      modifies this`portfolios, this`fills
      ensures var b := old(portfolios)[i].brackets[j];
        if b.ticker !in marks then State() == old(State()) && outcome == M.NoMarket
        else
          var bk := M.ExitPart(cfg, b, reduceBy, marks[b.ticker].quote, marks[b.ticker].ts);
          (State(), outcome) == A.Answer(A.PostOrThrow(old(State()), i, j, bk), M.Done)
    {
      var p := portfolios[i];
      var b: M.Bracket := p.brackets[j];
      if b.ticker !in marks {
        return M.NoMarket;
      }
      var mk := marks[b.ticker];
      var price := M.FillPrice(cfg, CloseAction(b.side), mk.quote);
      var commission := Commission(cfg.commission, reduceBy, price);
      var notional := reduceBy * price;
      var cashDelta := if b.side == Long then notional - commission else -(notional + commission);
      var entry := b.entryPrice.value;
      var gross := if b.side == Long then reduceBy * (price - entry) else reduceBy * (entry - price);
      var realized := gross - Commission(cfg.commission, reduceBy, entry) - commission;
      b := b.(realized := b.realized + realized, qty := b.qty - reduceBy);
      portfolios := portfolios[i := p.(cash := p.cash + cashDelta,
                                       realized := p.realized + realized,
                                       brackets := p.brackets[j := b])];
      var ok := RecordFill(
        M.Fill(Some(b.orders.parent), b.ticker, FillSide(CloseAction(b.side)), reduceBy, price, commission, mk.ts));
      outcome := if ok then M.Done else M.Refused;
    }

    /** Cancel a pending bracket, or flatten a filled one. */
    method CancelBracket(id: nat) returns (outcome: M.Outcome)
      modifies this`portfolios, this`fills, this`closed
      ensures (State(), outcome) == A.CancelOrThrow(old(State()), id)
    {
      var at := Lookup(id);
      if at.None? {
        return M.UnknownBracket;
      }
      var (i, j) := at.value;
      var b: M.Bracket := portfolios[i].brackets[j];
      outcome := M.Done;
      M.SetSame(State(), i, j);
      if b.status == M.Pending {
        Replace(i, j, b.(status := M.Cancelled));
      } else if b.status == M.Open {
        if b.ticker !in marks {
          return M.NoMarket;
        }
        var ok := Flatten(i, j, Some(b.orders.parent), marks[b.ticker].quote, marks[b.ticker].ts);
        if !ok {
          return M.Refused;
        }
      }
    }

    /** Hand over the buffered closed trades, of one strategy or of all. */
    method DrainClosedTrades(x: Option<StrategyId>) returns (out: seq<M.ClosedTrade>)
      modifies this`closed
      ensures (State(), out) == M.Drain(old(State()), x)
    {
      if x.None? {
        out := closed;
        closed := [];
        return;
      }
      out := [];
      var keep := [];
      for n := 0 to |closed|
        invariant closed == old(closed)
        invariant out == M.Of(x.value, closed[..n]) && keep == M.NotOf(x.value, closed[..n])
      {
        assert closed[..n + 1][..n] == closed[..n];
        if closed[n].strategy == x.value {
          out := out + [closed[n]];
        } else {
          keep := keep + [closed[n]];
        }
      }
      assert closed[..|closed|] == closed;
      closed := keep;
    }

    /** Restore a portfolio to its starting cash, discarding its brackets. */
    method ResetPortfolio(x: StrategyId) returns (cashBefore: int, realizedBefore: int, openDiscarded: nat)
      modifies this`portfolios
      ensures State() == M.Reset(old(State()), x)
      ensures var t := M.Ensured(old(State()), x);
        var p := t.portfolios[M.PortfolioIndex(t.portfolios, x)];
        cashBefore == p.cash && realizedBefore == p.realized && openDiscarded == |OpenIndices(p.brackets)|
    {
      var i := PortfolioFor(x);
      var p := portfolios[i];
      cashBefore, realizedBefore, openDiscarded := p.cash, p.realized, 0;
      ghost var s1 := State();
      for j := 0 to |p.brackets|
        invariant State() == s1
        invariant openDiscarded == |OpenIndices(p.brackets[..j])|
      {
        OpenIndicesGrow(p.brackets, j);
        if p.brackets[j].status == M.Open {
          openDiscarded := openDiscarded + 1;
        }
      }
      assert p.brackets[..|p.brackets|] == p.brackets;
      portfolios := portfolios[i := p.(cash := p.startingCash, realized := 0, brackets := [])];
    }

    static ghost function OpenIndices(bs: seq<M.Bracket>): set<nat>
    {
      set j: nat | j < |bs| && bs[j].status == M.Open
    }

    static lemma OpenIndicesGrow(bs: seq<M.Bracket>, j: nat)
      requires j < |bs|
      ensures |OpenIndices(bs[..j + 1])| == |OpenIndices(bs[..j])| + if bs[j].status == M.Open then 1 else 0
    {
      var before := OpenIndices(bs[..j]);
      if bs[j].status == M.Open {
        assert OpenIndices(bs[..j + 1]) == before + {j};
      } else {
        assert OpenIndices(bs[..j + 1]) == before;
      }
    }

    method Cash(x: StrategyId) returns (cash: int)
      modifies this`portfolios
      ensures State() == M.Ensured(old(State()), x)
      ensures cash == portfolios[M.PortfolioIndex(portfolios, x)].cash
    {
      var i := PortfolioFor(x);
      cash := portfolios[i].cash;
    }

    method RealizedPnl(x: StrategyId) returns (realized: int)
      modifies this`portfolios
      ensures State() == M.Ensured(old(State()), x)
      ensures realized == portfolios[M.PortfolioIndex(portfolios, x)].realized
    {
      var i := PortfolioFor(x);
      realized := portfolios[i].realized;
    }
  }
}
