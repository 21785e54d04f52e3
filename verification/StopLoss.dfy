/** What a risk-approved position can lose when its original stop is hit. */
module StopLoss {
  import opened Market
  import opened Money
  import M = SimModel
  import X = SimActual
  import V = SimEvents
  import R = Risk

  /** What leaving at a stop costs per share beyond the stop itself, before rounding. */
  function StopCost(cfg: M.Config, side: Side, stop: real): real
  {
    var book := Synthesize(stop, cfg.spreadBps);
    if side == Long then stop - MarketFillPrice(Sell, book, cfg.slippageBps)
    else MarketFillPrice(Buy, book, cfg.slippageBps) - stop
  }

  /** Half the spread and the slippage, compounded for or against each other. */
  lemma StopCostForm(cfg: M.Config, side: Side, stop: real)
    ensures var h, s := cfg.spreadBps / 20000.0, cfg.slippageBps / 10000.0;
      StopCost(cfg, side, stop) == if side == Long then stop * (h + s - h * s) else stop * (h + s + h * s)
  {
    var h, s := cfg.spreadBps / 20000.0, cfg.slippageBps / 10000.0;
    assert stop * (cfg.spreadBps / 10000.0) / 2.0 == stop * h;
    if side == Long {
      Expand(stop, h, -s, -1.0);
    } else {
      Expand(stop, h, s, 1.0);
    }
  }

  lemma Expand(x: real, h: real, s: real, sign: real)
    ensures (x + sign * (x * h)) * (1.0 + s) == x + sign * (x * h) + x * s + sign * (x * (h * s))
  {
    assert x * h * s == x * (h * s);
  }

  /** The fill model is pessimistic at a stop: spread and slippage do not turn each other's sign. */
  predicate Pessimistic(cfg: M.Config, side: Side)
  {
    var h, s := cfg.spreadBps / 20000.0, cfg.slippageBps / 10000.0;
    side == Short || h * s <= h + s
  }

  /** Leaving at a stop costs something, or nothing, exactly when the fill model is pessimistic. */
  lemma NeverBeatsStopExactly(cfg: M.Config, side: Side, stop: Price)
    ensures StopCost(cfg, side, stop) >= 0.0 <==> Pessimistic(cfg, side)
  {
    var h, s := cfg.spreadBps / 20000.0, cfg.slippageBps / 10000.0;
    StopCostForm(cfg, side, stop);
    var f := if side == Long then h + s - h * s else h + s + h * s;
    R.RiskNonNegative(h, s);
    SignOf(stop, f);
  }

  lemma SignOf(x: Price, f: real)
    ensures x * f >= 0.0 <==> f >= 0.0
  {
    if f >= 0.0 {
      R.Monotone(0.0, f, x);
    } else {
      R.StrictlyMonotone(f, 0.0, x);
    }
  }

  /** It is whenever the spread leaves the bid non-negative, as with the default 10 bps. */
  lemma UsualBookPessimistic(cfg: M.Config, side: Side)
    requires cfg.spreadBps <= 20000.0
    ensures Pessimistic(cfg, side)
  {
    AtMostOneTimes(cfg.spreadBps / 20000.0, cfg.slippageBps / 10000.0);
  }

  lemma AtMostOneTimes(h: NonNegative, s: NonNegative)
    requires h <= 1.0
    ensures h * s <= h + s
  {
    R.RiskNonNegative(1.0 - h, s);
    assert (1.0 - h) * s == s - h * s;
  }

  /** A spread of 300% and a slippage of 500% sell at twice the stop. */
  lemma AbsurdBookBeatsStop(cash: int, fees: CommissionModel)
    ensures StopCost(M.Config(cash, 50000.0, 30000.0, fees), Long, 100.0) == -100.0
  {
    StopCostForm(M.Config(cash, 50000.0, 30000.0, fees), Long, 100.0);
  }

  /** The loss of a position is what its price moved against it, plus both commissions. */
  lemma LossOf(cfg: M.Config, side: Side, qty: Shares, entry: int, exit: int)
    ensures -M.Net(cfg, side, qty, entry, exit)
         == (if side == Long then qty * (entry - exit) else qty * (exit - entry))
            + Commission(cfg.commission, qty, entry) + Commission(cfg.commission, qty, exit)
  {
  }

  /** Distance of the fill from the stop, on the losing side. */
  function Against(side: Side, entry: real, exit: real): real
  {
    if side == Long then entry - exit else exit - entry
  }

  lemma ExitNear(cfg: M.Config, side: Side, stop: Price)
    requires Pessimistic(cfg, side)
    ensures var exit := M.FillPrice(cfg, CloseAction(side), Synthesize(stop, cfg.spreadBps));
      -0.5 <= Against(side, stop, exit as real) <= StopCost(cfg, side, stop) + 0.5 &&
      (stop == stop.Floor as real ==> 0.0 <= Against(side, stop, exit as real))
  {
    NeverBeatsStopExactly(cfg, side, stop);
    var x := MarketFillPrice(CloseAction(side), Synthesize(stop, cfg.spreadBps), cfg.slippageBps);
    RoundNear(side, stop, x);
  }

  lemma RoundNear(side: Side, stop: real, x: real)
    requires Against(side, stop, x) >= 0.0
    ensures -0.5 <= Against(side, stop, Round(x) as real) <= Against(side, stop, x) + 0.5
    ensures stop == stop.Floor as real ==> 0.0 <= Against(side, stop, Round(x) as real)
  {
    var r := Round(x);
    assert x - 0.5 < r as real <= x + 0.5;
    if stop == stop.Floor as real {
      RoundBeside(side, stop.Floor, x);
    }
  }

  lemma RoundBeside(side: Side, stop: int, x: real)
    requires Against(side, stop as real, x) >= 0.0
    ensures Against(side, stop as real, Round(x) as real) >= 0.0
  {
    RoundWhole(stop);
    if side == Long {
      RoundMonotone(x, stop as real);
    } else {
      RoundMonotone(stop as real, x);
    }
  }

  lemma LossAmount(cfg: M.Config, side: Side, qty: Shares, entry: int, exit: int)
    ensures -M.Net(cfg, side, qty, entry, exit) as real
         == qty as real * Against(side, entry as real, exit as real)
            + (Commission(cfg.commission, qty, entry) + Commission(cfg.commission, qty, exit)) as real
  {
    LossOf(cfg, side, qty, entry, exit);
    var d: int := if side == Long then entry - exit else exit - entry;
    assert (qty * d) as real == qty as real * d as real;
  }

  // ---- The bounds ------------------------------------------------------------------------

  ghost predicate HitsStop(b: M.Bracket, bar: Candle)
  {
    b.status == M.Open && b.ticker == bar.ticker && V.ReachesStop(b, bar)
  }

  /** The commissions of the whole round trip. */
  function Commissions(cfg: M.Config, b: M.Bracket, exit: int): int
    requires b.entryPrice.Some?
  {
    Commission(cfg.commission, b.qty, b.entryPrice.value) + Commission(cfg.commission, b.qty, exit)
  }

  /** A bar that reaches the stop sells or buys back around the worse of the stop and its open, gaps included. */
  lemma StoppedAt(s: M.State, bar: Candle, k: nat, l: nat)
    requires M.At(s, k, l) && HitsStop(M.BracketAt(s, k, l), bar) && !X.BarOrThrow(s, bar).threw
    ensures M.At(X.BarOrThrow(s, bar).state, k, l)
    ensures var b, c := M.BracketAt(s, k, l), M.BracketAt(X.BarOrThrow(s, bar).state, k, l);
      var exit := ExitAround(s.cfg, b.side, V.StopOrOpen(b, bar));
      1 <= exit && c.status == M.Closed && c.exitPrice == Some(exit) && c.closedAt == Some(bar.ts) &&
      c.realized == M.Net(s.cfg, b.side, b.qty, b.entryPrice.value, exit)
  {
    var b := M.BracketAt(s, k, l);
    V.BarOnOpen(s, bar, k, l);
    V.SynthesizedAround(s.cfg, V.StopOrOpen(b, bar));
    V.ExitPriceIs(s.cfg, b.side, V.Around(s.cfg, V.StopOrOpen(b, bar)));
    V.GainIs(s.cfg, b.side, b.qty, b.entryPrice.value, ExitAround(s.cfg, b.side, V.StopOrOpen(b, bar)));
  }

  /** What the market took between the draft's entry and the fill, per share. */
  function EntrySlip(b: M.Bracket, d: R.Draft): real
    requires b.entryPrice.Some?
  {
    Against(b.side, b.entryPrice.value as real, d.entry)
  }

  /** How far past its stop a bar opens, per share; nothing if it does not gap through. */
  function Gap(b: M.Bracket, bar: Candle): (g: real)
    ensures 0.0 <= g
    ensures g == 0.0 <==> if b.side == Long then b.stop <= bar.open else bar.open <= b.stop
  {
    Against(b.side, b.stop, V.StopOrOpen(b, bar))
  }

  /** A book around a price that is not positive sells for nothing, if spread and slippage keep its sign. */
  predicate Sellable(cfg: M.Config, b: M.Bracket, bar: Candle)
  {
    0.0 < V.StopOrOpen(b, bar) || (cfg.spreadBps <= 20000.0 && cfg.slippageBps <= 10000.0)
  }

  /**
   A risk-approved position stopped out in one piece at its original stop, by a bar that
   may open past it, loses

   - at least the distance from its entry fill to the worse of stop and open on every
     share, plus both commissions (less half a cent a share when that is not in whole
     cents), and
   - at most 2% of the equity it was sized on, plus the entry slippage against the draft,
     the gap, the spread and slippage there, half a cent a share, and both commissions.
   */
  lemma StoppedLossBounds(s: M.State, bar: Candle, k: nat, l: nat, params: R.Params, d: R.Draft, ctx: R.Context)
    requires M.At(s, k, l) && HitsStop(M.BracketAt(s, k, l), bar) && !X.BarOrThrow(s, bar).threw
    requires Pessimistic(s.cfg, M.BracketAt(s, k, l).side) && Sellable(s.cfg, M.BracketAt(s, k, l), bar)
    requires R.Evaluate(R.Clamped(params), d, ctx).Approved?
    requires var b, p := M.BracketAt(s, k, l), R.Evaluate(R.Clamped(params), d, ctx).proposal;
      b.side == p.side && b.qty == p.qty && b.stop == p.stop
    ensures M.At(X.BarOrThrow(s, bar).state, k, l)
    ensures var b, c := M.BracketAt(s, k, l), M.BracketAt(X.BarOrThrow(s, bar).state, k, l);
      var reference := V.StopOrOpen(b, bar);
      c.status == M.Closed && c.exitPrice.Some? &&
      AtLeastTo(b, reference, Commissions(s.cfg, b, c.exitPrice.value), -c.realized) &&
      AtMost(b, Commissions(s.cfg, b, c.exitPrice.value), -c.realized, ctx.equity * 2.0 / 100.0, d,
             Gap(b, bar) + StopCost(s.cfg, b.side, reference))
  {
    var b := M.BracketAt(s, k, l);
    StoppedAt(s, bar, k, l);
    if V.StopOrOpen(b, bar) <= 0.0 {
      NothingSold(s.cfg, V.StopOrOpen(b, bar));
    }
    BoundsAround(s.cfg, b, V.StopOrOpen(b, bar), params, d, ctx);
  }

  lemma NothingSold(cfg: M.Config, reference: real)
    requires reference <= 0.0 && cfg.spreadBps <= 20000.0 && cfg.slippageBps <= 10000.0
    ensures ExitAround(cfg, Long, reference) <= 0
  {
    var h, s := cfg.spreadBps / 20000.0, cfg.slippageBps / 10000.0;
    assert reference * (cfg.spreadBps / 10000.0) / 2.0 == reference * h;
    var bid := Synthesize(reference, cfg.spreadBps).bid;
    assert bid == reference - reference * h;
    R.RiskNonNegative(-reference, 1.0 - h);
    assert -reference * (1.0 - h) == -bid;
    R.RiskNonNegative(-bid, 1.0 - s);
    assert MarketFillPrice(Sell, Synthesize(reference, cfg.spreadBps), cfg.slippageBps) == bid * (1.0 - s);
    assert -bid * (1.0 - s) == -(bid * (1.0 - s));
  }

  /** The fill of leaving around a price. */
  function ExitAround(cfg: M.Config, side: Side, reference: real): int
  {
    M.FillPrice(cfg, CloseAction(side), Synthesize(reference, cfg.spreadBps))
  }

  function Rounding(stop: real): real { if stop == stop.Floor as real then 0.0 else 0.5 }

  /** The distance to a price on every share, plus the fees. */
  ghost predicate AtLeastTo(b: M.Bracket, reference: real, fees: int, loss: int)
    requires b.entryPrice.Some?
  {
    var distance := Against(b.side, b.entryPrice.value as real, reference);
    b.qty as real * (distance - Rounding(reference)) + fees as real <= loss as real
  }

  /** Within a budget, plus per share: the entry slippage, the cost of leaving, half a cent; plus the fees. */
  ghost predicate AtMost(b: M.Bracket, fees: int, loss: int, budget: real, d: R.Draft, cost: real)
    requires b.entryPrice.Some?
  {
    loss as real <= budget + b.qty as real * (EntrySlip(b, d) + cost + 0.5) + fees as real
  }

  /** What the price moved against the bracket, plus the fees. */
  ghost predicate LossIs(b: M.Bracket, exit: int, fees: int, loss: int)
    requires b.entryPrice.Some?
  {
    loss as real == b.qty as real * Against(b.side, b.entryPrice.value as real, exit as real) + fees as real
  }

  lemma LossTotal(cfg: M.Config, b: M.Bracket, exit: int)
    requires b.entryPrice.Some?
    ensures LossIs(b, exit, Commissions(cfg, b, exit), -M.Net(cfg, b.side, b.qty, b.entryPrice.value, exit))
  {
    LossAmount(cfg, b.side, b.qty, b.entryPrice.value, exit);
  }

  lemma BoundsAround(cfg: M.Config, b: M.Bracket, reference: Price, params: R.Params, d: R.Draft, ctx: R.Context)
    requires Pessimistic(cfg, b.side) && b.entryPrice.Some?
    requires R.Evaluate(R.Clamped(params), d, ctx).Approved?
    requires var p := R.Evaluate(R.Clamped(params), d, ctx).proposal; b.side == p.side && b.qty == p.qty && b.stop == p.stop
    ensures var exit := ExitAround(cfg, b.side, reference);
      var (fees, loss) := (Commissions(cfg, b, exit), -M.Net(cfg, b.side, b.qty, b.entryPrice.value, exit));
      AtLeastTo(b, reference, fees, loss) &&
      AtMost(b, fees, loss, ctx.equity * 2.0 / 100.0, d, Against(b.side, b.stop, reference) + StopCost(cfg, b.side, reference))
  {
    var exit := ExitAround(cfg, b.side, reference);
    var (fees, loss) := (Commissions(cfg, b, exit), -M.Net(cfg, b.side, b.qty, b.entryPrice.value, exit));
    ExitNear(cfg, b.side, reference);
    ApprovedBudget(b, params, d, ctx);
    LossTotal(cfg, b, exit);
    LossAtLeast(b, reference, exit, fees, loss);
    LossAtMost(b, exit, fees, loss, d, Against(b.side, b.stop, reference) + StopCost(cfg, b.side, reference),
               ctx.equity * 2.0 / 100.0);
  }

  lemma ApprovedBudget(b: M.Bracket, params: R.Params, d: R.Draft, ctx: R.Context)
    requires R.Evaluate(R.Clamped(params), d, ctx).Approved?
    requires var p := R.Evaluate(R.Clamped(params), d, ctx).proposal; b.side == p.side && b.qty == p.qty && b.stop == p.stop
    ensures b.qty as real * Against(b.side, d.entry, b.stop) <= ctx.equity * 2.0 / 100.0
  {
    R.ApprovalFits(params, d, ctx, 0);
    R.ApprovedSide(R.Clamped(params), d, ctx);
    assert R.StopDistance(d) == Against(b.side, d.entry, b.stop);
  }

  lemma LossAtLeast(b: M.Bracket, reference: real, exit: int, fees: int, loss: int)
    requires b.entryPrice.Some? && LossIs(b, exit, fees, loss)
    requires -Rounding(reference) <= Against(b.side, reference, exit as real)
    ensures AtLeastTo(b, reference, fees, loss)
  {
    var entry := b.entryPrice.value as real;
    PastTheStop(b.side, entry, reference, exit as real);
    R.Monotone(Against(b.side, entry, reference) - Rounding(reference), Against(b.side, entry, exit as real), b.qty as real);
  }

  lemma PastTheStop(side: Side, entry: real, stop: real, exit: real)
    requires -Rounding(stop) <= Against(side, stop, exit)
    ensures Against(side, entry, stop) - Rounding(stop) <= Against(side, entry, exit)
  {
  }

  lemma LossAtMost(b: M.Bracket, exit: int, fees: int, loss: int, d: R.Draft, cost: real, budget: real)
    requires b.entryPrice.Some? && LossIs(b, exit, fees, loss)
    requires b.qty as real * Against(b.side, d.entry, b.stop) <= budget
    requires Against(b.side, b.stop, exit as real) <= cost + 0.5
    ensures AtMost(b, fees, loss, budget, d, cost)
  {
    var rest := EntrySlip(b, d) + cost + 0.5;
    AboveSplit(b.qty as real, Against(b.side, b.entryPrice.value as real, exit as real), Against(b.side, d.entry, b.stop), rest);
  }

  lemma AboveSplit(q: NonNegative, x: real, dist: real, rest: real)
    requires x <= dist + rest
    ensures q * x <= q * dist + q * rest
  {
    R.Monotone(x, dist + rest, q);
  }
}
