/**
 Amounts and the fill model.

 Every amount is in cents.  Booked amounts (cash, notional, commission, fill
 prices, P&L) are integers; prices that come from outside (quotes, bars, stops,
 targets) are exact reals.  Quantities are whole shares.
 */
module Money {

  /** Whole, positive share quantities. */
  type Shares = n: int | 1 <= n witness 1

  /** A positive price, in cents. */
  type Price = x: real | x > 0.0 witness 1.0

  /** A non-negative parameter. */
  type NonNegative = x: real | x >= 0.0 witness 0.0

  datatype Side = Long | Short

  datatype BidAsk = BidAsk(bid: real, ask: real)

  datatype Action = Buy | Sell

  /** The commission schedule: per share, minimum per order, cap as a fraction of value. */
  datatype CommissionModel = CommissionModel(perShare: NonNegative, minPerOrder: NonNegative, maxFraction: Price)

  /** Nearest whole cent, halves up. */
  function Round(x: real): (r: int)
    ensures x - 0.5 < r as real <= x + 0.5
  {
    (x + 0.5).Floor
  }

  lemma RoundMonotone(x: real, y: real)
    requires x <= y
    ensures Round(x) <= Round(y)
  {
  }

  lemma RoundWhole(n: int)
    ensures Round(n as real) == n
  {
  }

  function Min(x: real, y: real): real { if x <= y then x else y }

  function Max(x: real, y: real): real { if x <= y then y else x }

  /** Commission before rounding. */
  function RawCommission(m: CommissionModel, qty: Shares, price: int): real
  {
    var raw := m.perShare * qty as real;
    var cap := m.maxFraction * (qty * price) as real;
    Min(Max(raw, m.minPerOrder), cap)
  }

  function Commission(m: CommissionModel, qty: Shares, price: int): int
  {
    Round(RawCommission(m, qty, price))
  }

  function Synthesize(mark: real, spreadBps: real): BidAsk
  {
    var half := mark * (spreadBps / 10000.0) / 2.0;
    BidAsk(mark - half, mark + half)
  }

  function MarketFillPrice(action: Action, quote: BidAsk, slippageBps: real): real
  {
    var slip := slippageBps / 10000.0;
    if action == Buy then quote.ask * (1.0 + slip) else quote.bid * (1.0 - slip)
  }

  function OpenAction(side: Side): Action { if side == Long then Buy else Sell }

  function CloseAction(side: Side): Action { if side == Long then Sell else Buy }

  /** The side recorded on a fill: a buy is "long", a sell "short". */
  function FillSide(action: Action): Side { if action == Buy then Long else Short }

  /**
   Splitting an order never lowers the total commission, whatever the rate,
   the minimum and the cap.
   */
  lemma CommissionSubadditive(m: CommissionModel, a: Shares, b: Shares, price: int)
    ensures RawCommission(m, a + b, price) <= RawCommission(m, a, price) + RawCommission(m, b, price)
  {
    var c := m.maxFraction * price as real;
    CapSplits(m, a, price);
    CapSplits(m, b, price);
    CapSplits(m, a + b, price);
    ScheduleSubadditive(m.perShare, c, m.minPerOrder, a as real, b as real);
  }

  /** The schedule as a function of a quantity, for a cap of `c` per share. */
  function Schedule(p: real, c: real, least: real, x: real): real
  {
    Min(Max(p * x, least), c * x)
  }

  lemma CapSplits(m: CommissionModel, q: Shares, price: int)
    ensures RawCommission(m, q, price) == Schedule(m.perShare, m.maxFraction * price as real, m.minPerOrder, q as real)
  {
    assert (q * price) as real == q as real * price as real;
    Reorder(m.maxFraction, q as real, price as real);
  }

  lemma Reorder(f: real, q: real, price: real)
    ensures f * (q * price) == f * price * q
  {
  }

  lemma ScheduleAt(p: real, c: real, least: real, x: real, px: real, cx: real)
    requires p * x == px && c * x == cx
    ensures Schedule(p, c, least, x) == Min(Max(px, least), cx)
  {
  }

  lemma ScheduleSum(p: real, c: real, least: real, x: real, y: real, px: real, py: real, cx: real, cy: real)
    requires p * x == px && c * x == cx && p * y == py && c * y == cy
    ensures Schedule(p, c, least, x + y) == Min(Max(px + py, least), cx + cy)
  {
    Distribute(p, x, y);
    Distribute(c, x, y);
    ScheduleAt(p, c, least, x + y, px + py, cx + cy);
  }

  lemma ScheduleSubadditive(p: NonNegative, c: real, least: NonNegative, x: real, y: real)
    requires x > 0.0 && y > 0.0
    ensures Schedule(p, c, least, x + y) <= Schedule(p, c, least, x) + Schedule(p, c, least, y)
  {
    var px, py, cx, cy := p * x, p * y, c * x, c * y;
    ScheduleAt(p, c, least, x, px, cx);
    ScheduleAt(p, c, least, y, py, cy);
    ScheduleSum(p, c, least, x, y, px, py, cx, cy);
    OneSide(p, c, x, y, px, py, cx, cy);
    MinMaxSubadditive(px, py, cx, cy, least);
  }

  lemma OneSide(p: NonNegative, c: real, x: real, y: real, px: real, py: real, cx: real, cy: real)
    requires x > 0.0 && y > 0.0 && px == p * x && py == p * y && cx == c * x && cy == c * y
    ensures 0.0 <= px && 0.0 <= py && ((px <= cx && py <= cy) || (cx <= px && cy <= py))
  {
    Scales(p, c, x);
    Scales(p, c, y);
  }

  lemma Distribute(k: real, x: real, y: real)
    ensures k * (x + y) == k * x + k * y
  {
  }

  lemma Scales(p: NonNegative, c: real, x: real)
    requires x > 0.0
    ensures 0.0 <= p * x
    ensures p <= c ==> p * x <= c * x
    ensures c <= p ==> c * x <= p * x
  {
    assert c - p >= 0.0 ==> (c - p) * x >= 0.0;
    assert p - c >= 0.0 ==> (p - c) * x >= 0.0;
    assert (c - p) * x == c * x - p * x;
    assert (p - c) * x == p * x - c * x;
  }

  lemma MinMaxSubadditive(px: real, py: real, cx: real, cy: real, least: real)
    requires 0.0 <= px && 0.0 <= py && 0.0 <= least
    requires (px <= cx && py <= cy) || (cx <= px && cy <= py)
    ensures Min(Max(px + py, least), cx + cy) <= Min(Max(px, least), cx) + Min(Max(py, least), cy)
  {
  }

  /** A buy never fills below the ask, nor a sell above the bid, in a non-negative book, crossed or not. */
  lemma NeverFillsInside(quote: BidAsk, slippageBps: NonNegative)
    requires 0.0 <= quote.bid && 0.0 <= quote.ask
    ensures MarketFillPrice(Sell, quote, slippageBps) <= quote.bid
    ensures quote.ask <= MarketFillPrice(Buy, quote, slippageBps)
  {
    var slip := slippageBps / 10000.0;
    assert quote.ask * (1.0 + slip) == quote.ask + quote.ask * slip;
    assert quote.bid * (1.0 - slip) == quote.bid - quote.bid * slip;
  }

  /** The rate per share, unless the minimum is higher; and the cap, where that is lower than both would be. */
  lemma CommissionExactly(m: CommissionModel, qty: Shares, price: int)
    ensures var rate, cap := m.perShare * qty as real, m.maxFraction * (qty * price) as real;
      (m.minPerOrder <= rate <= cap ==> Commission(m, qty, price) == Round(rate)) &&
      (rate <= m.minPerOrder <= cap ==> Commission(m, qty, price) == Round(m.minPerOrder)) &&
      (cap <= rate || cap <= m.minPerOrder ==> Commission(m, qty, price) == Round(cap))
  {
  }
}
