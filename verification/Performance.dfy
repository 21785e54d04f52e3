/** Per-strategy performance of closed trades, in cents. */
module Performance {
  import opened Market
  import opened Money
  import opened Sorting

  datatype Trade = Trade(realized: int, qty: Shares, entryPrice: real, stop: Option<real>, closedAt: int)

  datatype EquityPoint = EquityPoint(t: int, equity: int)

  datatype Stats = Stats(
    trades: nat, wins: nat, losses: nat, winRate: real, avgR: real,
    totalPnl: int, maxDrawdown: int, curve: seq<EquityPoint>)

  const EMPTY := Stats(0, 0, 0, 0.0, 0.0, 0, 0, [])

  function Distance(x: real, y: real): real { if x < y then y - x else x - y }

  /** How many times its initial risk, to the stop, a trade made or lost; none without a stop or without risk. */
  function RMultiple(t: Trade): Option<real>
  {
    if t.stop.None? then None else
    var risk := Distance(t.entryPrice, t.stop.value) * t.qty as real;
    if risk == 0.0 then None else Some(t.realized as real / risk)
  }

  predicate ClosedBy(a: Trade, b: Trade)
  {
    a.closedAt <= b.closedAt
  }

  function InCloseOrder(ts: seq<Trade>): seq<Trade>
  {
    Sort(ClosedBy, ts)
  }

  // ---- Reference definitions ---------------------------------------------------------

  function Total(ts: seq<Trade>): int
  {
    if |ts| == 0 then 0 else Total(ts[..|ts| - 1]) + ts[|ts| - 1].realized
  }

  function Wins(ts: seq<Trade>): nat
  {
    if |ts| == 0 then 0 else Wins(ts[..|ts| - 1]) + if ts[|ts| - 1].realized > 0 then 1 else 0
  }

  function Losses(ts: seq<Trade>): nat
  {
    if |ts| == 0 then 0 else Losses(ts[..|ts| - 1]) + if ts[|ts| - 1].realized < 0 then 1 else 0
  }

  function Measured(ts: seq<Trade>): nat
  {
    if |ts| == 0 then 0 else Measured(ts[..|ts| - 1]) + if RMultiple(ts[|ts| - 1]).Some? then 1 else 0
  }

  function SumR(ts: seq<Trade>): real
  {
    if |ts| == 0 then 0.0 else SumR(ts[..|ts| - 1]) + GetOr(RMultiple(ts[|ts| - 1]), 0.0)
  }

  /** The level of the curve after the first `n` trades; it starts at zero. */
  function Level(ts: seq<Trade>, n: nat): int
    requires n <= |ts|
  {
    Total(ts[..n])
  }

  /** `d` is the largest fall, up to trade `n`, from any earlier level of the curve, the starting zero included. */
  ghost predicate FallUpTo(ts: seq<Trade>, n: nat, d: int)
    requires n <= |ts|
  {
    (forall i, j :: 0 <= i <= j <= n ==> Level(ts, i) - Level(ts, j) <= d) &&
    (exists i, j :: 0 <= i <= j <= n && Level(ts, i) - Level(ts, j) == d)
  }

  ghost predicate LargestFall(ts: seq<Trade>, d: int)
  {
    FallUpTo(ts, |ts|, d)
  }

  /** The highest level of the curve so far, the starting zero included. */
  ghost predicate HighWater(ts: seq<Trade>, n: nat, peak: int)
    requires n <= |ts|
  {
    (forall i :: 0 <= i <= n ==> Level(ts, i) <= peak) && (exists i :: 0 <= i <= n && Level(ts, i) == peak)
  }

  lemma NoFallYet(ts: seq<Trade>)
    ensures HighWater(ts, 0, 0) && FallUpTo(ts, 0, 0)
  {
    assert Level(ts, 0) == 0;
    assert Level(ts, 0) - Level(ts, 0) == 0;
  }

  lemma NextHighWater(ts: seq<Trade>, n: nat, peak: int)
    requires n < |ts| && HighWater(ts, n, peak)
    ensures HighWater(ts, n + 1, if peak < Level(ts, n + 1) then Level(ts, n + 1) else peak)
  {
  }

  /** Measuring from the high-water mark is enough. */
  lemma NextFall(ts: seq<Trade>, n: nat, peak: int, d: int)
    requires n < |ts| && HighWater(ts, n + 1, peak) && FallUpTo(ts, n, d)
    ensures FallUpTo(ts, n + 1, if d < peak - Level(ts, n + 1) then peak - Level(ts, n + 1) else d)
  {
    var i :| 0 <= i <= n + 1 && Level(ts, i) == peak;
    assert Level(ts, i) - Level(ts, n + 1) == peak - Level(ts, n + 1);
  }

  ghost predicate CurveUpTo(ts: seq<Trade>, n: nat, curve: seq<EquityPoint>)
    requires n <= |ts|
  {
    |curve| == n && forall i :: 0 <= i < n ==> curve[i] == EquityPoint(ts[i].closedAt, Level(ts, i + 1))
  }

  ghost predicate CurveOf(ts: seq<Trade>, curve: seq<EquityPoint>)
  {
    CurveUpTo(ts, |ts|, curve)
  }

  // ---- The running totals of the loop -----------------------------------------------------

  datatype Running = Running(
    wins: nat, losses: nat, rSum: real, rCount: nat, equity: int, peak: int, maxDrawdown: int, curve: seq<EquityPoint>)

  const START := Running(0, 0, 0.0, 0, 0, 0, 0, [])

  function Next(r: Running, t: Trade): Running
  {
    var equity := r.equity + t.realized;
    var peak := if r.peak < equity then equity else r.peak;
    Running(
      if t.realized > 0 then r.wins + 1 else r.wins,
      if t.realized < 0 then r.losses + 1 else r.losses,
      if RMultiple(t).Some? then r.rSum + RMultiple(t).value else r.rSum,
      if RMultiple(t).Some? then r.rCount + 1 else r.rCount,
      equity, peak,
      if r.maxDrawdown < peak - equity then peak - equity else r.maxDrawdown,
      r.curve + [EquityPoint(t.closedAt, equity)])
  }

  function After(ts: seq<Trade>): Running
  {
    if |ts| == 0 then START else Next(After(ts[..|ts| - 1]), ts[|ts| - 1])
  }

  lemma {:induction false} AfterTallies(ts: seq<Trade>)
    ensures var r := After(ts);
      r.wins == Wins(ts) && r.losses == Losses(ts) && r.rSum == SumR(ts) && r.rCount == Measured(ts) &&
      r.equity == Total(ts)
  {
    if |ts| > 0 {
      AfterTallies(ts[..|ts| - 1]);
    }
  }

  lemma Prefixes(ts: seq<Trade>, n: nat)
    requires n < |ts|
    ensures forall i :: 0 <= i <= n ==> Level(ts[..n], i) == Level(ts, i)
    ensures Level(ts, |ts|) == Total(ts)
  {
    forall i | 0 <= i <= n ensures Level(ts[..n], i) == Level(ts, i) {
      assert ts[..n][..i] == ts[..i];
    }
    assert ts[..|ts|] == ts;
  }

  lemma {:induction false} AfterFalls(ts: seq<Trade>)
    ensures HighWater(ts, |ts|, After(ts).peak) && FallUpTo(ts, |ts|, After(ts).maxDrawdown)
  {
    if |ts| == 0 {
      NoFallYet(ts);
    } else {
      var n, before := |ts| - 1, After(ts[..|ts| - 1]);
      AfterFalls(ts[..n]);
      AfterTallies(ts);
      Prefixes(ts, n);
      SameFalls(ts[..n], ts, n, before.peak, before.maxDrawdown);
      NextHighWater(ts, n, before.peak);
      NextFall(ts, n, After(ts).peak, before.maxDrawdown);
    }
  }

  lemma SameFalls(ss: seq<Trade>, ts: seq<Trade>, n: nat, peak: int, d: int)
    requires n <= |ss| && n <= |ts| && forall i :: 0 <= i <= n ==> Level(ss, i) == Level(ts, i)
    requires HighWater(ss, n, peak) && FallUpTo(ss, n, d)
    ensures HighWater(ts, n, peak) && FallUpTo(ts, n, d)
  {
    var h :| 0 <= h <= n && Level(ss, h) == peak;
    assert Level(ts, h) == peak;
    var i, j :| 0 <= i <= j <= n && Level(ss, i) - Level(ss, j) == d;
    assert Level(ts, i) - Level(ts, j) == d;
    forall k, l | 0 <= k <= l <= n ensures Level(ts, k) - Level(ts, l) <= d {
      assert Level(ss, k) - Level(ss, l) <= d;
    }
  }

  lemma {:induction false} AfterCurve(ts: seq<Trade>)
    ensures CurveOf(ts, After(ts).curve)
  {
    if |ts| > 0 {
      AfterCurve(ts[..|ts| - 1]);
      AfterTallies(ts);
      Prefixes(ts, |ts| - 1);
    }
  }

  lemma AfterDescribes(trades: seq<Trade>)
    ensures var ts := InCloseOrder(trades);
      var r := After(ts);
      |ts| == |trades| && r.wins == Wins(ts) && r.losses == Losses(ts) && r.rSum == SumR(ts) && r.rCount == Measured(ts) &&
      r.equity == Total(ts) && CurveOf(ts, r.curve) && LargestFall(ts, r.maxDrawdown)
  {
    var ts := InCloseOrder(trades);
    SortPermutes(ClosedBy, trades);
    AfterTallies(ts);
    AfterFalls(ts);
    AfterCurve(ts);
  }

  /**
   The statistics of the trades in close order: counts, the mean R over the trades
   that risked something, the prefix sums as the equity curve, and as drawdown the
   largest fall from any earlier point of the curve or from zero.
   */
  ghost predicate Describes(s: Stats, trades: seq<Trade>)
  {
    var ts := InCloseOrder(trades);
    s.trades == |trades| && s.wins == Wins(ts) && s.losses == Losses(ts) &&
    s.totalPnl == Total(ts) && CurveOf(ts, s.curve) && LargestFall(ts, s.maxDrawdown) &&
    s.winRate == Ratio(Wins(ts) as real, |trades|) && s.avgR == Ratio(SumR(ts), Measured(ts))
  }

  method ComputePerformance(trades: seq<Trade>) returns (s: Stats)
    ensures Describes(s, trades)
  {
    var ordered := InCloseOrder(trades);
    if |trades| == 0 {
      AfterDescribes(trades);
      return EMPTY;
    }
    var wins, losses, totalPnl, rSum, rCount := 0, 0, 0, 0.0, 0;
    var equity, peak, maxDrawdown, curve := 0, 0, 0, [];
    for n := 0 to |ordered|
      invariant Running(wins, losses, rSum, rCount, equity, peak, maxDrawdown, curve) == After(ordered[..n])
      invariant totalPnl == equity
    {
      var trade := ordered[n];
      assert ordered[..n + 1][..n] == ordered[..n];
      if trade.realized > 0 {
        wins := wins + 1;
      } else if trade.realized < 0 {
        losses := losses + 1;
      }
      totalPnl := totalPnl + trade.realized;
      var r := RMultiple(trade);
      if r.Some? {
        rSum := rSum + r.value;
        rCount := rCount + 1;
      }
      equity := equity + trade.realized;
      if peak < equity {
        peak := equity;
      }
      if maxDrawdown < peak - equity {
        maxDrawdown := peak - equity;
      }
      curve := curve + [EquityPoint(trade.closedAt, equity)];
    }
    assert ordered[..|ordered|] == ordered;
    AfterDescribes(trades);
    s := Stats(|ordered|, wins, losses, Ratio(wins as real, |ordered|), Ratio(rSum, rCount), totalPnl, maxDrawdown, curve);
  }

  /** A mean, zero over nothing. */
  function Ratio(sum: real, n: nat): (r: real)
    ensures n > 0 ==> r * n as real == sum
    ensures n == 0 ==> r == 0.0
  {
    if n == 0 then 0.0 else sum / n as real
  }

  // ---- Order does not change totals -------------------------------------------------------

  lemma {:induction false} InsertTotals(ts: seq<Trade>, t: Trade)
    ensures Total(Insert(ClosedBy, ts, t)) == Total(ts) + t.realized
  {
    if |ts| > 0 {
      var rest, last := ts[..|ts| - 1], ts[|ts| - 1];
      if ClosedBy(last, t) {
        assert (ts + [t])[..|ts|] == ts;
      } else {
        InsertTotals(rest, t);
        var zs := Insert(ClosedBy, rest, t);
        assert (zs + [last])[..|zs|] == zs;
      }
    }
  }

  /** The total is that of the trades in whatever order they came. */
  lemma {:induction false} TotalAnyOrder(ts: seq<Trade>)
    ensures Total(InCloseOrder(ts)) == Total(ts)
  {
    if |ts| > 0 {
      TotalAnyOrder(ts[..|ts| - 1]);
      InsertTotals(InCloseOrder(ts[..|ts| - 1]), ts[|ts| - 1]);
    }
  }

  /** The curve has a point per trade and ends at the total of the trades. */
  lemma CurveEnds(trades: seq<Trade>, curve: seq<EquityPoint>)
    requires |trades| > 0 && CurveOf(InCloseOrder(trades), curve)
    ensures |curve| == |trades| && curve[|trades| - 1].equity == Total(trades)
  {
    var ts := InCloseOrder(trades);
    TotalAnyOrder(trades);
    SortPermutes(ClosedBy, trades);
    assert ts[..|ts|] == ts;
  }

  /** The curve runs in close order. */
  lemma CurveInOrder(trades: seq<Trade>, curve: seq<EquityPoint>, i: nat, j: nat)
    requires CurveOf(InCloseOrder(trades), curve) && i < j < |curve|
    ensures curve[i].t <= curve[j].t
  {
    SortSorted(ClosedBy, trades);
    assert ClosedBy(InCloseOrder(trades)[i], InCloseOrder(trades)[j]);
  }

  /** No fall between two points of the curve, nor from zero, exceeds the drawdown. */
  lemma DrawdownBounds(ts: seq<Trade>, curve: seq<EquityPoint>, d: int, i: nat, j: nat)
    requires CurveOf(ts, curve) && LargestFall(ts, d) && i <= j < |curve|
    ensures d >= 0 && curve[i].equity - curve[j].equity <= d && -curve[j].equity <= d
  {
    assert Level(ts, 0) == 0;
    assert Level(ts, 0) - Level(ts, 0) <= d;
    assert Level(ts, i + 1) - Level(ts, j + 1) <= d;
    assert Level(ts, 0) - Level(ts, j + 1) <= d;
  }

  // ---- Counting and measuring ------------------------------------------------------------------------

  function WinPlaces(ts: seq<Trade>): set<nat>
  {
    set i: nat | i < |ts| && ts[i].realized > 0
  }

  function LossPlaces(ts: seq<Trade>): set<nat>
  {
    set i: nat | i < |ts| && ts[i].realized < 0
  }

  function MeasuredPlaces(ts: seq<Trade>): set<nat>
  {
    set i: nat | i < |ts| && ts[i].stop.Some? && ts[i].stop.value != ts[i].entryPrice
  }

  lemma PlacesOn(ts: seq<Trade>)
    requires |ts| > 0
    ensures var rest, last := ts[..|ts| - 1], |ts| - 1;
      WinPlaces(ts) == WinPlaces(rest) + (if ts[last].realized > 0 then {last} else {}) &&
      LossPlaces(ts) == LossPlaces(rest) + (if ts[last].realized < 0 then {last} else {}) &&
      MeasuredPlaces(ts) ==
        MeasuredPlaces(rest) + if ts[last].stop.Some? && ts[last].stop.value != ts[last].entryPrice then {last} else {}
  {
  }

  /** A win made money, a loss lost some; only a trade with a stop off its entry has an R. */
  lemma {:induction false} CountsExactly(ts: seq<Trade>)
    ensures Wins(ts) == |WinPlaces(ts)| && Losses(ts) == |LossPlaces(ts)| && Measured(ts) == |MeasuredPlaces(ts)|
  {
    if |ts| > 0 {
      CountsExactly(ts[..|ts| - 1]);
      PlacesOn(ts);
      MeasuredExactly(ts[|ts| - 1]);
    }
  }

  lemma MeasuredExactly(t: Trade)
    ensures RMultiple(t).Some? <==> t.stop.Some? && t.stop.value != t.entryPrice
  {
    if t.stop.Some? && t.stop.value != t.entryPrice {
      PositiveRisk(Distance(t.entryPrice, t.stop.value), t.qty as real);
    }
  }

  lemma PositiveRisk(d: real, q: real)
    requires d > 0.0 && q > 0.0
    ensures d * q > 0.0
  {
  }

  /** The R of a trade, times the distance to its stop on every share, is what the trade realized. */
  lemma RTimesRisk(t: Trade)
    requires t.stop.Some? && t.stop.value != t.entryPrice
    ensures RMultiple(t).Some?
    ensures var d := if t.stop.value < t.entryPrice then t.entryPrice - t.stop.value else t.stop.value - t.entryPrice;
      RMultiple(t).value * (d * t.qty as real) == t.realized as real
  {
    MeasuredExactly(t);
    var risk := Distance(t.entryPrice, t.stop.value) * t.qty as real;
    Undivided(t.realized as real, risk);
  }

  lemma Undivided(x: real, d: real)
    requires d != 0.0
    ensures x / d * d == x
  {
  }

  /** Trades that closed at the same time stay in the order they were given. */
  lemma TiesInOrder(trades: seq<Trade>, t: Trade)
    ensures Tied(ClosedBy, InCloseOrder(trades), t) == Tied(ClosedBy, trades, t)
  {
    SortStable(ClosedBy, trades, t);
  }
}
