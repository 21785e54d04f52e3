/** Driving historical bars through the pipeline, tick by tick. */
module Replay {
  import opened Market
  import opened Lex
  import opened Sorting

  // ---- Bars and ticks ---------------------------------------------------------------

  /** By timestamp, then ticker. */
  function CompareBars(a: Candle, b: Candle): int
  {
    if a.ts != b.ts then a.ts - b.ts
    else if a.ticker == b.ticker then 0
    else if LexLe(Codes(a.ticker), Codes(b.ticker)) then -1 else 1
  }

  predicate BarLe(a: Candle, b: Candle)
  {
    CompareBars(a, b) <= 0
  }

  datatype Tick = Tick(ts: int, bars: seq<Candle>)

  function Ticks(bars: seq<Candle>): seq<Tick>
  {
    if |bars| == 0 then [] else
    var rest, b := Ticks(bars[..|bars| - 1]), bars[|bars| - 1];
    if |rest| > 0 && rest[|rest| - 1].ts == b.ts
    then rest[..|rest| - 1] + [Tick(b.ts, rest[|rest| - 1].bars + [b])]
    else rest + [Tick(b.ts, [b])]
  }

  method GroupIntoTicks(sorted: seq<Candle>) returns (ticks: seq<Tick>)
    ensures ticks == Ticks(sorted)
  {
    ticks := [];
    for n := 0 to |sorted|
      invariant ticks == Ticks(sorted[..n])
    {
      assert sorted[..n + 1][..n] == sorted[..n];
      var bar := sorted[n];
      if |ticks| == 0 || ticks[|ticks| - 1].ts != bar.ts {
        ticks := ticks + [Tick(bar.ts, [bar])];
      } else {
        var current := ticks[|ticks| - 1];
        ticks := ticks[..|ticks| - 1] + [current.(bars := current.bars + [bar])];
      }
    }
    assert sorted[..|sorted|] == sorted;
  }

  function TicksOf(raw: seq<Candle>): seq<Tick>
  {
    Ticks(Sort(BarLe, raw))
  }

  function Flatten(ticks: seq<Tick>): seq<Candle>
  {
    if |ticks| == 0 then [] else Flatten(ticks[..|ticks| - 1]) + ticks[|ticks| - 1].bars
  }

  ghost predicate OneInstant(t: Tick)
  {
    |t.bars| > 0 && forall l :: 0 <= l < |t.bars| ==> t.bars[l].ts == t.ts
  }

  /** The last tick is stamped like the last bar. */
  lemma TicksLast(bars: seq<Candle>)
    requires |bars| > 0
    ensures |Ticks(bars)| > 0 && Ticks(bars)[|Ticks(bars)| - 1].ts == bars[|bars| - 1].ts
  {
  }

  /** A tick holds the bars of one instant. */
  lemma {:induction false} TicksUniform(bars: seq<Candle>)
    ensures forall k :: 0 <= k < |Ticks(bars)| ==> OneInstant(Ticks(bars)[k])
  {
    if |bars| > 0 {
      TicksUniform(bars[..|bars| - 1]);
    }
  }

  /** Nothing is lost, repeated or reordered. */
  lemma {:induction false} TicksPartition(bars: seq<Candle>)
    ensures Flatten(Ticks(bars)) == bars
  {
    if |bars| > 0 {
      var before, b := bars[..|bars| - 1], bars[|bars| - 1];
      TicksPartition(before);
      assert bars == before + [b];
      LastBar(before, b);
    }
  }

  lemma LastBar(before: seq<Candle>, b: Candle)
    ensures Flatten(Ticks(before + [b])) == Flatten(Ticks(before)) + [b]
  {
    var rest := Ticks(before);
    assert (before + [b])[..|before|] == before;
    if |rest| > 0 && rest[|rest| - 1].ts == b.ts {
      var init, last := rest[..|rest| - 1], rest[|rest| - 1];
      assert rest == init + [last];
      FlattenMerged(init, last, b);
    } else {
      FlattenOn(rest, Tick(b.ts, [b]));
    }
  }

  lemma FlattenMerged(init: seq<Tick>, last: Tick, b: Candle)
    ensures Flatten(init + [Tick(b.ts, last.bars + [b])]) == Flatten(init + [last]) + [b]
  {
    FlattenOn(init, Tick(b.ts, last.bars + [b]));
    FlattenOn(init, last);
  }

  lemma FlattenOn(ticks: seq<Tick>, t: Tick)
    ensures Flatten(ticks + [t]) == Flatten(ticks) + t.bars
  {
    assert (ticks + [t])[..|ticks|] == ticks;
  }

  /** Over sorted bars the ticks step strictly forward in time. */
  lemma {:induction false} TicksAdvance(bars: seq<Candle>)
    requires forall i, j :: 0 <= i < j < |bars| ==> bars[i].ts <= bars[j].ts
    ensures forall i, j :: 0 <= i < j < |Ticks(bars)| ==> Ticks(bars)[i].ts < Ticks(bars)[j].ts
  {
    if |bars| > 0 {
      var before := bars[..|bars| - 1];
      TicksAdvance(before);
      LastTickLater(bars);
    }
  }

  /** The last bar leaves the earlier stamps alone, and stamps nothing before them. */
  lemma LastTickLater(bars: seq<Candle>)
    requires |bars| > 0 && forall i, j :: 0 <= i < j < |bars| ==> bars[i].ts <= bars[j].ts
    ensures var rest, all := Ticks(bars[..|bars| - 1]), Ticks(bars);
      |rest| <= |all| <= |rest| + 1 && (forall k :: 0 <= k < |rest| ==> all[k].ts == rest[k].ts) &&
      (|rest| > 0 && |all| > |rest| ==> rest[|rest| - 1].ts < all[|rest|].ts)
  {
    var before := bars[..|bars| - 1];
    if |before| > 0 {
      TicksLast(before);
      assert before[|before| - 1].ts <= bars[|bars| - 1].ts;
    }
  }

  // ---- The comparison is a total order ---------------------------------------------------

  lemma CompareTotal(a: Candle, b: Candle)
    ensures BarLe(a, b) || BarLe(b, a)
  {
    LexTotal(Codes(a.ticker), Codes(b.ticker));
  }

  lemma CompareTransitive(a: Candle, b: Candle, c: Candle)
    requires BarLe(a, b) && BarLe(b, c)
    ensures BarLe(a, c)
  {
    if a.ts == b.ts == c.ts && a.ticker != b.ticker && b.ticker != c.ticker {
      LexTransitive(Codes(a.ticker), Codes(b.ticker), Codes(c.ticker));
    }
  }

  lemma CompareTies(a: Candle, b: Candle)
    requires BarLe(a, b) && BarLe(b, a)
    ensures a.ts == b.ts && a.ticker == b.ticker
  {
    if a.ts == b.ts && a.ticker != b.ticker {
      LexAntisymmetric(Codes(a.ticker), Codes(b.ticker));
      CodesInjective(a.ticker, b.ticker);
    }
  }

  lemma BarOrder()
    ensures TotalPreorder(BarLe)
  {
    forall a, b ensures BarLe(a, b) || BarLe(b, a) { CompareTotal(a, b); }
    forall a, b, c | BarLe(a, b) && BarLe(b, c) ensures BarLe(a, c) { CompareTransitive(a, b, c); }
  }

  /** Bars unique by time and ticker. */
  ghost predicate UniqueBars(bars: seq<Candle>)
  {
    forall a, b :: a in multiset(bars) && b in multiset(bars) && a.ts == b.ts && a.ticker == b.ticker ==> a == b
  }

  lemma UniqueNeverTie(bars: seq<Candle>)
    requires UniqueBars(bars)
    ensures NoTies(BarLe, bars)
  {
    forall a, b | a in multiset(bars) && b in multiset(bars) && BarLe(a, b) && BarLe(b, a)
      ensures a == b
    {
      CompareTies(a, b);
    }
  }

  /** The order in which the source returns the bars makes no difference. */
  lemma SourceOrderForgotten(raw: seq<Candle>, other: seq<Candle>)
    requires multiset(raw) == multiset(other) && UniqueBars(raw)
    ensures TicksOf(raw) == TicksOf(other)
  {
    BarOrder();
    UniqueNeverTie(raw);
    SortForgetsOrder(BarLe, raw, other);
  }

  // ---- The engine -----------------------------------------------------------------------------

  /** The stored candles a decision at `now` may see, in storage order. */
  function Visible(store: seq<Candle>, now: int): seq<Candle>
  {
    if |store| == 0 then [] else
    var rest := Visible(store[..|store| - 1], now);
    if store[|store| - 1].ts <= now then rest + [store[|store| - 1]] else rest
  }

  /**
   The collaborators as arbitrary functions of the state, the clock and the visible
   candles: feeding a bar, and the three pipeline steps of a tick.
   */
  datatype Machine<!W> = Machine(
    onBar: (W, Candle) -> W,
    monitor: (W, int, seq<Candle>) -> W,
    scan: (W, int, seq<Candle>) -> W,
    sweep: (W, int, seq<Candle>) -> W)

  function Fed<W>(m: Machine<W>, w: W, bars: seq<Candle>): W
  {
    if |bars| == 0 then w else m.onBar(Fed(m, w, bars[..|bars| - 1]), bars[|bars| - 1])
  }

  function TickStep<W>(m: Machine<W>, store: seq<Candle>, w: W, tick: Tick): W
  {
    var seen := Visible(store, tick.ts);
    m.sweep(m.scan(m.monitor(Fed(m, w, tick.bars), tick.ts, seen), tick.ts, seen), tick.ts, seen)
  }

  function After<W>(m: Machine<W>, store: seq<Candle>, w: W, ticks: seq<Tick>): W
  {
    if |ticks| == 0 then w
    else TickStep(m, store, After(m, store, w, ticks[..|ticks| - 1]), ticks[|ticks| - 1])
  }

  function PacingDelay(prev: int, next: int, speed: real): real
  {
    var gap := next - prev;
    if gap <= 0 then 0.0 else gap as real / (if speed < 1.0 then 1.0 else speed)
  }

  datatype Result = Result(ticks: nat, barsProcessed: nat, tickTimestamps: seq<int>)

  class ReplayEngine<!W> {
    const machine: Machine<W>
    const store: seq<Candle>
    var clock: int
    var world: W
    /** Wall-clock time the pacer was asked to wait, in milliseconds. */
    var waited: real

    constructor (machine: Machine<W>, store: seq<Candle>, world: W)
      ensures this.machine == machine && this.store == store && this.world == world
    {
      this.machine, this.store, this.world, clock, waited := machine, store, world, 0, 0.0;
    }

    /** One tick: set the clock, feed the bars, then monitor, scan and sweep. */
    method RunTick(tick: Tick) returns (fed: nat)
      modifies this`clock, this`world
      ensures clock == tick.ts && fed == |tick.bars|
      ensures world == TickStep(machine, store, old(world), tick)
    {
      clock := tick.ts;
      fed := 0;
      for j := 0 to |tick.bars|
        invariant world == Fed(machine, old(world), tick.bars[..j])
        invariant fed == j && clock == tick.ts
      {
        assert tick.bars[..j + 1][..j] == tick.bars[..j];
        world := machine.onBar(world, tick.bars[j]);
        fed := fed + 1;
      }
      assert tick.bars[..|tick.bars|] == tick.bars;
      world := machine.monitor(world, clock, Visible(store, clock));
      world := machine.scan(world, clock, Visible(store, clock));
      world := machine.sweep(world, clock, Visible(store, clock));
    }

    method Run(raw: seq<Candle>, speed: real) returns (result: Result)
      modifies this
      ensures world == After(machine, store, old(world), TicksOf(raw))
      ensures result.barsProcessed == |raw| && result.ticks == |TicksOf(raw)|
      ensures result.tickTimestamps == Timestamps(TicksOf(raw))
      ensures waited == old(waited) + DelayAfter(TicksOf(raw), |TicksOf(raw)|, speed)
    {
      var sorted := Sort(BarLe, raw);
      var ticks := GroupIntoTicks(sorted);
      var timestamps: seq<int> := [];
      var bars := 0;
      for i := 0 to |ticks|
        invariant world == After(machine, store, old(world), ticks[..i])
        invariant bars == |Flatten(ticks[..i])|
        invariant timestamps == Timestamps(ticks[..i])
        invariant waited == old(waited) + DelayAfter(ticks, i, speed)
      {
        OneMoreTick(machine, store, old(world), ticks, i);
        var fed := RunTick(ticks[i]);
        bars := bars + fed;
        timestamps := timestamps + [ticks[i].ts];
        if i + 1 < |ticks| {
          waited := waited + PacingDelay(ticks[i].ts, ticks[i + 1].ts, speed);
        }
      }
      assert ticks[..|ticks|] == ticks;
      EveryBarFed(raw);
      result := Result(|ticks|, bars, timestamps);
    }
  }

  lemma EveryBarFed(raw: seq<Candle>)
    ensures |Flatten(TicksOf(raw))| == |raw|
  {
    SortPermutes(BarLe, raw);
    TicksPartition(Sort(BarLe, raw));
  }

  /** What one more tick adds to a run. */
  lemma OneMoreTick<W>(m: Machine<W>, store: seq<Candle>, w: W, ticks: seq<Tick>, i: nat)
    requires i < |ticks|
    ensures After(m, store, w, ticks[..i + 1]) == TickStep(m, store, After(m, store, w, ticks[..i]), ticks[i])
    ensures |Flatten(ticks[..i + 1])| == |Flatten(ticks[..i])| + |ticks[i].bars|
    ensures Timestamps(ticks[..i + 1]) == Timestamps(ticks[..i]) + [ticks[i].ts]
  {
    assert ticks[..i + 1][..i] == ticks[..i];
  }

  function Timestamps(ticks: seq<Tick>): seq<int>
  {
    if |ticks| == 0 then [] else Timestamps(ticks[..|ticks| - 1]) + [ticks[|ticks| - 1].ts]
  }

  /** The waits after each of the first `n` ticks; there is none after the last. */
  function DelayAfter(ticks: seq<Tick>, n: nat, speed: real): real
    requires n <= |ticks|
  {
    if n == 0 then 0.0
    else DelayAfter(ticks, n - 1, speed)
         + if n < |ticks| then PacingDelay(ticks[n - 1].ts, ticks[n].ts, speed) else 0.0
  }

  /** The waits add up to the replayed span, compressed by the speed. */
  lemma {:induction false} DelaysTelescope(ticks: seq<Tick>, n: nat, speed: real)
    requires 0 < n <= |ticks| && forall i, j :: 0 <= i < j < |ticks| ==> ticks[i].ts < ticks[j].ts
    ensures var reached := if n < |ticks| then ticks[n].ts else ticks[n - 1].ts;
      DelayAfter(ticks, n, speed) == (reached - ticks[0].ts) as real / (if speed < 1.0 then 1.0 else speed)
  {
    if n > 1 {
      DelaysTelescope(ticks, n - 1, speed);
      if n < |ticks| {
        SumOver((ticks[n - 1].ts - ticks[0].ts) as real, (ticks[n].ts - ticks[n - 1].ts) as real,
                if speed < 1.0 then 1.0 else speed);
      }
    }
  }

  lemma SortedByTime(raw: seq<Candle>)
    ensures |Sort(BarLe, raw)| == |raw|
    ensures forall i, j :: 0 <= i < j < |raw| ==> Sort(BarLe, raw)[i].ts <= Sort(BarLe, raw)[j].ts
  {
    BarOrder();
    SortSorted(BarLe, raw);
    SortPermutes(BarLe, raw);
    var sorted := Sort(BarLe, raw);
    forall i, j | 0 <= i < j < |raw| ensures sorted[i].ts <= sorted[j].ts {
      assert BarLe(sorted[i], sorted[j]);
    }
  }

  /** A replay takes its span of simulated time, compressed by the speed. */
  lemma ReplayPacing(raw: seq<Candle>, speed: real)
    requires |raw| > 0
    ensures var ticks := TicksOf(raw);
      |ticks| > 0 && (forall i, j :: 0 <= i < j < |ticks| ==> ticks[i].ts < ticks[j].ts) &&
      DelayAfter(ticks, |ticks|, speed)
      == (ticks[|ticks| - 1].ts - ticks[0].ts) as real / (if speed < 1.0 then 1.0 else speed)
  {
    var sorted := Sort(BarLe, raw);
    SortedByTime(raw);
    TicksAdvance(sorted);
    TicksLast(sorted);
    DelaysTelescope(TicksOf(raw), |TicksOf(raw)|, speed);
  }

  lemma SumOver(a: real, b: real, d: real)
    requires d > 0.0
    ensures a / d + b / d == (a + b) / d
  {
  }

  // ---- No lookahead ---------------------------------------------------------------------------------

  lemma {:induction false} VisibleTwice(store: seq<Candle>, now: int, horizon: int)
    requires now <= horizon
    ensures Visible(Visible(store, horizon), now) == Visible(store, now)
  {
    if |store| > 0 {
      var rest, c := store[..|store| - 1], store[|store| - 1];
      VisibleTwice(rest, now, horizon);
      assert (Visible(rest, horizon) + [c])[..|Visible(rest, horizon)|] == Visible(rest, horizon);
    }
  }

  /** The bars of a window: one timeframe, both ends included. */
  function Window(store: seq<Candle>, timeframe: string, from: int, to: int): seq<Candle>
  {
    if |store| == 0 then [] else
    var rest, c := Window(store[..|store| - 1], timeframe, from, to), store[|store| - 1];
    if c.timeframe == timeframe && from <= c.ts <= to then rest + [c] else rest
  }

  lemma {:induction false} WindowVisible(store: seq<Candle>, timeframe: string, from: int, to: int, horizon: int)
    requires horizon <= to
    ensures Visible(Window(store, timeframe, from, to), horizon) == Window(Visible(store, horizon), timeframe, from, horizon)
  {
    if |store| > 0 {
      var rest, c := store[..|store| - 1], store[|store| - 1];
      WindowVisible(rest, timeframe, from, to, horizon);
      var wr, vr := Window(rest, timeframe, from, to), Visible(rest, horizon);
      assert (wr + [c])[..|wr|] == wr;
      assert (vr + [c])[..|vr|] == vr;
    }
  }

  lemma {:induction false} WindowWithin(store: seq<Candle>, timeframe: string, from: int, to: int)
    ensures forall c :: c in multiset(Window(store, timeframe, from, to)) ==> c.ts <= to
    ensures Visible(Window(store, timeframe, from, to), to) == Window(store, timeframe, from, to)
  {
    if |store| > 0 {
      var rest, c := store[..|store| - 1], store[|store| - 1];
      WindowWithin(rest, timeframe, from, to);
      var wr := Window(rest, timeframe, from, to);
      assert (wr + [c])[..|wr|] == wr;
    }
  }

  /** Shortening the window to its end, or forgetting later candles, is the same selection. */
  lemma WindowPrefix(a: seq<Candle>, b: seq<Candle>, timeframe: string, from: int, toA: int, toB: int)
    requires toA <= toB && Visible(a, toA) == Visible(b, toA)
    ensures Window(a, timeframe, from, toA) == Visible(Window(b, timeframe, from, toB), toA)
  {
    WindowVisible(b, timeframe, from, toB, toA);
    WindowVisible(a, timeframe, from, toA, toA);
    WindowWithin(a, timeframe, from, toA);
  }

  /** How many leading bars fall at or before the horizon. */
  function Cut(bars: seq<Candle>, horizon: int): (n: nat)
    ensures n <= |bars|
    ensures forall i :: 0 <= i < n ==> bars[i].ts <= horizon
    ensures n < |bars| ==> bars[n].ts > horizon
  {
    if |bars| == 0 || bars[0].ts > horizon then 0 else 1 + Cut(bars[1..], horizon)
  }

  /** In sorted bars, those up to the horizon come first. */
  lemma {:induction false} VisibleIsPrefix(bars: seq<Candle>, horizon: int, n: nat)
    requires n <= |bars|
    requires forall i :: 0 <= i < n ==> bars[i].ts <= horizon
    requires forall i :: n <= i < |bars| ==> bars[i].ts > horizon
    ensures Visible(bars, horizon) == bars[..n]
  {
    if |bars| > 0 {
      var rest := bars[..|bars| - 1];
      VisibleIsPrefix(rest, horizon, if n == |bars| then n - 1 else n);
      if n == |bars| {
        assert rest[..n - 1] == rest;
        assert bars[..n] == rest + [bars[n - 1]];
      } else {
        assert rest[..n] == bars[..n];
      }
    }
  }

  lemma {:induction false} VisibleMultiset(xs: seq<Candle>, ys: seq<Candle>, horizon: int)
    requires multiset(xs) == multiset(ys)
    ensures multiset(Visible(xs, horizon)) == multiset(Visible(ys, horizon))
  {
    forall c ensures multiset(Visible(xs, horizon))[c] == multiset(Visible(ys, horizon))[c] {
      VisibleCount(xs, horizon, c);
      VisibleCount(ys, horizon, c);
    }
  }

  lemma {:induction false} VisibleCount(xs: seq<Candle>, horizon: int, c: Candle)
    ensures multiset(Visible(xs, horizon))[c] == if c.ts <= horizon then multiset(xs)[c] else 0
  {
    if |xs| > 0 {
      VisibleCount(xs[..|xs| - 1], horizon, c);
      assert xs == xs[..|xs| - 1] + [xs[|xs| - 1]];
    }
  }

  lemma SortedCut(all: seq<Candle>, horizon: int)
    ensures var sorted := Sort(BarLe, all);
      (forall i :: Cut(sorted, horizon) <= i < |sorted| ==> sorted[i].ts > horizon) &&
      multiset(sorted[..Cut(sorted, horizon)]) == multiset(Visible(all, horizon)) &&
      Sorted(BarLe, sorted[..Cut(sorted, horizon)])
  {
    BarOrder();
    var sorted := Sort(BarLe, all);
    var n := Cut(sorted, horizon);
    SortPermutes(BarLe, all);
    SortSorted(BarLe, all);
    forall i | n <= i < |sorted| ensures sorted[i].ts > horizon {
      assert i == n || BarLe(sorted[n], sorted[i]);
    }
    VisibleIsPrefix(sorted, horizon, n);
    VisibleMultiset(sorted, all, horizon);
  }

  lemma {:induction false} VisibleSubset(xs: seq<Candle>, horizon: int)
    ensures forall c :: c in multiset(Visible(xs, horizon)) ==> c in multiset(xs)
  {
    forall c | c in multiset(Visible(xs, horizon)) ensures c in multiset(xs) {
      VisibleCount(xs, horizon, c);
    }
  }

  /** The bars up to a horizon, sorted, are the leading part of all the bars, sorted. */
  lemma SortedPrefix(part: seq<Candle>, all: seq<Candle>, horizon: int)
    requires multiset(part) == multiset(Visible(all, horizon)) && UniqueBars(all)
    ensures var sorted := Sort(BarLe, all);
      Sort(BarLe, part) == sorted[..Cut(sorted, horizon)]
  {
    var sorted := Sort(BarLe, all);
    var first := sorted[..Cut(sorted, horizon)];
    SortedCut(all, horizon);
    VisibleSubset(all, horizon);
    UniqueNeverTie(first);
    BarOrder();
    SortPermutes(BarLe, part);
    SortSorted(BarLe, part);
    SortedUnique(BarLe, first, Sort(BarLe, part));
  }

  /** Ticks of the first bars are the first ticks, when the rest lies later. */
  lemma {:induction false} TicksOfPrefix(bars: seq<Candle>, n: nat)
    requires n <= |bars|
    requires forall i, j :: 0 <= i < n <= j < |bars| ==> bars[i].ts < bars[j].ts
    ensures Ticks(bars[..n]) <= Ticks(bars)
  {
    if n == |bars| {
      assert bars[..n] == bars;
    } else {
      var rest := bars[..|bars| - 1];
      assert rest[..n] == bars[..n];
      TicksOfPrefix(rest, n);
      if n > 0 {
        TicksLast(rest);
        TicksLast(bars[..n]);
      }
    }
  }

  lemma {:induction false} AfterSameView<W>(m: Machine<W>, a: seq<Candle>, b: seq<Candle>, w: W, ticks: seq<Tick>, horizon: int)
    requires Visible(a, horizon) == Visible(b, horizon)
    requires forall k :: 0 <= k < |ticks| ==> ticks[k].ts <= horizon
    ensures After(m, a, w, ticks) == After(m, b, w, ticks)
  {
    if |ticks| > 0 {
      var last := ticks[|ticks| - 1];
      AfterSameView(m, a, b, w, ticks[..|ticks| - 1], horizon);
      VisibleTwice(a, last.ts, horizon);
      VisibleTwice(b, last.ts, horizon);
    }
  }

  /**
   Replay is causal: adding later candles to the store or extending the window leaves
   the ticks of the shorter replay, and the state after each of them, as they were,
   in whatever order the source returns its bars.
   */
  lemma NoLookahead<W>(
      m: Machine<W>, w: W, a: seq<Candle>, b: seq<Candle>, timeframe: string, from: int, toA: int, toB: int,
      rawA: seq<Candle>, rawB: seq<Candle>, n: nat)
    requires toA <= toB && Visible(a, toA) == Visible(b, toA)
    requires multiset(rawA) == multiset(Window(a, timeframe, from, toA))
    requires multiset(rawB) == multiset(Window(b, timeframe, from, toB)) && UniqueBars(rawB)
    requires n <= |TicksOf(rawA)|
    ensures TicksOf(rawA) <= TicksOf(rawB)
    ensures After(m, a, w, TicksOf(rawA)[..n]) == After(m, b, w, TicksOf(rawB)[..n])
  {
    WindowPrefix(a, b, timeframe, from, toA, toB);
    VisibleMultiset(rawB, Window(b, timeframe, from, toB), toA);
    ShorterReplay(rawA, rawB, toA);
    assert TicksOf(rawA)[..n] == TicksOf(rawB)[..n];
    AfterSameView(m, a, b, w, TicksOf(rawA)[..n], toA);
  }

  /** The ticks of the bars up to a horizon come first, and lie within it. */
  lemma ShorterReplay(part: seq<Candle>, all: seq<Candle>, horizon: int)
    requires multiset(part) == multiset(Visible(all, horizon)) && UniqueBars(all)
    ensures TicksOf(part) <= TicksOf(all)
    ensures forall k :: 0 <= k < |TicksOf(part)| ==> TicksOf(part)[k].ts <= horizon
  {
    var sorted := Sort(BarLe, all);
    var cut := Cut(sorted, horizon);
    SortedPrefix(part, all, horizon);
    SortedCut(all, horizon);
    TicksOfPrefix(sorted, cut);
    TicksWithin(sorted[..cut], horizon);
  }

  lemma TicksWithin(bars: seq<Candle>, horizon: int)
    requires forall i :: 0 <= i < |bars| ==> bars[i].ts <= horizon
    ensures forall k :: 0 <= k < |Ticks(bars)| ==> Ticks(bars)[k].ts <= horizon
  {
    TicksPartition(bars);
    TicksUniform(bars);
    forall k | 0 <= k < |Ticks(bars)| ensures Ticks(bars)[k].ts <= horizon {
      assert OneInstant(Ticks(bars)[k]);
      var c := Ticks(bars)[k].bars[0];
      FlattenHas(Ticks(bars), k, 0);
      assert c in bars;
    }
  }

  lemma {:induction false} FlattenHas(ticks: seq<Tick>, k: nat, l: nat)
    requires k < |ticks| && l < |ticks[k].bars|
    ensures ticks[k].bars[l] in Flatten(ticks)
  {
    if k < |ticks| - 1 {
      FlattenHas(ticks[..|ticks| - 1], k, l);
    }
  }

  // ---- In which order ---------------------------------------------------------------------------------

  /** Bars come by time, and at one time by ticker in code-unit order. */
  lemma BarOrderExactly(a: Candle, b: Candle)
    ensures BarLe(a, b) <==>
      a.ts < b.ts || (a.ts == b.ts && exists k: nat :: SmallerAt(Codes(a.ticker), Codes(b.ticker), k))
  {
    LexExactly(Codes(a.ticker), Codes(b.ticker));
    if a.ticker == b.ticker {
      LexTotal(Codes(a.ticker), Codes(b.ticker));
    }
  }

  /** Visible is what is stamped now or before, each as often as it is stored, in storage order. */
  lemma VisibleExactly(store: seq<Candle>, now: int, c: Candle)
    ensures multiset(Visible(store, now))[c] == if c.ts <= now then multiset(store)[c] else 0
    ensures Visible(store + [c], now) == Visible(store, now) + if c.ts <= now then [c] else []
  {
    VisibleCount(store, now, c);
    assert (store + [c])[..|store|] == store;
  }

  /** What happened, for a machine that writes everything down. */
  datatype Deed = FedBar(bar: Candle) | Monitored(at: int) | Scanned(at: int) | Swept(at: int)

  function Recorder(): Machine<seq<Deed>>
  {
    Machine((w, bar) => w + [FedBar(bar)], (w, now, seen) => w + [Monitored(now)],
            (w, now, seen) => w + [Scanned(now)], (w, now, seen) => w + [Swept(now)])
  }

  function Feeds(bars: seq<Candle>): seq<Deed>
  {
    if |bars| == 0 then [] else Feeds(bars[..|bars| - 1]) + [FedBar(bars[|bars| - 1])]
  }

  lemma {:induction false} FedInOrder(w: seq<Deed>, bars: seq<Candle>)
    ensures Fed(Recorder(), w, bars) == w + Feeds(bars)
  {
    if |bars| > 0 {
      FedInOrder(w, bars[..|bars| - 1]);
    }
  }

  /** A tick feeds its bars in order, then monitors, then scans, then sweeps, all at its own time. */
  lemma TickInOrder(store: seq<Candle>, w: seq<Deed>, tick: Tick)
    ensures TickStep(Recorder(), store, w, tick)
         == w + Feeds(tick.bars) + [Monitored(tick.ts), Scanned(tick.ts), Swept(tick.ts)]
  {
    FedInOrder(w, tick.bars);
  }
}
