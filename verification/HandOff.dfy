/**
 The hand-off of closed trades from the SIM exchange to the governor, under any
 interleaving of closes, monitor ticks, auto entries and cooldown clears.
 */
module HandOff {
  import opened Market
  import opened Money
  import M = SimModel
  import G = Governor

  /** What the governor was told, in order; every touch of its counters leaves a note. */
  datatype Note =
    | Result(trade: M.ClosedTrade, demote: bool)
    | Entered(strategy: StrategyId, at: int)
    | Denied(strategy: StrategyId, at: int)
    | Cleared(strategy: StrategyId, at: int)
    | Asked(strategy: StrategyId, at: int)

  datatype World = World(counts: G.Counts, buffer: seq<M.ClosedTrade>, notes: seq<Note>)

  datatype Event =
    | Close(trade: M.ClosedTrade)
    | Monitor(strategy: StrategyId)
    | AutoEntry(strategy: StrategyId, now: int)
    | Clear(strategy: StrategyId, now: int)
    | Ask(strategy: StrategyId, now: int)

  function Subject(n: Note): StrategyId
  {
    if n.Result? then n.trade.strategy else n.strategy
  }

  function DayOf(n: Note): int
  {
    G.UtcDay(if n.Result? then n.trade.at else n.at)
  }

  /** Feed one closed trade to the governor, at the time it closed. */
  function Feed(p: G.Params, w: World, t: M.ClosedTrade): World
  {
    var (c, demote) := G.WithResult(p, G.StateFor(w.counts, t.strategy, t.at), t.realized);
    w.(counts := w.counts[t.strategy := c], notes := w.notes + [Result(t, demote)])
  }

  function FeedAll(p: G.Params, w: World, ts: seq<M.ClosedTrade>): World
  {
    if |ts| == 0 then w else Feed(p, FeedAll(p, w, ts[..|ts| - 1]), ts[|ts| - 1])
  }

  function Step(p: G.Params, w: World, e: Event): World
  {
    match e
    case Close(t) => w.(buffer := w.buffer + [t])
    case Monitor(x) => FeedAll(p, w.(buffer := M.NotOf(x, w.buffer)), M.Of(x, w.buffer))
    case AutoEntry(x, now) =>
      var c := G.StateFor(w.counts, x, now);
      if G.Admit(p, c) == G.Allowed
      then w.(counts := w.counts[x := G.WithEntry(c)], notes := w.notes + [Entered(x, now)])
      else w.(counts := w.counts[x := c], notes := w.notes + [Denied(x, now)])
    case Clear(x, now) =>
      w.(counts := w.counts[x := G.Recovered(G.StateFor(w.counts, x, now))], notes := w.notes + [Cleared(x, now)])
    case Ask(x, now) =>
      w.(counts := w.counts[x := G.StateFor(w.counts, x, now)], notes := w.notes + [Asked(x, now)])
  }

  function Run(p: G.Params, es: seq<Event>): World
  {
    if |es| == 0 then World(map[], [], []) else Step(p, Run(p, es[..|es| - 1]), es[|es| - 1])
  }

  // ---- Reading the notes back --------------------------------------------------------

  /** The trades of a strategy the governor has been fed. */
  function Delivered(x: StrategyId, ns: seq<Note>): seq<M.ClosedTrade>
  {
    if |ns| == 0 then [] else
    var rest, n := Delivered(x, ns[..|ns| - 1]), ns[|ns| - 1];
    if n.Result? && n.trade.strategy == x then rest + [n.trade] else rest
  }

  /** The trades that closed, in order. */
  function Closes(es: seq<Event>): seq<M.ClosedTrade>
  {
    if |es| == 0 then [] else
    var rest, e := Closes(es[..|es| - 1]), es[|es| - 1];
    if e.Close? then rest + [e.trade] else rest
  }

  /** The trailing run of losses since the last win or cooldown clear. */
  function Streak(x: StrategyId, ns: seq<Note>): nat
  {
    if |ns| == 0 then 0 else
    var rest, n := Streak(x, ns[..|ns| - 1]), ns[|ns| - 1];
    if Subject(n) != x then rest
    else if n.Cleared? then 0
    else if n.Result? then (if n.trade.realized < 0 then rest + 1 else 0)
    else rest
  }

  /** Whether some result since the last clear brought the streak to the threshold. */
  function Tripped(p: G.Params, x: StrategyId, ns: seq<Note>): bool
  {
    if |ns| == 0 then false else
    var rest, n := Tripped(p, x, ns[..|ns| - 1]), ns[|ns| - 1];
    if Subject(n) != x then rest
    else if n.Cleared? then false
    else if n.Result? then rest || Streak(x, ns) >= p.maxConsecutiveLosses
    else rest
  }

  /** How often demotion fired since the last clear. */
  function Demotions(x: StrategyId, ns: seq<Note>): nat
  {
    if |ns| == 0 then 0 else
    var rest, n := Demotions(x, ns[..|ns| - 1]), ns[|ns| - 1];
    if Subject(n) != x then rest
    else if n.Cleared? then 0
    else if n.Result? && n.demote then rest + 1
    else rest
  }

  function LastDay(x: StrategyId, ns: seq<Note>): Option<int>
  {
    if |ns| == 0 then None else
    if Subject(ns[|ns| - 1]) == x then Some(DayOf(ns[|ns| - 1])) else LastDay(x, ns[..|ns| - 1])
  }

  /** Entries of a strategy since its notes last changed day, in either direction. */
  function EntriesThisDay(x: StrategyId, ns: seq<Note>): nat
  {
    if |ns| == 0 then 0 else
    var before, n := ns[..|ns| - 1], ns[|ns| - 1];
    if Subject(n) != x then EntriesThisDay(x, before) else
    var rest := if LastDay(x, before) == Some(DayOf(n)) then EntriesThisDay(x, before) else 0;
    if n.Entered? then rest + 1 else rest
  }

  function EntriesOn(x: StrategyId, day: int, ns: seq<Note>): nat
  {
    if |ns| == 0 then 0 else
    var rest, n := EntriesOn(x, day, ns[..|ns| - 1]), ns[|ns| - 1];
    if n.Entered? && n.strategy == x && DayOf(n) == day then rest + 1 else rest
  }

  // ---- The counters say what the notes say ----------------------------------------------

  ghost predicate Faithful(p: G.Params, w: World, x: StrategyId)
  {
    if x !in w.counts then
      LastDay(x, w.notes).None? && Streak(x, w.notes) == 0 && !Tripped(p, x, w.notes) && Demotions(x, w.notes) == 0
    else
      var c := w.counts[x];
      LastDay(x, w.notes) == Some(c.day) &&
      c.losses == Streak(x, w.notes) &&
      c.demoted == Tripped(p, x, w.notes) &&
      Demotions(x, w.notes) == (if c.demoted then 1 else 0) &&
      c.tradesToday == EntriesThisDay(x, w.notes) &&
      (p.maxTradesPerDay >= 0 ==> c.tradesToday <= p.maxTradesPerDay)
  }

  lemma NoteOn(ns: seq<Note>, n: Note)
    ensures (ns + [n])[..|ns|] == ns
  {
  }

  lemma FeedFaithful(p: G.Params, w: World, t: M.ClosedTrade, x: StrategyId)
    requires Faithful(p, w, x)
    ensures Faithful(p, Feed(p, w, t), x)
  {
    var (c, demote) := G.WithResult(p, G.StateFor(w.counts, t.strategy, t.at), t.realized);
    NoteOn(w.notes, Result(t, demote));
  }

  lemma {:induction false} FeedAllFaithful(p: G.Params, w: World, ts: seq<M.ClosedTrade>, x: StrategyId)
    requires Faithful(p, w, x)
    ensures Faithful(p, FeedAll(p, w, ts), x) && FeedAll(p, w, ts).buffer == w.buffer
  {
    if |ts| > 0 {
      FeedAllFaithful(p, w, ts[..|ts| - 1], x);
      FeedFaithful(p, FeedAll(p, w, ts[..|ts| - 1]), ts[|ts| - 1], x);
    }
  }

  lemma EntryFaithful(p: G.Params, w: World, y: StrategyId, now: int, x: StrategyId)
    requires Faithful(p, w, x)
    ensures Faithful(p, Step(p, w, AutoEntry(y, now)), x)
  {
    if G.Admit(p, G.StateFor(w.counts, y, now)) == G.Allowed {
      NoteOn(w.notes, Entered(y, now));
    } else {
      NoteOn(w.notes, Denied(y, now));
    }
  }

  lemma ClearFaithful(p: G.Params, w: World, y: StrategyId, now: int, x: StrategyId)
    requires Faithful(p, w, x)
    ensures Faithful(p, Step(p, w, Clear(y, now)), x)
  {
    NoteOn(w.notes, Cleared(y, now));
  }

  lemma AskFaithful(p: G.Params, w: World, y: StrategyId, now: int, x: StrategyId)
    requires Faithful(p, w, x)
    ensures Faithful(p, Step(p, w, Ask(y, now)), x)
  {
    NoteOn(w.notes, Asked(y, now));
  }

  lemma StepFaithful(p: G.Params, w: World, e: Event, x: StrategyId)
    requires Faithful(p, w, x)
    ensures Faithful(p, Step(p, w, e), x)
  {
    match e
    case Close(t) =>
    case Monitor(y) => FeedAllFaithful(p, w.(buffer := M.NotOf(y, w.buffer)), M.Of(y, w.buffer), x);
    case AutoEntry(y, now) => EntryFaithful(p, w, y, now, x);
    case Clear(y, now) => ClearFaithful(p, w, y, now, x);
    case Ask(y, now) => AskFaithful(p, w, y, now, x);
  }

  /**
   After any run: the loss count is the trailing run of losses, the strategy is
   demoted exactly when that run has reached the threshold since the last clear,
   demotion has then fired once, and the daily count is the entries since the last
   change of day, never above the cap.
   */
  lemma {:induction false} CountersFaithful(p: G.Params, es: seq<Event>, x: StrategyId)
    ensures Faithful(p, Run(p, es), x)
  {
    if |es| > 0 {
      CountersFaithful(p, es[..|es| - 1], x);
      StepFaithful(p, Run(p, es[..|es| - 1]), es[|es| - 1], x);
    }
  }

  // ---- Who is let in --------------------------------------------------------------------------------

  /** The entries a strategy has on a day since that day was last come to. */
  function Spent(x: StrategyId, day: int, ns: seq<Note>): nat
  {
    if LastDay(x, ns) == Some(day) then EntriesThisDay(x, ns) else 0
  }

  /** Refused on the strength of the notes alone: tripped, or the day's cap spent. */
  predicate Refused(p: G.Params, x: StrategyId, day: int, ns: seq<Note>)
  {
    Tripped(p, x, ns) || p.maxTradesPerDay <= Spent(x, day, ns)
  }

  lemma EntryDecided(p: G.Params, w: World, x: StrategyId, now: int)
    requires Faithful(p, w, x)
    ensures Step(p, w, AutoEntry(x, now)).notes
         == w.notes + [if Refused(p, x, G.UtcDay(now), w.notes) then Denied(x, now) else Entered(x, now)]
  {
  }

  /** After any run, an auto entry is denied exactly when the strategy is tripped or its entries of the day are at the cap. */
  lemma EntryDeniedExactly(p: G.Params, es: seq<Event>, x: StrategyId, now: int)
    ensures var ns := Run(p, es).notes;
      Run(p, es + [AutoEntry(x, now)]).notes
      == ns + [if Refused(p, x, G.UtcDay(now), ns) then Denied(x, now) else Entered(x, now)]
  {
    RunOn(p, es, AutoEntry(x, now));
    CountersFaithful(p, es, x);
    EntryDecided(p, Run(p, es), x, now);
  }

  /** Every entry noted so far came to a strategy that was not refused, and every denial to one that was. */
  ghost predicate Deserved(p: G.Params, ns: seq<Note>)
  {
    forall i :: 0 <= i < |ns| ==>
      (ns[i].Entered? ==> !Refused(p, Subject(ns[i]), DayOf(ns[i]), ns[..i])) &&
      (ns[i].Denied? ==> Refused(p, Subject(ns[i]), DayOf(ns[i]), ns[..i]))
  }

  lemma DeservedOn(p: G.Params, ns: seq<Note>, n: Note)
    requires Deserved(p, ns)
    requires n.Entered? ==> !Refused(p, Subject(n), DayOf(n), ns)
    requires n.Denied? ==> Refused(p, Subject(n), DayOf(n), ns)
    ensures Deserved(p, ns + [n])
  {
    var more := ns + [n];
    forall i | 0 <= i < |more|
      ensures (more[i].Entered? ==> !Refused(p, Subject(more[i]), DayOf(more[i]), more[..i])) &&
              (more[i].Denied? ==> Refused(p, Subject(more[i]), DayOf(more[i]), more[..i]))
    {
      if i < |ns| {
        assert more[i] == ns[i] && more[..i] == ns[..i];
      } else {
        assert more[..i] == ns;
      }
    }
  }

  lemma {:induction false} FeedAllDeserved(p: G.Params, w: World, ts: seq<M.ClosedTrade>)
    requires Deserved(p, w.notes)
    ensures Deserved(p, FeedAll(p, w, ts).notes)
  {
    if |ts| > 0 {
      var v, t := FeedAll(p, w, ts[..|ts| - 1]), ts[|ts| - 1];
      FeedAllDeserved(p, w, ts[..|ts| - 1]);
      var (c, demote) := G.WithResult(p, G.StateFor(v.counts, t.strategy, t.at), t.realized);
      DeservedOn(p, v.notes, Result(t, demote));
    }
  }

  /**
   In every run: no entry is noted while its strategy is tripped or its day's cap is
   spent, and no denial while it is neither.
   */
  lemma {:induction false} RunDeserved(p: G.Params, es: seq<Event>)
    ensures Deserved(p, Run(p, es).notes)
  {
    if |es| > 0 {
      var w, e := Run(p, es[..|es| - 1]), es[|es| - 1];
      RunDeserved(p, es[..|es| - 1]);
      match e
      case Close(t) =>
      case Monitor(x) => FeedAllDeserved(p, w.(buffer := M.NotOf(x, w.buffer)), M.Of(x, w.buffer));
      case AutoEntry(x, now) =>
        CountersFaithful(p, es[..|es| - 1], x);
        EntryDecided(p, w, x, now);
        DeservedOn(p, w.notes, if Refused(p, x, G.UtcDay(now), w.notes) then Denied(x, now) else Entered(x, now));
      case Clear(x, now) => DeservedOn(p, w.notes, Cleared(x, now));
      case Ask(x, now) => DeservedOn(p, w.notes, Asked(x, now));
    }
  }

  // ---- Every closed trade reaches the governor once, in close order -------------------------

  lemma {:induction false} FeedAllDelivers(p: G.Params, w: World, ts: seq<M.ClosedTrade>, x: StrategyId)
    ensures Delivered(x, FeedAll(p, w, ts).notes) == Delivered(x, w.notes) + M.Of(x, ts)
    ensures FeedAll(p, w, ts).buffer == w.buffer
  {
    if |ts| > 0 {
      var v, t := FeedAll(p, w, ts[..|ts| - 1]), ts[|ts| - 1];
      FeedAllDelivers(p, w, ts[..|ts| - 1], x);
      var (c, demote) := G.WithResult(p, G.StateFor(v.counts, t.strategy, t.at), t.realized);
      NoteOn(v.notes, Result(t, demote));
    }
  }

  /** A tick of one strategy's monitor hands its trades over and leaves the rest in the buffer. */
  lemma MonitorDelivers(p: G.Params, w: World, y: StrategyId, x: StrategyId)
    ensures Delivered(x, Step(p, w, Monitor(y)).notes) + M.Of(x, Step(p, w, Monitor(y)).buffer)
         == Delivered(x, w.notes) + M.Of(x, w.buffer)
  {
    FeedAllDelivers(p, w.(buffer := M.NotOf(y, w.buffer)), M.Of(y, w.buffer), x);
    M.OfSplits(y, x, w.buffer);
  }

  lemma StepDelivers(p: G.Params, w: World, e: Event, x: StrategyId)
    ensures Delivered(x, Step(p, w, e).notes) + M.Of(x, Step(p, w, e).buffer)
         == Delivered(x, w.notes) + M.Of(x, w.buffer)
            + if e.Close? && e.trade.strategy == x then [e.trade] else []
  {
    match e
    case Close(t) => assert (w.buffer + [t])[..|w.buffer|] == w.buffer;
    case Monitor(y) => MonitorDelivers(p, w, y, x);
    case AutoEntry(y, now) =>
      NoteOn(w.notes, Entered(y, now));
      NoteOn(w.notes, Denied(y, now));
    case Clear(y, now) => NoteOn(w.notes, Cleared(y, now));
    case Ask(y, now) => NoteOn(w.notes, Asked(y, now));
  }

  /**
   What a strategy's governor has been told, followed by what still waits in the
   buffer, is what closed: each trade exactly once, in close order.
   */
  lemma {:induction false} DeliveredExactlyOnce(p: G.Params, es: seq<Event>, x: StrategyId)
    ensures Delivered(x, Run(p, es).notes) + M.Of(x, Run(p, es).buffer) == M.Of(x, Closes(es))
  {
    if |es| > 0 {
      var rest, e := es[..|es| - 1], es[|es| - 1];
      DeliveredExactlyOnce(p, rest, x);
      StepDelivers(p, Run(p, rest), e, x);
      if e.Close? {
        assert (Closes(rest) + [e.trade])[..|Closes(rest)|] == Closes(rest);
      }
    }
  }

  /** So a monitor tick leaves nothing of its strategy behind. */
  lemma MonitorCatchesUp(p: G.Params, es: seq<Event>, x: StrategyId)
    ensures Delivered(x, Run(p, es + [Monitor(x)]).notes) == M.Of(x, Closes(es))
  {
    var w := Run(p, es);
    assert (es + [Monitor(x)])[..|es|] == es;
    DeliveredExactlyOnce(p, es, x);
    FeedAllDelivers(p, w.(buffer := M.NotOf(x, w.buffer)), M.Of(x, w.buffer), x);
    M.OfSplits(x, x, w.buffer);
  }

  // ---- The days the governor's clock comes to --------------------------------------------------

  /** The trades of a strategy that closed since it was last monitored. */
  function Waiting(x: StrategyId, es: seq<Event>): seq<M.ClosedTrade>
  {
    if |es| == 0 then [] else
    var rest, e := Waiting(x, es[..|es| - 1]), es[|es| - 1];
    if e.Close? && e.trade.strategy == x then rest + [e.trade]
    else if e.Monitor? && e.strategy == x then []
    else rest
  }

  function CloseDays(ts: seq<M.ClosedTrade>): seq<int>
  {
    seq(|ts|, i requires 0 <= i < |ts| => G.UtcDay(ts[i].at))
  }

  /** The days at which a run of events turns to a strategy's counters, in order. */
  function Touches(x: StrategyId, es: seq<Event>): seq<int>
  {
    if |es| == 0 then [] else
    var before, e := es[..|es| - 1], es[|es| - 1];
    Touches(x, before) +
    match e
    case Close(_) => []
    case Monitor(y) => if y == x then CloseDays(Waiting(x, before)) else []
    case AutoEntry(y, now) => if y == x then [G.UtcDay(now)] else []
    case Clear(y, now) => if y == x then [G.UtcDay(now)] else []
    case Ask(y, now) => if y == x then [G.UtcDay(now)] else []
  }

  /** How often a sequence of days comes to a day from another one. */
  function Arrivals(day: int, ds: seq<int>): nat
  {
    if |ds| == 0 then 0 else
    Arrivals(day, ds[..|ds| - 1]) + if ds[|ds| - 1] == day && (|ds| == 1 || ds[|ds| - 2] != day) then 1 else 0
  }

  function NoteDays(x: StrategyId, ns: seq<Note>): seq<int>
  {
    if |ns| == 0 then [] else
    NoteDays(x, ns[..|ns| - 1]) + if Subject(ns[|ns| - 1]) == x then [DayOf(ns[|ns| - 1])] else []
  }

  lemma MonitorTakes(p: G.Params, w: World, y: StrategyId, x: StrategyId)
    ensures M.Of(x, Step(p, w, Monitor(y)).buffer) == if x == y then [] else M.Of(x, w.buffer)
  {
    FeedAllDelivers(p, w.(buffer := M.NotOf(y, w.buffer)), M.Of(y, w.buffer), x);
    M.OfSplits(y, x, w.buffer);
  }

  lemma {:induction false} BufferWaits(p: G.Params, es: seq<Event>, x: StrategyId)
    ensures M.Of(x, Run(p, es).buffer) == Waiting(x, es)
  {
    if |es| > 0 {
      var rest, e := es[..|es| - 1], es[|es| - 1];
      BufferWaits(p, rest, x);
      match e
      case Close(t) => M.OfAppend(x, Run(p, rest).buffer, t);
      case Monitor(y) => MonitorTakes(p, Run(p, rest), y, x);
      case _ =>
    }
  }

  lemma {:induction false} FeedAllDays(p: G.Params, w: World, ts: seq<M.ClosedTrade>, y: StrategyId, x: StrategyId)
    requires forall i :: 0 <= i < |ts| ==> ts[i].strategy == y
    ensures NoteDays(x, FeedAll(p, w, ts).notes) == NoteDays(x, w.notes) + if y == x then CloseDays(ts) else []
  {
    if |ts| > 0 {
      var v, t := FeedAll(p, w, ts[..|ts| - 1]), ts[|ts| - 1];
      FeedAllDays(p, w, ts[..|ts| - 1], y, x);
      NoteOn(v.notes, Feed(p, v, t).notes[|v.notes|]);
      assert CloseDays(ts) == CloseDays(ts[..|ts| - 1]) + [G.UtcDay(t.at)];
    }
  }

  lemma {:induction false} OfOwn(x: StrategyId, ts: seq<M.ClosedTrade>)
    ensures forall i :: 0 <= i < |M.Of(x, ts)| ==> M.Of(x, ts)[i].strategy == x
  {
    if |ts| > 0 {
      OfOwn(x, ts[..|ts| - 1]);
    }
  }

  /** The notes of a run carry exactly the days its events give. */
  lemma {:induction false} TouchesNoted(p: G.Params, es: seq<Event>, x: StrategyId)
    ensures NoteDays(x, Run(p, es).notes) == Touches(x, es)
  {
    if |es| > 0 {
      var rest, e := es[..|es| - 1], es[|es| - 1];
      var w := Run(p, rest);
      TouchesNoted(p, rest, x);
      match e
      case Close(t) =>
      case Monitor(y) =>
        BufferWaits(p, rest, x);
        OfOwn(y, w.buffer);
        FeedAllDays(p, w.(buffer := M.NotOf(y, w.buffer)), M.Of(y, w.buffer), y, x);
      case AutoEntry(y, now) => OneTouch(p, w, e, x);
      case Clear(y, now) => OneTouch(p, w, e, x);
      case Ask(y, now) => OneTouch(p, w, e, x);
    }
  }

  lemma OneTouch(p: G.Params, w: World, e: Event, x: StrategyId)
    requires e.AutoEntry? || e.Clear? || e.Ask?
    ensures NoteDays(x, Step(p, w, e).notes) == NoteDays(x, w.notes) + if e.strategy == x then [G.UtcDay(e.now)] else []
  {
    NoteOn(w.notes, Step(p, w, e).notes[|w.notes|]);
  }

  lemma ArrivalsOn(day: int, ds: seq<int>, d: int)
    ensures Arrivals(day, ds + [d]) == Arrivals(day, ds) + if d == day && (|ds| == 0 || ds[|ds| - 1] != day) then 1 else 0
  {
    assert (ds + [d])[..|ds|] == ds;
  }

  lemma {:induction false} VisitsArrive(x: StrategyId, day: int, ns: seq<Note>)
    ensures Visits(x, day, ns) == Arrivals(day, NoteDays(x, ns))
    ensures LastDay(x, ns) ==
      if |NoteDays(x, ns)| == 0 then None else Some(NoteDays(x, ns)[|NoteDays(x, ns)| - 1])
  {
    if |ns| > 0 {
      var before := ns[..|ns| - 1];
      VisitsArrive(x, day, before);
      if Subject(ns[|ns| - 1]) == x {
        ArrivalsOn(day, NoteDays(x, before), DayOf(ns[|ns| - 1]));
      } else {
        assert NoteDays(x, ns) == NoteDays(x, before);
      }
    }
  }

  // ---- The daily cap -----------------------------------------------------------------------------

  /** How often the notes of a strategy came to a day from another one. */
  function Visits(x: StrategyId, day: int, ns: seq<Note>): nat
  {
    if |ns| == 0 then 0 else
    var before, n := ns[..|ns| - 1], ns[|ns| - 1];
    Visits(x, day, before) +
    if Subject(n) == x && DayOf(n) == day && LastDay(x, before) != Some(day) then 1 else 0
  }

  /** Every visit that has ended took at most the cap, and so has the one going on. */
  ghost predicate WithinVisits(x: StrategyId, day: int, cap: nat, ns: seq<Note>)
  {
    EntriesThisDay(x, ns) <= cap &&
    if LastDay(x, ns) == Some(day)
    then Visits(x, day, ns) >= 1 && EntriesOn(x, day, ns) <= cap * (Visits(x, day, ns) - 1) + EntriesThisDay(x, ns)
    else EntriesOn(x, day, ns) <= cap * Visits(x, day, ns)
  }

  lemma OneMoreVisit(cap: nat, visits: nat)
    ensures cap * (visits + 1) == cap * visits + cap
  {
  }

  lemma NoteWithinVisits(x: StrategyId, day: int, cap: nat, ns: seq<Note>, n: Note)
    requires WithinVisits(x, day, cap, ns)
    requires n.Entered? ==> EntriesThisDay(x, ns + [n]) <= cap
    ensures WithinVisits(x, day, cap, ns + [n])
  {
    NoteOn(ns, n);
    if LastDay(x, ns) == Some(day) {
      OneMoreVisit(cap, Visits(x, day, ns) - 1);
    }
  }

  lemma {:induction false} FeedAllWithinVisits(
      p: G.Params, w: World, ts: seq<M.ClosedTrade>, x: StrategyId, day: int, cap: nat)
    requires WithinVisits(x, day, cap, w.notes)
    ensures WithinVisits(x, day, cap, FeedAll(p, w, ts).notes)
  {
    if |ts| > 0 {
      var v, t := FeedAll(p, w, ts[..|ts| - 1]), ts[|ts| - 1];
      FeedAllWithinVisits(p, w, ts[..|ts| - 1], x, day, cap);
      NoteWithinVisits(x, day, cap, v.notes, Feed(p, v, t).notes[|v.notes|]);
    }
  }

  lemma StepWithinVisits(p: G.Params, w: World, e: Event, x: StrategyId, day: int)
    requires p.maxTradesPerDay >= 0 && WithinVisits(x, day, p.maxTradesPerDay, w.notes)
    requires EntriesThisDay(x, Step(p, w, e).notes) <= p.maxTradesPerDay
    ensures WithinVisits(x, day, p.maxTradesPerDay, Step(p, w, e).notes)
  {
    match e
    case Close(t) =>
    case Monitor(y) =>
      FeedAllWithinVisits(p, w.(buffer := M.NotOf(y, w.buffer)), M.Of(y, w.buffer), x, day, p.maxTradesPerDay);
    case AutoEntry(y, now) => NoteWithinVisits(x, day, p.maxTradesPerDay, w.notes, Step(p, w, e).notes[|w.notes|]);
    case Clear(y, now) => NoteWithinVisits(x, day, p.maxTradesPerDay, w.notes, Cleared(y, now));
    case Ask(y, now) => NoteWithinVisits(x, day, p.maxTradesPerDay, w.notes, Asked(y, now));
  }

  lemma {:induction false} VisitsCapped(p: G.Params, es: seq<Event>, x: StrategyId, day: int)
    requires p.maxTradesPerDay >= 0
    ensures WithinVisits(x, day, p.maxTradesPerDay, Run(p, es).notes)
  {
    if |es| > 0 {
      VisitsCapped(p, es[..|es| - 1], x, day);
      NeverCounted(x, Run(p, es).notes);
      CountersFaithful(p, es, x);
      StepWithinVisits(p, Run(p, es[..|es| - 1]), es[|es| - 1], x, day);
    }
  }

  /** In every run, a day takes at most the cap each time the governor's clock comes to it. */
  lemma CapPerVisit(p: G.Params, es: seq<Event>, x: StrategyId, day: int)
    requires p.maxTradesPerDay >= 0
    ensures EntriesOn(x, day, Run(p, es).notes) <= p.maxTradesPerDay * Arrivals(day, Touches(x, es))
  {
    VisitsCapped(p, es, x, day);
    WithinTotal(x, day, p.maxTradesPerDay, Run(p, es).notes);
    TouchesNoted(p, es, x);
    VisitsArrive(x, day, Run(p, es).notes);
  }

  lemma WithinTotal(x: StrategyId, day: int, cap: nat, ns: seq<Note>)
    requires WithinVisits(x, day, cap, ns)
    ensures EntriesOn(x, day, ns) <= cap * Visits(x, day, ns)
  {
    if LastDay(x, ns) == Some(day) {
      OneMoreVisit(cap, Visits(x, day, ns) - 1);
    }
  }

  ghost predicate Ascending(ds: seq<int>)
  {
    forall i, j :: 0 <= i < j < |ds| ==> ds[i] <= ds[j]
  }

  lemma {:induction false} AscendingArriveOnce(day: int, ds: seq<int>)
    requires Ascending(ds)
    ensures Arrivals(day, ds) <= 1
    ensures |ds| > 0 && ds[|ds| - 1] < day ==> Arrivals(day, ds) == 0
  {
    if |ds| > 0 {
      AscendingArriveOnce(day, ds[..|ds| - 1]);
    }
  }

  /** With event days that never go back, no UTC day takes more auto entries than the cap. */
  lemma DailyCap(p: G.Params, es: seq<Event>, x: StrategyId, day: int)
    requires p.maxTradesPerDay >= 0 && Ascending(Touches(x, es))
    ensures EntriesOn(x, day, Run(p, es).notes) <= p.maxTradesPerDay
  {
    CapPerVisit(p, es, x, day);
    AscendingArriveOnce(day, Touches(x, es));
    AtMostOnce(p.maxTradesPerDay, Arrivals(day, Touches(x, es)));
  }

  lemma AtMostOnce(cap: nat, visits: nat)
    requires visits <= 1
    ensures cap * visits <= cap
  {
  }

  lemma {:induction false} NeverCounted(x: StrategyId, ns: seq<Note>)
    ensures LastDay(x, ns).None? ==> EntriesThisDay(x, ns) == 0
  {
    if |ns| > 0 {
      NeverCounted(x, ns[..|ns| - 1]);
    }
  }

  // ---- The cap holds exactly while no day is come to twice -------------------------------------------

  /** Events whose days come to no day more than `v` times. */
  ghost predicate ComesAtMost(x: StrategyId, es: seq<Event>, v: nat)
  {
    forall d :: Arrivals(d, Touches(x, es)) <= v
  }

  ghost predicate CapHolds(p: G.Params, x: StrategyId, es: seq<Event>)
  {
    forall day :: EntriesOn(x, day, Run(p, es).notes) <= p.maxTradesPerDay
  }

  /** A trade that closed late on day 0. */
  function EarlyTrade(x: StrategyId): M.ClosedTrade
  {
    M.ClosedTrade(x, 1, "QUAL", Long, 1, Some(100), 95.0, 5, G.DAY_MS - 1)
  }

  /** So many entries on day 1. */
  function Entries(x: StrategyId, n: nat): seq<Event>
  {
    if n == 0 then [] else Entries(x, n - 1) + [AutoEntry(x, G.DAY_MS)]
  }

  /** Book a trade of day 0 on day 1, clear the cooldown, and fill the cap; as often as wanted. */
  function BusyDays(x: StrategyId, cap: nat, v: nat): seq<Event>
  {
    if v == 0 then [] else
    Turn(x, BusyDays(x, cap, v - 1)) + Entries(x, cap)
  }

  /** From `w` on, `n` entries have been taken on day 1. */
  ghost predicate Taken(x: StrategyId, w: World, v: World, n: nat)
  {
    x in v.counts && v.counts[x] == G.Counters(1, n, 0, false) && v.buffer == w.buffer &&
    LastDay(x, v.notes) == Some(1) && EntriesOn(x, 1, v.notes) == EntriesOn(x, 1, w.notes) + n &&
    (forall d :: Visits(x, d, v.notes) == Visits(x, d, w.notes))
  }

  lemma {:induction false} EntriesAdmitted(p: G.Params, es: seq<Event>, x: StrategyId, n: nat)
    requires n <= p.maxTradesPerDay && Taken(x, Run(p, es), Run(p, es), 0)
    ensures Taken(x, Run(p, es), Run(p, es + Entries(x, n)), n)
  {
    if n == 0 {
      assert es + [] == es;
    } else {
      EntriesAdmitted(p, es, x, n - 1);
      LastEntry(p, es, x, n);
      OneAdmitted(p, Run(p, es), Run(p, es + Entries(x, n - 1)), x, n);
    }
  }

  lemma LastEntry(p: G.Params, es: seq<Event>, x: StrategyId, n: nat)
    requires n > 0
    ensures Run(p, es + Entries(x, n)) == Step(p, Run(p, es + Entries(x, n - 1)), AutoEntry(x, G.DAY_MS))
  {
    RunOn(p, es + Entries(x, n - 1), AutoEntry(x, G.DAY_MS));
    assert es + Entries(x, n) == es + Entries(x, n - 1) + [AutoEntry(x, G.DAY_MS)];
  }

  lemma OneAdmitted(p: G.Params, w: World, v: World, x: StrategyId, n: nat)
    requires 1 <= n <= p.maxTradesPerDay && Taken(x, w, v, n - 1)
    ensures Taken(x, w, Step(p, v, AutoEntry(x, G.DAY_MS)), n)
  {
    NoteOn(v.notes, Entered(x, G.DAY_MS));
  }

  /** Booking a trade of day 0 comes to that day. */
  lemma EarlyBooked(p: G.Params, w: World, x: StrategyId)
    requires w.buffer == [] && LastDay(x, w.notes) in {None, Some(1)}
    ensures var v := Step(p, Step(p, w, Close(EarlyTrade(x))), Monitor(x));
      v.buffer == [] && LastDay(x, v.notes) == Some(0) && EntriesOn(x, 1, v.notes) == EntriesOn(x, 1, w.notes) &&
      (forall d :: Visits(x, d, v.notes) == Visits(x, d, w.notes) + if d == 0 then 1 else 0) &&
      x in v.counts && v.counts[x].day == 0
  {
    var t := EarlyTrade(x);
    var w1 := Step(p, w, Close(t));
    assert w1.buffer == [t];
    OneTrade(p, w1, x, t);
    NoteOn(w.notes, Feed(p, w1.(buffer := []), t).notes[|w.notes|]);
  }

  /** A clear on day 1 comes to that day, with the cap whole again. */
  lemma LaterCleared(p: G.Params, w: World, x: StrategyId)
    requires LastDay(x, w.notes) == Some(0) && x in w.counts && w.counts[x].day == 0
    ensures var v := Step(p, w, Clear(x, G.DAY_MS));
      x in v.counts && v.counts[x] == G.Counters(1, 0, 0, false) && v.buffer == w.buffer &&
      LastDay(x, v.notes) == Some(1) && EntriesOn(x, 1, v.notes) == EntriesOn(x, 1, w.notes) &&
      (forall d :: Visits(x, d, v.notes) == Visits(x, d, w.notes) + if d == 1 then 1 else 0)
  {
    NoteOn(w.notes, Cleared(x, G.DAY_MS));
  }

  function Turn(x: StrategyId, es: seq<Event>): seq<Event>
  {
    es + [Close(EarlyTrade(x))] + [Monitor(x)] + [Clear(x, G.DAY_MS)]
  }

  /** Both days are come to once more. */
  lemma BusyStarts(p: G.Params, es: seq<Event>, x: StrategyId)
    requires Run(p, es).buffer == [] && LastDay(x, Run(p, es).notes) in {None, Some(1)}
    ensures var w, v := Run(p, es), Run(p, Turn(x, es));
      x in v.counts && v.counts[x] == G.Counters(1, 0, 0, false) && v.buffer == [] &&
      LastDay(x, v.notes) == Some(1) && EntriesOn(x, 1, v.notes) == EntriesOn(x, 1, w.notes) &&
      (forall d :: Visits(x, d, v.notes) == Visits(x, d, w.notes) + if d == 0 || d == 1 then 1 else 0)
  {
    RunOn(p, es, Close(EarlyTrade(x)));
    RunOn(p, es + [Close(EarlyTrade(x))], Monitor(x));
    RunOn(p, es + [Close(EarlyTrade(x))] + [Monitor(x)], Clear(x, G.DAY_MS));
    EarlyBooked(p, Run(p, es), x);
    LaterCleared(p, Run(p, es + [Close(EarlyTrade(x))] + [Monitor(x)]), x);
  }

  lemma OneTrade(p: G.Params, w: World, x: StrategyId, t: M.ClosedTrade)
    requires w.buffer == [t] && t.strategy == x
    ensures Step(p, w, Monitor(x)) == Feed(p, w.(buffer := []), t)
  {
    assert [t][..0] == [];
    assert M.Of(x, [t][..0]) == [] && M.NotOf(x, [t][..0]) == [];
    assert M.Of(x, [t]) == [t] && M.NotOf(x, [t]) == [];
    assert FeedAll(p, w.(buffer := []), [t]) == Feed(p, FeedAll(p, w.(buffer := []), [t][..0]), t);
  }

  /** After `v` full days, with so many entries in all. */
  ghost predicate Filled(x: StrategyId, w: World, total: nat, v: nat)
  {
    w.buffer == [] && LastDay(x, w.notes) == (if v == 0 then None else Some(1)) &&
    EntriesOn(x, 1, w.notes) == total && (forall d :: Visits(x, d, w.notes) == if d == 0 || d == 1 then v else 0)
  }

  lemma BusyDayFills(p: G.Params, es: seq<Event>, x: StrategyId, total: nat, v: nat)
    requires p.maxTradesPerDay >= 0 && Filled(x, Run(p, es), total, v)
    ensures Filled(x, Run(p, Turn(x, es) + Entries(x, p.maxTradesPerDay)), total + p.maxTradesPerDay, v + 1)
  {
    BusyStarts(p, es, x);
    EntriesAdmitted(p, Turn(x, es), x, p.maxTradesPerDay);
  }

  lemma {:induction false} BusyDaysFill(p: G.Params, x: StrategyId, v: nat) returns (total: nat)
    requires p.maxTradesPerDay >= 0
    ensures Filled(x, Run(p, BusyDays(x, p.maxTradesPerDay, v)), total, v) && total == p.maxTradesPerDay * v
  {
    if v == 0 {
      total := 0;
    } else {
      var before := BusyDaysFill(p, x, v - 1);
      BusyDayFills(p, BusyDays(x, p.maxTradesPerDay, v - 1), x, before, v - 1);
      OneMoreVisit(p.maxTradesPerDay, v - 1);
      total := before + p.maxTradesPerDay;
    }
  }

  lemma BusyDaysCome(p: G.Params, x: StrategyId, v: nat)
    requires p.maxTradesPerDay >= 0
    ensures ComesAtMost(x, BusyDays(x, p.maxTradesPerDay, v), v)
  {
    var es := BusyDays(x, p.maxTradesPerDay, v);
    var total := BusyDaysFill(p, x, v);
    TouchesNoted(p, es, x);
    forall d ensures Arrivals(d, Touches(x, es)) <= v {
      VisitsArrive(x, d, Run(p, es).notes);
    }
  }

  /** Every cap and every number of visits is reached: the bound per visit is tight. */
  lemma CapPerVisitTight(p: G.Params, x: StrategyId, v: nat)
    requires p.maxTradesPerDay >= 0
    ensures var es := BusyDays(x, p.maxTradesPerDay, v);
      ComesAtMost(x, es, v) && EntriesOn(x, 1, Run(p, es).notes) == p.maxTradesPerDay * v
  {
    BusyDaysCome(p, x, v);
    var total := BusyDaysFill(p, x, v);
  }

  /**
   For every cap of at least one: the cap holds in every run whose events come to no
   day more than `v` times exactly when `v` is at most one.
   */
  lemma CapHoldsExactly(p: G.Params, x: StrategyId, v: nat)
    requires p.maxTradesPerDay >= 1
    ensures (forall es :: ComesAtMost(x, es, v) ==> CapHolds(p, x, es)) <==> v <= 1
  {
    if v <= 1 {
      forall es | ComesAtMost(x, es, v) ensures CapHolds(p, x, es) {
        forall day ensures EntriesOn(x, day, Run(p, es).notes) <= p.maxTradesPerDay {
          CapPerVisit(p, es, x, day);
          AtMostOnce(p.maxTradesPerDay, Arrivals(day, Touches(x, es)));
        }
      }
    } else {
      var es := BusyDays(x, p.maxTradesPerDay, v);
      CapPerVisitTight(p, x, v);
      MoreThanOne(p.maxTradesPerDay, v);
      assert !CapHolds(p, x, es);
    }
  }

  lemma MoreThanOne(cap: nat, v: nat)
    requires cap >= 1 && v >= 2
    ensures cap * v > cap
  {
  }

  // ---- Going back a day resets the counter ---------------------------------------------------------

  function LateTrade(): M.ClosedTrade
  {
    M.ClosedTrade("s", 1, "QUAL", Long, 1, Some(100), 95.0, 5, G.DAY_MS - 1)
  }

  /** Enter on day 1, then book a trade that closed late on day 0, then enter on day 1 again. */
  function LateRun(): seq<Event>
  {
    [] + [AutoEntry("s", G.DAY_MS)] + [Close(LateTrade())] + [Monitor("s")] + [AutoEntry("s", G.DAY_MS)]
  }

  lemma RunOn(p: G.Params, es: seq<Event>, e: Event)
    ensures Run(p, es + [e]) == Step(p, Run(p, es), e)
  {
    assert (es + [e])[..|es|] == es;
  }

  function LateNotes(): seq<Note>
  {
    [Entered("s", G.DAY_MS), Result(LateTrade(), false), Entered("s", G.DAY_MS)]
  }

  lemma LateRunNotes()
    ensures Run(G.Params(1, 3), LateRun()).notes == LateNotes()
  {
    var p, e, t := G.Params(1, 3), AutoEntry("s", G.DAY_MS), LateTrade();
    RunOn(p, [], e);
    RunOn(p, [] + [e], Close(t));
    RunOn(p, [] + [e] + [Close(t)], Monitor("s"));
    RunOn(p, [] + [e] + [Close(t)] + [Monitor("s")], e);
    var w0 := World(map[], [], []);
    var w1, w2 := Step(p, w0, e), Step(p, Step(p, w0, e), Close(t));
    assert w1.counts["s"] == G.Counters(1, 1, 0, false) && w1.notes == [Entered("s", G.DAY_MS)];
    assert w2.buffer == [t];
    assert [t][..0] == [];
    assert M.Of("s", [t]) == [t];
    var w3 := Step(p, w2, Monitor("s"));
    assert FeedAll(p, w2.(buffer := M.NotOf("s", [t])), [t]) == Feed(p, w2.(buffer := M.NotOf("s", [t])), t);
    assert w3.counts["s"] == G.Counters(0, 0, 0, false);
    assert Step(p, w3, e).notes == LateNotes();
  }

  lemma LateNotesCount()
    ensures EntriesOn("s", 1, LateNotes()) == 2 == Visits("s", 1, LateNotes())
  {
    var ns, n := LateNotes(), Entered("s", G.DAY_MS);
    assert ns[..2] == [n, Result(LateTrade(), false)];
    assert ns[..2][..1] == [n];
    assert [n][..0] == [];
    assert LastDay("s", [n]) == Some(1) && LastDay("s", ns[..2]) == Some(0);
    assert EntriesOn("s", 1, [n]) == 1 == Visits("s", 1, [n]);
    assert EntriesOn("s", 1, ns[..2]) == 1 == Visits("s", 1, ns[..2]);
  }

  /** A result booked at an earlier day lets a second entry through a cap of one. */
  lemma LateResultBreaksCap()
    ensures var ns := Run(G.Params(1, 3), LateRun()).notes;
      EntriesOn("s", 1, ns) == 2 == Visits("s", 1, ns)
  {
    LateRunNotes();
    LateNotesCount();
  }
}
