/**
 A queue that runs its tasks one by one and spaces them out.  The drain loop is suspended at a few
 points; between two of them it runs without interruption, so each resumption is
 one step.
 */
module PacingQueue {
  import opened Market

  type Item = nat

  /** What a task throws: an object with the two fields that are looked at, or something else. */
  datatype Thrown = NonObject | ErrorObject(code: Option<int>, message: Option<string>)

  datatype Outcome = Resolved | Rejected(err: Thrown)

  datatype Params = Params(minInterval: int, maxRetries: int, baseBackoff: int, maxBackoff: int)

  /** Where the drain loop is suspended; an attempt number counts the retries before it. */
  datatype Phase =
    | Idle
    | Slot(item: Item, until: int)
    | Attempt(item: Item, n: nat)
    | Backoff(item: Item, n: nat, until: int)
    | Between

  datatype Note =
    | Started(item: Item, n: nat, at: int)
    | Retrying(item: Item, n: nat, at: int, backoff: int)
    | Settled(item: Item, attempts: nat, outcome: Outcome)

  datatype State = State(items: seq<Item>, running: bool, lastStart: Option<int>, phase: Phase, log: seq<Note>)

  /** `Resume` ends a sleep, or lets the loop go on after an item has settled. */
  datatype Event = Enqueue(item: Item, now: int) | Resume(now: int) | TaskDone(outcome: Outcome, now: int)

  function Lower(c: char): char
  {
    if 'A' <= c <= 'Z' then c - 'A' + 'a' else c
  }

  predicate Mentions(text: string, word: string)
  {
    |word| <= |text| &&
    ((forall i :: 0 <= i < |word| ==> Lower(text[i]) == word[i]) || Mentions(text[1..], word))
  }

  predicate IsPacingError(err: Thrown)
  {
    err.ErrorObject? &&
    (err.code == Some(162) || err.code == Some(420) || (err.message.Some? && Mentions(err.message.value, "pacing")))
  }

  function Power2(n: nat): int
  {
    if n == 0 then 1 else 2 * Power2(n - 1)
  }

  function BackoffMs(p: Params, n: nat): int
  {
    var ms := p.baseBackoff * Power2(n);
    if ms < p.maxBackoff then ms else p.maxBackoff
  }

  function WaitMs(p: Params, lastStart: Option<int>, now: int): int
  {
    if lastStart.Some? && p.minInterval - (now - lastStart.value) > 0
    then p.minInterval - (now - lastStart.value)
    else 0
  }

  predicate Retries(p: Params, n: nat, o: Outcome)
  {
    o.Rejected? && IsPacingError(o.err) && n < p.maxRetries
  }

  /** Take the next item, or stop. */
  function Take(p: Params, s: State, now: int): State
  {
    if s.items == [] then s.(running := false, phase := Idle)
    else s.(items := s.items[1..], phase := Slot(s.items[0], now + WaitMs(p, s.lastStart, now)))
  }

  function Start(s: State, item: Item, n: nat, now: int): State
  {
    s.(lastStart := Some(now), phase := Attempt(item, n), log := s.log + [Started(item, n, now)])
  }

  predicate Enabled(s: State, e: Event)
  {
    match e
    case Enqueue(_, _) => true
    case Resume(now) => s.phase.Between? || ((s.phase.Slot? || s.phase.Backoff?) && s.phase.until <= now)
    case TaskDone(_, _) => s.phase.Attempt?
  }

  function Step(p: Params, s: State, e: Event): State
    requires Enabled(s, e)
  {
    match e
    case Enqueue(item, now) =>
      var t := s.(items := s.items + [item]);
      if t.running then t else Take(p, t.(running := true), now)
    case Resume(now) =>
      if s.phase.Slot? then Start(s, s.phase.item, 0, now)
      else if s.phase.Backoff? then Start(s, s.phase.item, s.phase.n, now)
      else Take(p, s, now)
    case TaskDone(o, now) =>
      var (item, n) := (s.phase.item, s.phase.n);
      if Retries(p, n, o)
      then s.(phase := Backoff(item, n + 1, now + BackoffMs(p, n)), log := s.log + [Retrying(item, n, now, BackoffMs(p, n))])
      else s.(phase := Between, log := s.log + [Settled(item, n + 1, o)])
  }

  const EMPTY := State([], false, None, Idle, [])

  /** Runs whose clock never goes back and whose sleeps last at least as long as asked. */
  predicate Feasible(p: Params, es: seq<Event>)
    decreases es, 0
  {
    |es| == 0 ||
    (Feasible(p, es[..|es| - 1]) && Enabled(Run(p, es[..|es| - 1]), es[|es| - 1]) &&
     (|es| > 1 ==> es[|es| - 2].now <= es[|es| - 1].now))
  }

  function Run(p: Params, es: seq<Event>): State
    requires Feasible(p, es)
    decreases es, 1
  {
    if |es| == 0 then EMPTY else Step(p, Run(p, es[..|es| - 1]), es[|es| - 1])
  }

  class Queue {
    const params: Params
    var items: seq<Item>
    var running: bool
    var lastStart: Option<int>
    /** Where the drain loop is suspended. */
    var phase: Phase
    ghost var log: seq<Note>

    ghost function Value(): State
      reads this
    {
      State(items, running, lastStart, phase, log)
    }

    constructor (params: Params)
      ensures this.params == params && Value() == EMPTY
    {
      this.params := params;
      items, running, lastStart, phase, log := [], false, None, Idle, [];
    }

    method Enqueue(item: Item, now: int)
      modifies this
      ensures Value() == Step(params, old(Value()), Event.Enqueue(item, now))
    {
      items := items + [item];
      if running {
        return;
      }
      running := true;
      Drain(now);
    }

    /** One turn of the drain loop, up to its next suspension. */
    method Drain(now: int)
      modifies this
      ensures Value() == Take(params, old(Value()), now)
    {
      if |items| > 0 {
        var item := items[0];
        items := items[1..];
        var until := now;
        if lastStart.Some? {
          var elapsed := now - lastStart.value;
          if params.minInterval - elapsed > 0 {
            until := now + (params.minInterval - elapsed);
          }
        }
        phase := Slot(item, until);
      } else {
        running := false;
        phase := Idle;
      }
    }

    method Begin(item: Item, n: nat, now: int)
      modifies this
      ensures Value() == Start(old(Value()), item, n, now)
    {
      lastStart := Some(now);
      phase := Attempt(item, n);
      log := log + [Started(item, n, now)];
    }

    method Resume(now: int)
      requires Enabled(Value(), Event.Resume(now))
      modifies this
      ensures Value() == Step(params, old(Value()), Event.Resume(now))
    {
      match phase
      case Slot(item, _) => Begin(item, 0, now);
      case Backoff(item, n, _) => Begin(item, n, now);
      case Between => Drain(now);
    }

    method TaskDone(o: Outcome, now: int)
      requires Enabled(Value(), Event.TaskDone(o, now))
      modifies this
      ensures Value() == Step(params, old(Value()), Event.TaskDone(o, now))
    {
      var item, attempt := phase.item, phase.n;
      if o.Rejected? && IsPacingError(o.err) && attempt < params.maxRetries {
        var ms := BackoffMs(params, attempt);
        log := log + [Retrying(item, attempt, now, ms)];
        phase := Backoff(item, attempt + 1, now + ms);
        return;
      }
      log := log + [Settled(item, attempt + 1, o)];
      phase := Between;
    }
  }

  // ---- Reading the log -----------------------------------------------------------------

  function Last<T>(xs: seq<T>): T
    requires |xs| > 0
  {
    xs[|xs| - 1]
  }

  function Enqueued(es: seq<Event>): seq<Item>
  {
    if |es| == 0 then [] else
    Enqueued(es[..|es| - 1]) + (if Last(es).Enqueue? then [Last(es).item] else [])
  }

  function Done(log: seq<Note>): seq<Item>
  {
    if |log| == 0 then [] else
    Done(log[..|log| - 1]) + (if Last(log).Settled? then [Last(log).item] else [])
  }

  function InFlight(ph: Phase): seq<Item>
  {
    if ph.Idle? || ph.Between? then [] else [ph.item]
  }

  function LastStart(log: seq<Note>): Option<int>
  {
    if |log| == 0 then None else
    if Last(log).Started? then Some(Last(log).at) else LastStart(log[..|log| - 1])
  }

  /** Attempts made since the last item settled. */
  function Attempts(log: seq<Note>): nat
  {
    if |log| == 0 || Last(log).Settled? then 0 else
    Attempts(log[..|log| - 1]) + (if Last(log).Started? then 1 else 0)
  }

  /** What may come next after a log. */
  ghost predicate Follows(p: Params, log: seq<Note>, n: Note)
  {
    match n
    case Started(item, k, at) =>
      if k == 0 then
        (|log| == 0 || Last(log).Settled?) &&
        (LastStart(log).Some? ==> at >= LastStart(log).value + p.minInterval)
      else
        |log| > 0 && Last(log).Retrying? && Last(log).item == item && Last(log).n == k - 1 &&
        at >= Last(log).at + Last(log).backoff
    case Retrying(item, k, at, ms) =>
      |log| > 0 && Last(log).Started? && Last(log).item == item && Last(log).n == k &&
      at >= Last(log).at && k < p.maxRetries && ms == BackoffMs(p, k)
    case Settled(item, attempts, o) =>
      |log| > 0 && Last(log).Started? && Last(log).item == item && Last(log).n == attempts - 1 &&
      !Retries(p, attempts - 1, o)
  }

  ghost predicate Legal(p: Params, log: seq<Note>)
  {
    forall i :: 0 <= i < |log| ==> Follows(p, log[..i], log[i])
  }

  lemma LegalOn(p: Params, log: seq<Note>, n: Note)
    requires Legal(p, log) && Follows(p, log, n)
    ensures Legal(p, log + [n])
  {
    var more := log + [n];
    forall i | 0 <= i < |more| ensures Follows(p, more[..i], more[i]) {
      assert more[..i] == if i < |log| then log[..i] else log;
    }
  }

  lemma NoteOn(log: seq<Note>, n: Note)
    ensures Done(log + [n]) == Done(log) + if n.Settled? then [n.item] else []
    ensures LastStart(log + [n]) == if n.Started? then Some(n.at) else LastStart(log)
    ensures Last(log + [n]) == n
  {
    assert (log + [n])[..|log|] == log;
  }

  /** The log ends as the phase says. */
  ghost predicate Suspended(p: Params, s: State, clock: int)
  {
    match s.phase
    case Idle => !s.running && s.items == [] && (|s.log| == 0 || Last(s.log).Settled?)
    case Slot(_, until) =>
      s.running && (|s.log| == 0 || Last(s.log).Settled?) &&
      (s.lastStart.Some? ==> until >= s.lastStart.value + p.minInterval)
    case Attempt(item, n) =>
      s.running && |s.log| > 0 && Last(s.log).Started? && Last(s.log).item == item && Last(s.log).n == n &&
      Last(s.log).at <= clock
    case Backoff(item, n, until) =>
      s.running && n > 0 && |s.log| > 0 && Last(s.log).Retrying? && Last(s.log).item == item && Last(s.log).n == n - 1 &&
      until == Last(s.log).at + Last(s.log).backoff
    case Between => s.running && (|s.log| == 0 || Last(s.log).Settled?)
  }

  ghost predicate Inv(p: Params, s: State, clock: int, arrived: seq<Item>)
  {
    Legal(p, s.log) && Suspended(p, s, clock) && s.lastStart == LastStart(s.log) &&
    arrived == Done(s.log) + InFlight(s.phase) + s.items
  }

  lemma TakeKeeps(p: Params, s: State, now: int, arrived: seq<Item>)
    requires Legal(p, s.log) && s.lastStart == LastStart(s.log) && s.running && (|s.log| == 0 || Last(s.log).Settled?)
    requires arrived == Done(s.log) + s.items
    ensures Inv(p, Take(p, s, now), now, arrived)
  {
    if s.items != [] {
      assert s.items == [s.items[0]] + s.items[1..];
    }
  }

  lemma NoteKeeps(p: Params, s: State, t: State, n: Note, clock: int, arrived: seq<Item>)
    requires Legal(p, s.log) && Follows(p, s.log, n) && t.log == s.log + [n] && t.running
    requires t.lastStart == if n.Started? then Some(n.at) else LastStart(s.log)
    requires t.phase == match n {
      case Started(item, k, _) => Attempt(item, k)
      case Retrying(item, k, at, ms) => Backoff(item, k + 1, at + ms)
      case Settled(_, _, _) => Between }
    requires n.Started? ==> n.at <= clock
    requires arrived == Done(s.log) + (if n.Settled? then [n.item] else []) + InFlight(t.phase) + t.items
    ensures Inv(p, t, clock, arrived)
  {
    LegalOn(p, s.log, n);
    NoteOn(s.log, n);
  }

  lemma EnqueueKeeps(p: Params, s: State, item: Item, now: int, clock: int, arrived: seq<Item>)
    requires Inv(p, s, clock, arrived) && clock <= now
    ensures Inv(p, Step(p, s, Enqueue(item, now)), now, arrived + [item])
  {
    if !s.running {
      TakeKeeps(p, s.(items := s.items + [item], running := true), now, arrived + [item]);
    }
  }

  lemma ResumeKeeps(p: Params, s: State, now: int, clock: int, arrived: seq<Item>)
    requires Inv(p, s, clock, arrived) && Enabled(s, Resume(now)) && clock <= now
    ensures Inv(p, Step(p, s, Resume(now)), now, arrived)
  {
    if s.phase.Between? {
      TakeKeeps(p, s, now, arrived);
    } else {
      var n := Started(s.phase.item, if s.phase.Slot? then 0 else s.phase.n, now);
      assert Follows(p, s.log, n);
      NoteKeeps(p, s, Step(p, s, Resume(now)), n, now, arrived);
    }
  }

  lemma TaskDoneKeeps(p: Params, s: State, o: Outcome, now: int, clock: int, arrived: seq<Item>)
    requires Inv(p, s, clock, arrived) && Enabled(s, TaskDone(o, now)) && clock <= now
    ensures Inv(p, Step(p, s, TaskDone(o, now)), now, arrived)
  {
    var (item, k) := (s.phase.item, s.phase.n);
    var n := if Retries(p, k, o) then Retrying(item, k, now, BackoffMs(p, k)) else Settled(item, k + 1, o);
    assert Follows(p, s.log, n);
    NoteKeeps(p, s, Step(p, s, TaskDone(o, now)), n, now, arrived);
  }

  lemma StepKeeps(p: Params, s: State, e: Event, clock: int, arrived: seq<Item>)
    requires Inv(p, s, clock, arrived) && Enabled(s, e) && clock <= e.now
    ensures Inv(p, Step(p, s, e), e.now, arrived + if e.Enqueue? then [e.item] else [])
  {
    match e
    case Enqueue(item, now) => EnqueueKeeps(p, s, item, now, clock, arrived);
    case Resume(now) =>
      ResumeKeeps(p, s, now, clock, arrived);
      assert arrived + [] == arrived;
    case TaskDone(o, now) =>
      TaskDoneKeeps(p, s, o, now, clock, arrived);
      assert arrived + [] == arrived;
  }

  /**
   In every run, items settle in the order they were enqueued, one at a time; those
   not yet settled are the one in flight and then the waiting ones; and the log is legal.
   */
  lemma {:induction false} RunPaced(p: Params, es: seq<Event>)
    requires Feasible(p, es)
    ensures Inv(p, Run(p, es), if |es| == 0 then 0 else Last(es).now, Enqueued(es))
  {
    if |es| > 0 {
      var before := es[..|es| - 1];
      RunPaced(p, before);
      if |es| == 1 {
        FirstStep(p, Last(es));
      } else {
        StepKeeps(p, Run(p, before), Last(es), Last(before).now, Enqueued(before));
      }
    }
  }

  lemma FirstStep(p: Params, e: Event)
    requires Enabled(EMPTY, e)
    ensures Inv(p, Step(p, EMPTY, e), e.now, if e.Enqueue? then [e.item] else [])
  {
  }

  /** An idle queue has settled everything it was given, each item once and in order. */
  lemma NothingStranded(p: Params, es: seq<Event>)
    requires Feasible(p, es)
    ensures Run(p, es).phase.Idle? ==> Done(Run(p, es).log) == Enqueued(es)
    ensures Run(p, es).running <==> !Run(p, es).phase.Idle?
    ensures Done(Run(p, es).log) <= Enqueued(es)
  {
    RunPaced(p, es);
  }

  // ---- Attempts and spacing ----------------------------------------------------------------

  function MaxAttempts(p: Params): nat
  {
    if p.maxRetries > 0 then p.maxRetries + 1 else 1
  }

  lemma {:induction false} LegalAttempts(p: Params, log: seq<Note>)
    requires Legal(p, log)
    ensures Attempts(log) <= MaxAttempts(p)
    ensures |log| > 0 && Last(log).Started? ==> Attempts(log) == Last(log).n + 1
    ensures |log| > 0 && Last(log).Retrying? ==> Attempts(log) == Last(log).n + 1 <= p.maxRetries
    ensures |log| > 0 && Last(log).Settled? ==> Attempts(log[..|log| - 1]) == Last(log).attempts
  {
    if |log| > 0 {
      var before := log[..|log| - 1];
      forall i | 0 <= i < |before| ensures Follows(p, before[..i], before[i]) {
        assert log[..i] == before[..i];
      }
      LegalAttempts(p, before);
      assert Follows(p, before, Last(log));
    }
  }

  /**
   Each item settles with the number of attempts made for it, between one and
   maxRetries + 1; it settles short of that only on an outcome that is not a pacing error.
   */
  lemma AttemptsBounded(p: Params, es: seq<Event>, i: nat)
    requires Feasible(p, es) && i < |Run(p, es).log| && Run(p, es).log[i].Settled?
    ensures var log := Run(p, es).log;
      1 <= log[i].attempts <= MaxAttempts(p) && log[i].attempts == Attempts(log[..i]) &&
      (log[i].attempts < MaxAttempts(p) ==> log[i].outcome.Resolved? || !IsPacingError(log[i].outcome.err))
  {
    RunPaced(p, es);
    SettledAttempts(p, Run(p, es).log, i);
  }

  lemma SettledAttempts(p: Params, log: seq<Note>, i: nat)
    requires Legal(p, log) && i < |log| && log[i].Settled?
    ensures 1 <= log[i].attempts <= MaxAttempts(p) && log[i].attempts == Attempts(log[..i])
    ensures log[i].attempts < MaxAttempts(p) ==> log[i].outcome.Resolved? || !IsPacingError(log[i].outcome.err)
  {
    assert Follows(p, log[..i], log[i]);
    LegalPrefix(p, log, i);
    LegalAttempts(p, log[..i]);
  }

  lemma LegalPrefix(p: Params, log: seq<Note>, i: nat)
    requires Legal(p, log) && i <= |log|
    ensures Legal(p, log[..i])
  {
    forall j | 0 <= j < i ensures Follows(p, log[..i][..j], log[..i][j]) {
      assert log[..i][..j] == log[..j];
    }
  }

  /** The first attempt for an item keeps its distance from the last attempt before it. */
  lemma FirstAttemptsSpaced(p: Params, es: seq<Event>, i: nat)
    requires Feasible(p, es) && i < |Run(p, es).log| && Run(p, es).log[i].Started? && Run(p, es).log[i].n == 0
    ensures var log := Run(p, es).log;
      LastStart(log[..i]).Some? ==> log[i].at >= LastStart(log[..i]).value + p.minInterval
  {
    RunPaced(p, es);
  }

  /** A retry waits out its backoff after the failure. */
  lemma RetriesBackOff(p: Params, es: seq<Event>, i: nat)
    requires Feasible(p, es) && i < |Run(p, es).log| && Run(p, es).log[i].Started? && Run(p, es).log[i].n > 0
    ensures i > 0
    ensures var log := Run(p, es).log;
      log[i - 1].Retrying? && log[i - 1].item == log[i].item && log[i - 1].n == log[i].n - 1 &&
      log[i].at >= log[i - 1].at + BackoffMs(p, log[i].n - 1)
  {
    RunPaced(p, es);
    var log := Run(p, es).log;
    assert Follows(p, log[..i], log[i]);
    assert Last(log[..i]) == log[i - 1];
    assert Follows(p, log[..i - 1], log[i - 1]);
  }

  // ---- Does every attempt keep the interval? --------------------------------------------------

  ghost predicate AllSpaced(p: Params, log: seq<Note>)
  {
    forall i :: 0 <= i < |log| && log[i].Started? && LastStart(log[..i]).Some? ==>
      log[i].at >= LastStart(log[..i]).value + p.minInterval
  }

  /** Never retrying, no interval to keep, or a first backoff at least as long as the interval. */
  predicate BackoffCoversInterval(p: Params)
  {
    p.maxRetries <= 0 || p.minInterval <= 0 || p.minInterval <= BackoffMs(p, 0)
  }

  lemma {:induction false} Power2Grows(n: nat)
    ensures Power2(n) >= 1
  {
    if n > 0 {
      Power2Grows(n - 1);
    }
  }

  lemma Scaled(base: int, k: int)
    requires base >= 0 && k >= 1
    ensures base * k >= base
  {
  }

  lemma BackoffGrows(p: Params, n: nat)
    requires p.baseBackoff >= 0
    ensures BackoffMs(p, n) >= BackoffMs(p, 0)
  {
    Power2Grows(n);
    Scaled(p.baseBackoff, Power2(n));
  }

  /** A step adds at most one note; an attempt is noted at its own time. */
  lemma OneNote(p: Params, s: State, e: Event)
    requires Enabled(s, e)
    ensures s.log <= Step(p, s, e).log && |Step(p, s, e).log| <= |s.log| + 1
    ensures |Step(p, s, e).log| > |s.log| && Last(Step(p, s, e).log).Started? ==> Last(Step(p, s, e).log).at == e.now
  {
  }

  /** A retry starts no earlier than its failure, as clocks do not go back. */
  lemma {:induction false} RetryNotBefore(p: Params, es: seq<Event>, i: nat)
    requires Feasible(p, es) && 0 < i < |Run(p, es).log| && Run(p, es).log[i].Started? && Run(p, es).log[i - 1].Retrying?
    ensures Run(p, es).log[i].at >= Run(p, es).log[i - 1].at
  {
    if |es| > 0 {
      var before := es[..|es| - 1];
      OneNote(p, Run(p, before), Last(es));
      if i < |Run(p, before).log| {
        RetryNotBefore(p, before, i);
      } else {
        LogInPast(p, before, i - 1);
      }
    }
  }

  lemma {:induction false} LogInPast(p: Params, es: seq<Event>, i: nat)
    requires Feasible(p, es) && i < |Run(p, es).log| && Run(p, es).log[i].Retrying?
    ensures |es| > 0 && Run(p, es).log[i].at <= Last(es).now
  {
    if |es| > 1 && i < |Run(p, es[..|es| - 1]).log| {
      LogInPast(p, es[..|es| - 1], i);
    }
  }

  /** A covered retry keeps the interval from the attempt it follows. */
  lemma RetrySpaced(p: Params, log: seq<Note>, i: nat)
    requires Legal(p, log) && BackoffCoversInterval(p) && i < |log| && log[i].Started? && log[i].n > 0
    requires i > 0 ==> log[i].at >= log[i - 1].at
    ensures i > 1 && log[i - 2].Started? && log[i - 1].Retrying?
    ensures log[i].at >= log[i - 2].at + p.minInterval
  {
    assert Follows(p, log[..i], log[i]);
    assert Last(log[..i]) == log[i - 1];
    assert Follows(p, log[..i - 1], log[i - 1]);
    assert Last(log[..i - 1]) == log[i - 2];
    if p.minInterval > 0 {
      BackoffGrows(p, log[i].n - 1);
    }
  }

  lemma LastStartTwoBefore(log: seq<Note>, i: nat)
    requires 1 < i <= |log| && log[i - 2].Started? && log[i - 1].Retrying?
    ensures LastStart(log[..i]) == Some(log[i - 2].at)
  {
    assert log[..i][..i - 1] == log[..i - 1];
  }

  lemma SpacedWhenCovered(p: Params, es: seq<Event>)
    requires Feasible(p, es) && BackoffCoversInterval(p)
    ensures AllSpaced(p, Run(p, es).log)
  {
    var log := Run(p, es).log;
    forall i | 0 <= i < |log| && log[i].Started? && LastStart(log[..i]).Some?
      ensures log[i].at >= LastStart(log[..i]).value + p.minInterval
    {
      if log[i].n > 0 {
        RunPaced(p, es);
        RetriesBackOff(p, es, i);
        RetryNotBefore(p, es, i);
        RetrySpaced(p, log, i);
        LastStartTwoBefore(log, i);
      } else {
        FirstAttemptsSpaced(p, es, i);
      }
    }
  }

  const THROTTLED := Rejected(ErrorObject(Some(162), None))

  function HastyRun(p: Params): seq<Event>
  {
    [Enqueue(1, 0), Resume(0), TaskDone(THROTTLED, 0), Resume(if BackoffMs(p, 0) > 0 then BackoffMs(p, 0) else 0)]
  }

  lemma RunOn(p: Params, es: seq<Event>, e: Event)
    requires Feasible(p, es) && Enabled(Run(p, es), e) && (|es| > 0 ==> Last(es).now <= e.now)
    ensures Feasible(p, es + [e]) && Run(p, es + [e]) == Step(p, Run(p, es), e)
  {
    assert (es + [e])[..|es|] == es;
  }

  lemma HastyRunHastens(p: Params)
    requires !BackoffCoversInterval(p)
    ensures Feasible(p, HastyRun(p)) && !AllSpaced(p, Run(p, HastyRun(p)).log)
  {
    var es := HastyRun(p);
    RunOn(p, [], es[0]);
    assert [] + [es[0]] == [es[0]];
    RunOn(p, [es[0]], es[1]);
    assert [es[0]] + [es[1]] == [es[0], es[1]];
    RunOn(p, [es[0], es[1]], es[2]);
    assert [es[0], es[1]] + [es[2]] == [es[0], es[1], es[2]];
    RunOn(p, [es[0], es[1], es[2]], es[3]);
    assert [es[0], es[1], es[2]] + [es[3]] == es;
    var log := Run(p, es).log;
    assert log == [Started(1, 0, 0), Retrying(1, 0, 0, BackoffMs(p, 0)), Started(1, 1, es[3].now)];
    assert log[..2][..1] == log[..1];
    assert LastStart(log[..1]) == Some(0);
    assert LastStart(log[..2]) == Some(0);
    assert log[2].at < p.minInterval;
  }

  /**
   The interval separates all consecutive attempts, retries included, in every run
   exactly when the first backoff covers it.
   */
  lemma AttemptsSpacedExactly(p: Params)
    ensures (forall es :: Feasible(p, es) ==> AllSpaced(p, Run(p, es).log)) <==> BackoffCoversInterval(p)
  {
    if BackoffCoversInterval(p) {
      forall es | Feasible(p, es) ensures AllSpaced(p, Run(p, es).log) {
        SpacedWhenCovered(p, es);
      }
    } else {
      HastyRunHastens(p);
    }
  }

  // ---- Progress ------------------------------------------------------------------------------

  /** A bound on the steps left before the queue is idle. */
  function StepsLeft(p: Params, s: State): nat
  {
    var perItem := 2 * MaxAttempts(p) + 1;
    |s.items| * perItem +
    match s.phase
    case Idle => 0
    case Between => 1
    case Slot(_, _) => perItem
    case Attempt(_, n) => 2 * (if n < MaxAttempts(p) then MaxAttempts(p) - n else 0) + (if n < MaxAttempts(p) then 0 else 2)
    case Backoff(_, n, _) => 2 * (if n < MaxAttempts(p) then MaxAttempts(p) - n else 0) + 1
  }

  ghost predicate Working(p: Params, s: State)
  {
    match s.phase
    case Idle => !s.running && s.items == []
    case Attempt(_, n) => s.running && n < MaxAttempts(p)
    case Backoff(_, n, _) => s.running && n < MaxAttempts(p)
    case _ => s.running
  }

  lemma StepProgresses(p: Params, s: State, e: Event)
    requires Working(p, s) && Enabled(s, e)
    ensures Working(p, Step(p, s, e))
    ensures !e.Enqueue? ==> StepsLeft(p, Step(p, s, e)) < StepsLeft(p, s)
  {
    if s.phase.Between? && s.items != [] {
      OneFewer(|s.items|, 2 * MaxAttempts(p) + 1);
    }
  }

  lemma OneFewer(n: nat, per: nat)
    requires n > 0
    ensures n * per == (n - 1) * per + per
  {
  }

  lemma {:induction false} RunWorking(p: Params, es: seq<Event>)
    requires Feasible(p, es)
    ensures Working(p, Run(p, es))
  {
    if |es| > 0 {
      RunWorking(p, es[..|es| - 1]);
      StepProgresses(p, Run(p, es[..|es| - 1]), Last(es));
    }
  }

  /** Once nothing more is enqueued, the number of further steps is bounded. */
  lemma {:induction false} DrainsInBoundedSteps(p: Params, es: seq<Event>, more: seq<Event>)
    requires Feasible(p, es + more) && forall i :: 0 <= i < |more| ==> !more[i].Enqueue?
    ensures Feasible(p, es) && StepsLeft(p, Run(p, es + more)) + |more| <= StepsLeft(p, Run(p, es))
  {
    if |more| == 0 {
      assert es + more == es;
    } else {
      var init := more[..|more| - 1];
      assert (es + more)[..|es + more| - 1] == es + init;
      DrainsInBoundedSteps(p, es, init);
      RunWorking(p, es + init);
      StepProgresses(p, Run(p, es + init), Last(more));
    }
  }

  lemma IdleMeansNoStepsLeft(p: Params, s: State)
    requires Working(p, s)
    ensures s.phase.Idle? <==> StepsLeft(p, s) == 0
  {
    if s.phase.Idle? {
      assert |s.items| == 0;
    } else {
      NonNegativeProduct(|s.items|, 2 * MaxAttempts(p) + 1);
    }
  }

  lemma NonNegativeProduct(n: nat, per: nat)
    ensures n * per >= 0
  {
  }

  /** A queue that is not idle can always go on: its sleep ends, or its task does. */
  lemma NeverStuck(p: Params, es: seq<Event>)
    requires Feasible(p, es)
    ensures !Run(p, es).phase.Idle? ==> exists e: Event :: !e.Enqueue? && Feasible(p, es + [e])
    ensures Run(p, es).phase.Idle? <==> StepsLeft(p, Run(p, es)) == 0
  {
    RunWorking(p, es);
    IdleMeansNoStepsLeft(p, Run(p, es));
    if !Run(p, es).phase.Idle? {
      var e := NextEvent(p, es);
    }
  }

  lemma NextEvent(p: Params, es: seq<Event>) returns (e: Event)
    requires Feasible(p, es) && !Run(p, es).phase.Idle?
    ensures !e.Enqueue? && Feasible(p, es + [e])
  {
    var s := Run(p, es);
    var clock := if |es| == 0 then 0 else Last(es).now;
    e := if s.phase.Attempt? then TaskDone(Resolved, clock)
      else if s.phase.Between? || s.phase.until <= clock then Resume(clock) else Resume(s.phase.until);
    RunOn(p, es, e);
  }

  // ---- What counts as a pacing error, and how long is waited ------------------------------------------

  /** The word stands at a place, in upper or lower case. */
  predicate SaysPacing(t: string, k: int)
  {
    0 <= k && k + 6 <= |t| && t[k] in {'p', 'P'} && t[k + 1] in {'a', 'A'} && t[k + 2] in {'c', 'C'} &&
    t[k + 3] in {'i', 'I'} && t[k + 4] in {'n', 'N'} && t[k + 5] in {'g', 'G'}
  }

  lemma StartsWithWord(text: string)
    requires 6 <= |text|
    ensures (forall i :: 0 <= i < 6 ==> Lower(text[i]) == "pacing"[i]) <==> SaysPacing(text, 0)
  {
    var word := "pacing";
    assert word[0] == 'p' && word[1] == 'a' && word[2] == 'c' && word[3] == 'i' && word[4] == 'n' && word[5] == 'g';
    if forall i :: 0 <= i < 6 ==> Lower(text[i]) == word[i] {
      assert Lower(text[0]) == 'p' && Lower(text[1]) == 'a' && Lower(text[2]) == 'c';
      assert Lower(text[3]) == 'i' && Lower(text[4]) == 'n' && Lower(text[5]) == 'g';
    }
  }

  lemma {:induction false} MentionsExactly(text: string)
    ensures Mentions(text, "pacing") <==> exists k :: SaysPacing(text, k)
  {
    if 6 <= |text| {
      StartsWithWord(text);
      MentionsExactly(text[1..]);
      forall k | SaysPacing(text[1..], k) ensures SaysPacing(text, k + 1) {
      }
      forall k | SaysPacing(text, k) && k != 0 ensures SaysPacing(text[1..], k - 1) {
      }
    }
  }

  /** A pacing error is an object with code 162 or 420, or with "pacing", in any case, in its message. */
  lemma PacingErrorExactly(err: Thrown)
    ensures IsPacingError(err) <==>
      err.ErrorObject? &&
      (err.code == Some(162) || err.code == Some(420) ||
       (err.message.Some? && exists k :: SaysPacing(err.message.value, k)))
  {
    if err.ErrorObject? && err.message.Some? {
      MentionsExactly(err.message.value);
    }
  }

  /** The backoff starts at the base and doubles up to the maximum. */
  lemma BackoffDoubles(p: Params, n: nat)
    requires 0 <= p.baseBackoff && 0 <= p.maxBackoff
    ensures BackoffMs(p, 0) == if p.baseBackoff < p.maxBackoff then p.baseBackoff else p.maxBackoff
    ensures BackoffMs(p, n + 1) ==
      if 2 * BackoffMs(p, n) < p.maxBackoff then 2 * BackoffMs(p, n) else p.maxBackoff
  {
    Doubles(p.baseBackoff, Power2(n));
    Power2Grows(n);
    NonNegativeProduct(p.baseBackoff, Power2(n));
  }

  lemma Doubles(b: int, x: int)
    ensures b * (2 * x) == 2 * (b * x)
  {
  }

  /** The next item waits exactly until the interval since the last start is over, if it is not yet. */
  lemma SlotExactly(p: Params, s: State, now: int)
    requires s.items != []
    ensures var t := Take(p, s, now);
      t.items == s.items[1..] && t.running == s.running && t.log == s.log && t.phase.Slot? &&
      t.phase.item == s.items[0] && now <= t.phase.until &&
      (s.lastStart.Some? ==> s.lastStart.value + p.minInterval <= t.phase.until) &&
      (t.phase.until == now || (s.lastStart.Some? && t.phase.until == s.lastStart.value + p.minInterval))
  {
  }
}
