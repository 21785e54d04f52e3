/** The broker gateway: order ids, and the join of the two halves of an execution report. */
module IbGateway {
  import opened Market
  import opened Money

  type ExecId = string

  type OrderId = int

  /** The execution half of a report. */
  datatype Execution = Execution(order: OrderId, symbol: Ticker, action: Action, shares: real, price: real, time: int)

  datatype BrokerFill = BrokerFill(exec: ExecId, body: Execution, commission: real)

  /** What is known of an execution whose report is incomplete. */
  datatype Partial = Partial(body: Option<Execution>, commission: Option<real>)

  datatype State = State(nextId: Option<OrderId>, pending: map<ExecId, Partial>)

  datatype Event =
    | NextValidId(id: OrderId)
    | ExecDetails(exec: ExecId, body: Execution)
    | CommissionReport(exec: ExecId, commission: real)
    | Allocate

  const UNSEEN := Partial(None, None)

  function Merged(known: Partial, part: Partial): Partial
  {
    Partial(if part.body.Some? then part.body else known.body,
            if part.commission.Some? then part.commission else known.commission)
  }

  function Known(s: State, exec: ExecId): Partial
  {
    if exec in s.pending then s.pending[exec] else UNSEEN
  }

  /** Add a part to what is known; a complete report leaves the table and is emitted. */
  function MergeFill(s: State, exec: ExecId, part: Partial): (State, Option<BrokerFill>)
  {
    var m := Merged(Known(s, exec), part);
    if m.body.Some? && m.commission.Some?
    then (s.(pending := s.pending - {exec}), Some(BrokerFill(exec, m.body.value, m.commission.value)))
    else (s.(pending := s.pending[exec := m]), None)
  }

  /** A step, the fill it emits and the order id it gives out; a report without an id is ignored. */
  function Step(s: State, e: Event): (State, Option<BrokerFill>, Option<OrderId>)
  {
    match e
    case NextValidId(id) => (if s.nextId.None? then s.(nextId := Some(id)) else s, None, None)
    case ExecDetails(exec, body) =>
      if exec == "" then (s, None, None) else
      var (t, fill) := MergeFill(s, exec, Partial(Some(body), None));
      (t, fill, None)
    case CommissionReport(exec, commission) =>
      if exec == "" then (s, None, None) else
      var (t, fill) := MergeFill(s, exec, Partial(None, Some(commission)));
      (t, fill, None)
    case Allocate =>
      if s.nextId.None? then (s, None, None) else (s.(nextId := Some(s.nextId.value + 1)), None, s.nextId)
  }

  datatype Trace = Trace(state: State, fills: seq<BrokerFill>, ids: seq<OrderId>)

  function Run(es: seq<Event>): Trace
  {
    if |es| == 0 then Trace(State(None, map[]), [], []) else
    var before := Run(es[..|es| - 1]);
    var (t, fill, id) := Step(before.state, es[|es| - 1]);
    Trace(t, before.fills + if fill.Some? then [fill.value] else [], before.ids + if id.Some? then [id.value] else [])
  }

  class Gateway {
    var nextId: Option<OrderId>
    var pendingFills: map<ExecId, Partial>

    ghost function Value(): State
      reads this
    {
      State(nextId, pendingFills)
    }

    constructor ()
      ensures Value() == State(None, map[])
    {
      nextId, pendingFills := None, map[];
    }

    method OnNextValidId(id: OrderId)
      modifies this
      ensures Value() == Step(old(Value()), NextValidId(id)).0
    {
      if nextId.None? {
        nextId := Some(id);
      }
    }

    /** None when no valid id has arrived yet. */
    method AllocateOrderId() returns (id: Option<OrderId>)
      modifies this
      ensures Value() == Step(old(Value()), Allocate).0 && id == Step(old(Value()), Allocate).2
    {
      id := nextId;
      if nextId.Some? {
        nextId := Some(nextId.value + 1);
      }
    }

    method Merge(exec: ExecId, part: Partial) returns (fill: Option<BrokerFill>)
      modifies this
      ensures Value() == MergeFill(old(Value()), exec, part).0 && fill == MergeFill(old(Value()), exec, part).1
    {
      var merged := if exec in pendingFills then Merged(pendingFills[exec], part) else Merged(UNSEEN, part);
      if merged.body.Some? && merged.commission.Some? {
        pendingFills := pendingFills - {exec};
        fill := Some(BrokerFill(exec, merged.body.value, merged.commission.value));
      } else {
        pendingFills := pendingFills[exec := merged];
        fill := None;
      }
    }

    method OnExecDetails(exec: ExecId, body: Execution) returns (fill: Option<BrokerFill>)
      modifies this
      ensures Value() == Step(old(Value()), ExecDetails(exec, body)).0
      ensures fill == Step(old(Value()), ExecDetails(exec, body)).1
    {
      if exec == "" {
        return None;
      }
      fill := Merge(exec, Partial(Some(body), None));
    }

    method OnCommissionReport(exec: ExecId, commission: real) returns (fill: Option<BrokerFill>)
      modifies this
      ensures Value() == Step(old(Value()), CommissionReport(exec, commission)).0
      ensures fill == Step(old(Value()), CommissionReport(exec, commission)).1
    {
      if exec == "" {
        return None;
      }
      fill := Merge(exec, Partial(None, Some(commission)));
    }
  }

  // ---- The join --------------------------------------------------------------------------

  predicate IsHalfOf(e: Event, exec: ExecId)
  {
    (e.ExecDetails? || e.CommissionReport?) && e.exec == exec
  }

  /** The reports about one execution, in order of arrival. */
  function HalvesOf(exec: ExecId, es: seq<Event>): seq<Event>
  {
    if |es| == 0 then [] else
    HalvesOf(exec, es[..|es| - 1]) + if IsHalfOf(es[|es| - 1], exec) then [es[|es| - 1]] else []
  }

  function FillsOf(exec: ExecId, fs: seq<BrokerFill>): seq<BrokerFill>
  {
    if |fs| == 0 then [] else
    FillsOf(exec, fs[..|fs| - 1]) + if fs[|fs| - 1].exec == exec then [fs[|fs| - 1]] else []
  }

  lemma FillsOfOn(exec: ExecId, fs: seq<BrokerFill>, f: BrokerFill)
    ensures FillsOf(exec, fs + [f]) == FillsOf(exec, fs) + if f.exec == exec then [f] else []
  {
    assert (fs + [f])[..|fs|] == fs;
  }

  lemma RunFills(exec: ExecId, es: seq<Event>)
    requires |es| > 0
    ensures Run(es).state == Step(Run(es[..|es| - 1]).state, es[|es| - 1]).0
    ensures var before := Run(es[..|es| - 1]);
      var fill := Step(before.state, es[|es| - 1]).1;
      FillsOf(exec, Run(es).fills) ==
      FillsOf(exec, before.fills) + if fill.Some? && fill.value.exec == exec then [fill.value] else []
  {
    var before := Run(es[..|es| - 1]);
    var fill := Step(before.state, es[|es| - 1]).1;
    if fill.Some? {
      FillsOfOn(exec, before.fills, fill.value);
    } else {
      assert Run(es).fills == before.fills;
    }
  }

  /** What a step does for one execution depends on what is known of that execution only. */
  ghost predicate Locally(exec: ExecId, s: State, e: Event, t: State, fill: Option<BrokerFill>)
  {
    if IsHalfOf(e, exec) then
      var m := Merged(Known(s, exec), if e.ExecDetails? then Partial(Some(e.body), None) else Partial(None, Some(e.commission)));
      if m.body.Some? && m.commission.Some?
      then fill == Some(BrokerFill(exec, m.body.value, m.commission.value)) && Known(t, exec) == UNSEEN && exec !in t.pending
      else fill == None && Known(t, exec) == m && exec in t.pending
    else
      Known(t, exec) == Known(s, exec) && (exec in t.pending <==> exec in s.pending) && (fill.Some? ==> fill.value.exec != exec)
  }

  lemma StepLocal(exec: ExecId, s: State, e: Event)
    requires exec != ""
    ensures Locally(exec, s, e, Step(s, e).0, Step(s, e).1)
  {
  }

  /** Other reports, order ids and other executions do not matter to an execution. */
  lemma {:induction false} ReportsIndependent(exec: ExecId, es: seq<Event>)
    requires exec != ""
    ensures FillsOf(exec, Run(es).fills) == FillsOf(exec, Run(HalvesOf(exec, es)).fills)
    ensures Known(Run(es).state, exec) == Known(Run(HalvesOf(exec, es)).state, exec)
    ensures exec in Run(es).state.pending <==> exec in Run(HalvesOf(exec, es)).state.pending
  {
    if |es| > 0 {
      var before, e, hs := es[..|es| - 1], es[|es| - 1], HalvesOf(exec, es);
      ReportsIndependent(exec, before);
      RunFills(exec, es);
      StepLocal(exec, Run(before).state, e);
      if IsHalfOf(e, exec) {
        assert hs == HalvesOf(exec, before) + [e];
        assert hs[..|hs| - 1] == HalvesOf(exec, before);
        RunFills(exec, hs);
        StepLocal(exec, Run(hs[..|hs| - 1]).state, e);
      } else {
        assert hs == HalvesOf(exec, before);
      }
    }
  }

  /** At most one execution half and one commission half. */
  predicate OneOfEach(hs: seq<Event>)
  {
    forall i, j :: 0 <= i < j < |hs| ==> hs[i].ExecDetails? != hs[j].ExecDetails?
  }

  function BodyIn(hs: seq<Event>): Option<Execution>
  {
    if |hs| == 0 then None else
    if hs[|hs| - 1].ExecDetails? then Some(hs[|hs| - 1].body) else BodyIn(hs[..|hs| - 1])
  }

  function CommissionIn(hs: seq<Event>): Option<real>
  {
    if |hs| == 0 then None else
    if hs[|hs| - 1].CommissionReport? then Some(hs[|hs| - 1].commission) else CommissionIn(hs[..|hs| - 1])
  }

  lemma {:induction false} HalvesAreHalves(exec: ExecId, es: seq<Event>)
    ensures forall i :: 0 <= i < |HalvesOf(exec, es)| ==> IsHalfOf(HalvesOf(exec, es)[i], exec)
  {
    if |es| > 0 {
      HalvesAreHalves(exec, es[..|es| - 1]);
    }
  }

  lemma JoinOfHalves(exec: ExecId, hs: seq<Event>)
    requires exec != "" && OneOfEach(hs) && forall i :: 0 <= i < |hs| ==> IsHalfOf(hs[i], exec)
    ensures var (body, commission) := (BodyIn(hs), CommissionIn(hs));
      if body.Some? && commission.Some?
      then FillsOf(exec, Run(hs).fills) == [BrokerFill(exec, body.value, commission.value)] && exec !in Run(hs).state.pending
      else FillsOf(exec, Run(hs).fills) == [] && Known(Run(hs).state, exec) == Partial(body, commission) &&
           (exec in Run(hs).state.pending <==> body.Some? || commission.Some?)
  {
    if |hs| > 2 {
      ThreeRepeat(hs);
    } else if |hs| == 2 {
      JoinOfTwo(exec, hs);
    } else if |hs| == 1 {
      JoinOfOne(exec, hs);
    }
  }

  lemma JoinOfOne(exec: ExecId, hs: seq<Event>)
    requires exec != "" && |hs| == 1 && IsHalfOf(hs[0], exec)
    ensures FillsOf(exec, Run(hs).fills) == [] && exec in Run(hs).state.pending
    ensures Known(Run(hs).state, exec) ==
      if hs[0].ExecDetails? then Partial(Some(hs[0].body), None) else Partial(None, Some(hs[0].commission))
  {
    assert hs[..0] == [];
    RunFills(exec, hs);
    StepLocal(exec, Run([]).state, hs[0]);
  }

  /** The two halves, in the order they came. */
  lemma HalvesIn(hs: seq<Event>)
    requires |hs| == 2 && hs[0].ExecDetails? != hs[1].ExecDetails?
    requires (hs[0].ExecDetails? || hs[0].CommissionReport?) && (hs[1].ExecDetails? || hs[1].CommissionReport?)
    ensures BodyIn(hs) == Some(if hs[0].ExecDetails? then hs[0].body else hs[1].body)
    ensures CommissionIn(hs) == Some(if hs[0].ExecDetails? then hs[1].commission else hs[0].commission)
  {
    assert hs[..1][..0] == [] && hs[..1][0] == hs[0];
  }

  /** The second half completes what the first left. */
  lemma SecondHalf(exec: ExecId, s: State, first: Event, second: Event)
    requires exec != "" && IsHalfOf(first, exec) && IsHalfOf(second, exec) && first.ExecDetails? != second.ExecDetails?
    requires Known(s, exec) == if first.ExecDetails? then Partial(Some(first.body), None) else Partial(None, Some(first.commission))
    ensures exec !in Step(s, second).0.pending
    ensures Step(s, second).1 == Some(BrokerFill(exec, if first.ExecDetails? then first.body else second.body,
                                                 if first.ExecDetails? then second.commission else first.commission))
  {
  }

  lemma JoinOfTwo(exec: ExecId, hs: seq<Event>)
    requires exec != "" && |hs| == 2 && OneOfEach(hs) && IsHalfOf(hs[0], exec) && IsHalfOf(hs[1], exec)
    ensures BodyIn(hs).Some? && CommissionIn(hs).Some? && exec !in Run(hs).state.pending
    ensures FillsOf(exec, Run(hs).fills) == [BrokerFill(exec, BodyIn(hs).value, CommissionIn(hs).value)]
  {
    assert hs[0].ExecDetails? != hs[1].ExecDetails?;
    JoinOfOne(exec, hs[..1]);
    HalvesIn(hs);
    SecondHalf(exec, Run(hs[..1]).state, hs[0], hs[1]);
    RunFills(exec, hs);
  }

  lemma ThreeRepeat(hs: seq<Event>)
    requires |hs| > 2
    ensures !OneOfEach(hs)
  {
    if hs[0].ExecDetails? != hs[1].ExecDetails? && hs[1].ExecDetails? != hs[2].ExecDetails? {
      assert hs[0].ExecDetails? == hs[2].ExecDetails?;
    }
  }

  /**
   Whatever the interleaving: an execution reported at most once by each half is emitted
   exactly once, joined, when both are in, and is held exactly while one is.
   */
  lemma JoinedExactlyOnce(exec: ExecId, es: seq<Event>)
    requires exec != "" && OneOfEach(HalvesOf(exec, es))
    ensures var (body, commission) := (BodyIn(HalvesOf(exec, es)), CommissionIn(HalvesOf(exec, es)));
      if body.Some? && commission.Some?
      then FillsOf(exec, Run(es).fills) == [BrokerFill(exec, body.value, commission.value)] && exec !in Run(es).state.pending
      else FillsOf(exec, Run(es).fills) == [] && Known(Run(es).state, exec) == Partial(body, commission) &&
           (exec in Run(es).state.pending <==> body.Some? || commission.Some?)
  {
    ReportsIndependent(exec, es);
    HalvesAreHalves(exec, es);
    JoinOfHalves(exec, HalvesOf(exec, es));
  }

  lemma NamelessStep(s: State, e: Event)
    requires "" !in s.pending
    ensures "" !in Step(s, e).0.pending && (Step(s, e).1.Some? ==> Step(s, e).1.value.exec != "")
  {
  }

  /** Reports without an id leave no trace. */
  lemma {:induction false} NamelessIgnored(es: seq<Event>)
    ensures FillsOf("", Run(es).fills) == [] && "" !in Run(es).state.pending
  {
    if |es| > 0 {
      NamelessIgnored(es[..|es| - 1]);
      RunFills("", es);
      NamelessStep(Run(es[..|es| - 1]).state, es[|es| - 1]);
    }
  }

  function CountBodies(hs: seq<Event>): nat
  {
    if |hs| == 0 then 0 else CountBodies(hs[..|hs| - 1]) + if hs[|hs| - 1].ExecDetails? then 1 else 0
  }

  /** With repeated reports: never more fills than halves of either kind. */
  lemma {:induction false} NeverMoreThanHalves(exec: ExecId, es: seq<Event>)
    requires exec != ""
    ensures var hs := HalvesOf(exec, es); var n := |FillsOf(exec, Run(es).fills)|;
      n + (if Known(Run(es).state, exec).body.Some? then 1 else 0) <= CountBodies(hs) &&
      n + (if Known(Run(es).state, exec).commission.Some? then 1 else 0) <= |hs| - CountBodies(hs) &&
      (Known(Run(es).state, exec).body.None? || Known(Run(es).state, exec).commission.None?)
  {
    if |es| > 0 {
      var before, e, hs := es[..|es| - 1], es[|es| - 1], HalvesOf(exec, es);
      NeverMoreThanHalves(exec, before);
      RunFills(exec, es);
      StepLocal(exec, Run(before).state, e);
      if IsHalfOf(e, exec) {
        assert hs == HalvesOf(exec, before) + [e];
        assert hs[..|hs| - 1] == HalvesOf(exec, before);
      } else {
        assert hs == HalvesOf(exec, before);
      }
    }
  }

  // ---- Order ids ----------------------------------------------------------------------------

  /** Ids come out one after the other from the first valid one, whatever arrives later. */
  lemma {:induction false} IdsConsecutive(es: seq<Event>)
    ensures var t := Run(es);
      (t.state.nextId.None? ==> t.ids == []) &&
      (forall i :: 0 <= i < |t.ids| ==> t.state.nextId.Some? && t.ids[i] == t.state.nextId.value - |t.ids| + i)
  {
    if |es| > 0 {
      IdsConsecutive(es[..|es| - 1]);
    }
  }

  /** A half that comes again replaces the one that was held; a complete report is emitted and no longer held. */
  lemma MergeExactly(s: State, exec: ExecId, part: Partial)
    ensures var (t, fill) := MergeFill(s, exec, part); var known := Known(s, exec);
      var body := if part.body.Some? then part.body else known.body;
      var commission := if part.commission.Some? then part.commission else known.commission;
      (forall e :: e != exec ==> Known(t, e) == Known(s, e)) && t.nextId == s.nextId &&
      if body.Some? && commission.Some?
      then fill == Some(BrokerFill(exec, body.value, commission.value)) && exec !in t.pending
      else fill.None? && exec in t.pending && t.pending[exec] == Partial(body, commission)
  {
  }
}
