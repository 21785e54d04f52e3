/** The paper port: brackets driven by order statuses and fills, in whatever order these arrive. */
module IbPort {
  import opened Market
  import opened Money
  import M = SimModel
  import G = IbGateway

  type OrderId = G.OrderId

  datatype LegStatus = PendingSubmit | Submitted | Working | Filled | Cancelled | Rejected

  function MapIbStatus(ib: string): LegStatus
  {
    if ib == "PendingSubmit" || ib == "ApiPending" then PendingSubmit
    else if ib == "PreSubmitted" then Submitted
    else if ib == "Submitted" then Working
    else if ib == "Filled" then Filled
    else if ib == "Cancelled" || ib == "ApiCancelled" || ib == "PendingCancel" then Cancelled
    else Rejected
  }

  datatype Role = ParentRole | StopRole | TargetRole

  datatype Leg = Leg(order: OrderId, status: LegStatus)

  datatype Bracket = Bracket(
    strategy: StrategyId, ticker: Ticker, side: Side, qty: Shares, stop: Price, target: Option<Price>,
    status: M.Status, entryPrice: Option<real>, openedAt: Option<int>,
    parent: Leg, stopLeg: Leg, targetLeg: Option<Leg>)

  datatype FillRecord = FillRecord(
    order: OrderId, exec: G.ExecId, ticker: Ticker, side: Side, qty: real, price: real, commission: real, at: int)

  datatype OrderKind = Mkt | Lmt | Stp

  /** What is asked of the broker. */
  datatype Sent =
    | SendOrder(order: OrderId, action: Action, qty: Shares, kind: OrderKind, price: Option<Price>,
                parent: Option<OrderId>, transmit: bool)
    | SendCancel(order: OrderId)

  datatype Port = Port(
    brackets: map<nat, Bracket>, index: map<OrderId, nat>, fills: seq<FillRecord>, lastId: nat, sent: seq<Sent>)

  datatype World = World(gateway: G.State, port: Port)

  datatype PlaceOutcome = Placed(id: nat) | LiveLocked | WrongRung | NotReady

  datatype Event =
    | FromGateway(report: G.Event)
    | OrderStatus(order: OrderId, ib: string, avgFillPrice: real, now: int)
    | PlaceBracket(request: M.Request)
    | ModifyBracket(mod: M.Modification)
    | CancelBracket(id: nat)

  // ---- One bracket -----------------------------------------------------------------------

  function RoleOf(b: Bracket, order: OrderId): Option<Role>
  {
    if b.parent.order == order then Some(ParentRole)
    else if b.stopLeg.order == order then Some(StopRole)
    else if b.targetLeg.Some? && b.targetLeg.value.order == order then Some(TargetRole)
    else None
  }

  function WithLeg(b: Bracket, role: Role, status: LegStatus): Bracket
  {
    match role
    case ParentRole => b.(parent := b.parent.(status := status))
    case StopRole => b.(stopLeg := b.stopLeg.(status := status))
    case TargetRole => if b.targetLeg.Some? then b.(targetLeg := Some(b.targetLeg.value.(status := status))) else b
  }

  function Opened(b: Bracket, price: real, at: int): Bracket
  {
    b.(status := M.Open, entryPrice := Some(price), openedAt := Some(GetOr(b.openedAt, at)))
  }

  function StatusReport(b: Bracket, order: OrderId, ib: string, avgFillPrice: real, now: int): Bracket
  {
    var (role, mapped) := (RoleOf(b, order), MapIbStatus(ib));
    if role.None? then b else
    var c := WithLeg(b, role.value, mapped);
    if role.value == ParentRole then
      if mapped == Filled && b.status == M.Pending then Opened(c, avgFillPrice, now)
      else if mapped == Cancelled then c.(status := M.Cancelled)
      else c
    else if mapped == Filled then c.(status := M.Closed)
    else c
  }

  function FillReport(b: Bracket, f: G.BrokerFill): Bracket
  {
    if RoleOf(b, f.body.order) == Some(ParentRole) && b.entryPrice.None? then
      b.(entryPrice := Some(f.body.price),
         status := if b.status == M.Pending then M.Open else b.status,
         openedAt := Some(GetOr(b.openedAt, f.body.time)))
    else b
  }

  function Amended(b: Bracket, m: M.Modification): Bracket
  {
    b.(stop := GetOr(m.newStop, b.stop),
       qty := GetOr(m.newQty, b.qty),
       target := if m.newTarget.Some? && b.targetLeg.Some? then m.newTarget else b.target)
  }

  function ModifyOutcome(b: Bracket, m: M.Modification): M.Outcome
  {
    if b.status != M.Open && b.status != M.Pending then M.NotWorking
    else if m.newQty.Some? && m.newQty.value >= b.qty then M.NotDownward
    else M.Done
  }

  // ---- The port ----------------------------------------------------------------------------

  function AfterStatus(s: Port, order: OrderId, ib: string, avgFillPrice: real, now: int): Port
  {
    if order !in s.index || s.index[order] !in s.brackets then s else
    var id := s.index[order];
    s.(brackets := s.brackets[id := StatusReport(s.brackets[id], order, ib, avgFillPrice, now)])
  }

  /** The fill schema refuses anything but a positive quantity and price and a non-negative commission. */
  predicate Acceptable(f: G.BrokerFill)
  {
    f.body.shares > 0.0 && f.body.price > 0.0 && f.commission >= 0.0
  }

  function Record(f: G.BrokerFill): FillRecord
  {
    FillRecord(f.body.order, f.exec, f.body.symbol, FillSide(f.body.action), f.body.shares, f.body.price, f.commission, f.body.time)
  }

  function AfterFill(s: Port, f: G.BrokerFill): Port
  {
    if f.body.order !in s.index || s.index[f.body.order] !in s.brackets then s else
    var id := s.index[f.body.order];
    s.(brackets := s.brackets[id := FillReport(s.brackets[id], f)],
       fills := if Acceptable(f) then s.fills + [Record(f)] else s.fills)
  }

  function LegIds(b: Bracket): seq<OrderId>
  {
    [b.parent.order, b.stopLeg.order] + if b.targetLeg.Some? then [b.targetLeg.value.order] else []
  }

  /** A bracket on consecutive order ids; an id of zero passes for no target leg. */
  function NewBracket(r: M.Request, first: OrderId): Bracket
  {
    Bracket(r.strategy, r.ticker, r.side, r.qty, r.stop, r.target, M.Pending, None, None,
            Leg(first, PendingSubmit), Leg(first + 1, PendingSubmit),
            if r.target.Some? && first + 2 != 0 then Some(Leg(first + 2, PendingSubmit)) else None)
  }

  function IdsDrawn(r: M.Request): nat { if r.target.Some? then 3 else 2 }

  function EntryOrder(r: M.Request, b: Bracket): Sent
  {
    SendOrder(b.parent.order, OpenAction(r.side), r.qty, if r.entry.LimitEntry? then Lmt else Mkt,
              if r.entry.LimitEntry? then Some(r.entry.limit) else None, None, false)
  }

  function StopOrder(b: Bracket, transmit: bool): Sent
  {
    SendOrder(b.stopLeg.order, CloseAction(b.side), b.qty, Stp, Some(b.stop), Some(b.parent.order), transmit)
  }

  function TargetOrders(b: Bracket): seq<Sent>
  {
    if b.targetLeg.None? then []
    else [SendOrder(b.targetLeg.value.order, CloseAction(b.side), b.qty, Lmt, b.target, Some(b.parent.order), true)]
  }

  /** The staged legs of a new bracket. */
  function Staged(r: M.Request, b: Bracket): seq<Sent>
  {
    [EntryOrder(r, b), StopOrder(b, r.target.None?)] + TargetOrders(b)
  }

  function IndexLegs(index: map<OrderId, nat>, b: Bracket, id: nat): map<OrderId, nat>
  {
    var two := index[b.parent.order := id][b.stopLeg.order := id];
    if b.targetLeg.Some? then two[b.targetLeg.value.order := id] else two
  }

  /** A new bracket is filed, indexed and staged at the broker. */
  function Joined(s: Port, r: M.Request, first: OrderId): Port
  {
    var (b, id) := (NewBracket(r, first), s.lastId + 1);
    Port(s.brackets[id := b], IndexLegs(s.index, b, id), s.fills, id, s.sent + Staged(r, b))
  }

  function Place(w: World, r: M.Request): (World, PlaceOutcome)
  {
    if r.rung == M.LIVE then (w, LiveLocked)
    else if r.rung != M.PAPER then (w, WrongRung)
    else if w.gateway.nextId.None? then (w, NotReady)
    else
      var first := w.gateway.nextId.value;
      (World(w.gateway.(nextId := Some(first + IdsDrawn(r))), Joined(w.port, r, first)), Placed(w.port.lastId + 1))
  }

  function Modify(s: Port, m: M.Modification): (Port, M.Outcome)
  {
    if m.id !in s.brackets then (s, M.UnknownBracket) else
    var b := s.brackets[m.id];
    var outcome := ModifyOutcome(b, m);
    if outcome != M.Done then (s, outcome) else
    var c := Amended(b, m);
    (s.(brackets := s.brackets[m.id := c],
        sent := s.sent + [StopOrder(c, true)] + if m.newTarget.Some? then TargetOrders(c) else []), M.Done)
  }

  function Cancel(s: Port, id: nat): (Port, M.Outcome)
  {
    if id !in s.brackets then (s, M.UnknownBracket) else
    var b := s.brackets[id];
    (s.(brackets := s.brackets[id := b.(status := M.Cancelled)],
        sent := s.sent + [SendCancel(b.parent.order), SendCancel(b.stopLeg.order)] +
                if b.targetLeg.Some? then [SendCancel(b.targetLeg.value.order)] else []), M.Done)
  }

  function Step(w: World, e: Event): World
  {
    match e
    case FromGateway(report) =>
      var (g, fill, id) := G.Step(w.gateway, report);
      World(g, if fill.Some? then AfterFill(w.port, fill.value) else w.port)
    case OrderStatus(order, ib, price, now) => w.(port := AfterStatus(w.port, order, ib, price, now))
    case PlaceBracket(r) => Place(w, r).0
    case ModifyBracket(m) => w.(port := Modify(w.port, m).0)
    case CancelBracket(id) => w.(port := Cancel(w.port, id).0)
  }

  const INITIAL := World(G.State(None, map[]), Port(map[], map[], [], 0, []))

  function Run(es: seq<Event>): World
  {
    if |es| == 0 then INITIAL else Step(Run(es[..|es| - 1]), es[|es| - 1])
  }

  // ---- The port as an object ------------------------------------------------------------------

  class IbBracket {
    const strategy: StrategyId
    const ticker: Ticker
    const side: Side
    var qty: Shares
    var stop: Price
    var target: Option<Price>
    var status: M.Status
    var entryPrice: Option<real>
    var openedAt: Option<int>
    var parent: Leg
    var stopLeg: Leg
    var targetLeg: Option<Leg>

    ghost function Value(): Bracket
      reads this
    {
      Bracket(strategy, ticker, side, qty, stop, target, status, entryPrice, openedAt, parent, stopLeg, targetLeg)
    }

    constructor (r: M.Request, parentId: OrderId, stopId: OrderId, targetId: Option<OrderId>)
      requires stopId == parentId + 1 && targetId == if r.target.Some? then Some(parentId + 2) else None
      ensures Value() == NewBracket(r, parentId)
    {
      strategy, ticker, side := r.strategy, r.ticker, r.side;
      qty, stop, target := r.qty, r.stop, r.target;
      status, entryPrice, openedAt := M.Pending, None, None;
      parent, stopLeg := Leg(parentId, PendingSubmit), Leg(stopId, PendingSubmit);
      targetLeg := if targetId.Some? && targetId.value != 0 then Some(Leg(targetId.value, PendingSubmit)) else None;
    }

    method SetLegStatus(order: OrderId, mapped: LegStatus) returns (role: Option<Role>)
      modifies this`parent, this`stopLeg, this`targetLeg
      ensures role == RoleOf(old(Value()), order)
      ensures Value() == if role.Some? then WithLeg(old(Value()), role.value, mapped) else old(Value())
    {
      if parent.order == order {
        parent := parent.(status := mapped);
        return Some(ParentRole);
      }
      if stopLeg.order == order {
        stopLeg := stopLeg.(status := mapped);
        return Some(StopRole);
      }
      if targetLeg.Some? && targetLeg.value.order == order {
        targetLeg := Some(targetLeg.value.(status := mapped));
        return Some(TargetRole);
      }
      role := None;
    }

    method OnStatus(order: OrderId, ib: string, avgFillPrice: real, now: int)
      modifies this
      ensures Value() == StatusReport(old(Value()), order, ib, avgFillPrice, now)
    {
      var mapped := MapIbStatus(ib);
      var role := SetLegStatus(order, mapped);
      if role == Some(ParentRole) && mapped == Filled {
        if status == M.Pending {
          status := M.Open;
          entryPrice := Some(avgFillPrice);
          if openedAt.None? {
            openedAt := Some(now);
          }
        }
      }
      if (role == Some(StopRole) || role == Some(TargetRole)) && mapped == Filled {
        status := M.Closed;
      }
      if mapped == Cancelled && role == Some(ParentRole) {
        status := M.Cancelled;
      }
    }

    method Amend(m: M.Modification) returns (retarget: bool)
      modifies this`stop, this`qty, this`target
      ensures Value() == Amended(old(Value()), m) && retarget == (m.newTarget.Some? && targetLeg.Some?)
    {
      if m.newStop.Some? {
        stop := m.newStop.value;
      }
      if m.newQty.Some? {
        qty := m.newQty.value;
      }
      retarget := m.newTarget.Some? && targetLeg.Some?;
      if retarget {
        target := m.newTarget;
      }
    }

    method OnExecution(f: G.BrokerFill)
      modifies this
      ensures Value() == FillReport(old(Value()), f)
    {
      if parent.order == f.body.order && entryPrice.None? {
        entryPrice := Some(f.body.price);
        if status == M.Pending {
          status := M.Open;
        }
        if openedAt.None? {
          openedAt := Some(f.body.time);
        }
      }
    }
  }

  class IbExecutionPort {
    const gateway: G.Gateway
    var brackets: map<nat, IbBracket>
    var orderIndex: map<OrderId, nat>
    var fills: seq<FillRecord>
    var lastId: nat
    /** What the broker was asked for so far. */
    ghost var sent: seq<Sent>

    /** Brackets are tracked under one id each. */
    ghost predicate Valid()
      reads this
    {
      forall j, k :: j in brackets && k in brackets && j != k ==> brackets[j] != brackets[k]
    }

    ghost function Books(): map<nat, Bracket>
      reads this`brackets, brackets.Values
    {
      map k | k in brackets :: brackets[k].Value()
    }

    ghost function Value(): Port
      reads this, brackets.Values
    {
      Port(Books(), orderIndex, fills, lastId, sent)
    }

    ghost function TheWorld(): World
      reads this, brackets.Values, gateway
    {
      World(gateway.Value(), Value())
    }

    constructor (gateway: G.Gateway)
      ensures Valid() && this.gateway == gateway && Value() == INITIAL.port
    {
      this.gateway := gateway;
      brackets, orderIndex, fills, lastId, sent := map[], map[], [], 0, [];
    }

    method OnOrderStatus(order: OrderId, ib: string, avgFillPrice: real, now: int)
      requires Valid()
      modifies brackets.Values
      ensures Valid() && TheWorld() == Step(old(TheWorld()), OrderStatus(order, ib, avgFillPrice, now))
    {
      if order !in orderIndex || orderIndex[order] !in brackets {
        return;
      }
      brackets[orderIndex[order]].OnStatus(order, ib, avgFillPrice, now);
      assert Books() == AfterStatus(old(Value()), order, ib, avgFillPrice, now).brackets;
    }

    /** A fill the schema refuses has updated its bracket before the refusal. */
    method OnFill(f: G.BrokerFill) returns (ok: bool)
      requires Valid()
      modifies this`fills, brackets.Values
      ensures Valid() && Value() == AfterFill(old(Value()), f)
      ensures brackets == old(brackets)
    {
      ok := true;
      if f.body.order !in orderIndex || orderIndex[f.body.order] !in brackets {
        return;
      }
      brackets[orderIndex[f.body.order]].OnExecution(f);
      if Acceptable(f) {
        fills := fills + [Record(f)];
      } else {
        ok := false;
      }
      assert Books() == AfterFill(old(Value()), f).brackets;
    }

    method OnExecDetails(exec: G.ExecId, body: G.Execution)
      requires Valid()
      modifies this`fills, brackets.Values, gateway
      ensures Valid() && TheWorld() == Step(old(TheWorld()), FromGateway(G.ExecDetails(exec, body)))
    {
      var fill := gateway.OnExecDetails(exec, body);
      if fill.Some? {
        var ok := OnFill(fill.value);
      }
    }

    method OnCommissionReport(exec: G.ExecId, commission: real)
      requires Valid()
      modifies this`fills, brackets.Values, gateway
      ensures Valid() && TheWorld() == Step(old(TheWorld()), FromGateway(G.CommissionReport(exec, commission)))
    {
      var fill := gateway.OnCommissionReport(exec, commission);
      if fill.Some? {
        var ok := OnFill(fill.value);
      }
    }

    method PlaceBracket(r: M.Request) returns (outcome: PlaceOutcome)
      requires Valid()
      modifies this, gateway
      ensures Valid() && TheWorld() == Place(old(TheWorld()), r).0 && outcome == Place(old(TheWorld()), r).1
    {
      if r.rung == M.LIVE {
        return LiveLocked;
      }
      if r.rung != M.PAPER {
        return WrongRung;
      }
      var first, targetId := DrawIds(r);
      if first.None? {
        return NotReady;
      }
      Stage(r, first.value, first.value + 1, targetId);
      outcome := Placed(lastId);
    }

    method Stage(r: M.Request, parentId: OrderId, stopId: OrderId, targetId: Option<OrderId>)
      requires Valid() && stopId == parentId + 1 && targetId == if r.target.Some? then Some(parentId + 2) else None
      modifies this
      ensures Valid() && Value() == Joined(old(Value()), r, parentId)
    {
      var b := new IbBracket(r, parentId, stopId, targetId);
      assert Books() == old(Books());
      Track(b, Staged(r, b.Value()));
    }

    /** Order ids for the parent and the stop, which come in a row, and for a target if there is one. */
    method DrawIds(r: M.Request) returns (first: Option<OrderId>, targetId: Option<OrderId>)
      modifies gateway
      ensures first == old(gateway.nextId)
      ensures first.Some? ==> targetId == if r.target.Some? then Some(first.value + 2) else None
      ensures gateway.Value() ==
        if first.Some? then old(gateway.Value()).(nextId := Some(first.value + IdsDrawn(r))) else old(gateway.Value())
    {
      targetId := None;
      first := gateway.AllocateOrderId();
      if first.Some? {
        var stopId := gateway.AllocateOrderId();
        if r.target.Some? {
          targetId := gateway.AllocateOrderId();
        }
      }
    }

    /** File a new bracket under the next id, index its legs and send its orders. */
    method Track(b: IbBracket, ghost orders: seq<Sent>)
      requires Valid() && b !in brackets.Values
      modifies this
      ensures Valid() && lastId == old(lastId) + 1
      ensures var s := old(Value());
        Value() == Port(s.brackets[lastId := b.Value()], IndexLegs(s.index, b.Value(), lastId), s.fills, lastId, s.sent + orders)
    {
      lastId := lastId + 1;
      File(b);
      Index(b);
      sent := sent + orders;
    }

    method File(b: IbBracket)
      requires Valid() && b !in brackets.Values
      modifies this`brackets
      ensures Valid() && brackets == old(brackets)[lastId := b] && Books() == old(Books())[lastId := b.Value()]
    {
      brackets := brackets[lastId := b];
      forall k | k in old(brackets) && k != lastId ensures Books()[k] == old(Books())[k] {
        assert brackets[k] == old(brackets)[k];
      }
      assert Books() == old(Books())[lastId := b.Value()];
    }

    method Index(b: IbBracket)
      modifies this`orderIndex
      ensures orderIndex == IndexLegs(old(orderIndex), b.Value(), lastId)
    {
      orderIndex := orderIndex[b.parent.order := lastId];
      orderIndex := orderIndex[b.stopLeg.order := lastId];
      if b.targetLeg.Some? {
        orderIndex := orderIndex[b.targetLeg.value.order := lastId];
      }
    }

    method ModifyBracket(m: M.Modification) returns (outcome: M.Outcome)
      requires Valid()
      modifies this`sent, brackets.Values
      ensures Valid() && Value() == Modify(old(Value()), m).0 && outcome == Modify(old(Value()), m).1
    {
      if m.id !in brackets {
        return M.UnknownBracket;
      }
      var b := brackets[m.id];
      if b.status != M.Open && b.status != M.Pending {
        return M.NotWorking;
      }
      if m.newQty.Some? && m.newQty.value >= b.qty {
        return M.NotDownward;
      }
      var retarget := b.Amend(m);
      sent := sent + [StopOrder(b.Value(), true)] + if retarget then TargetOrders(b.Value()) else [];
      assert Books() == old(Books())[m.id := Amended(old(brackets[m.id].Value()), m)];
      outcome := M.Done;
    }

    method CancelBracket(id: nat) returns (outcome: M.Outcome)
      requires Valid()
      modifies this`sent, brackets.Values
      ensures Valid() && Value() == Cancel(old(Value()), id).0 && outcome == Cancel(old(Value()), id).1
    {
      if id !in brackets {
        return M.UnknownBracket;
      }
      var b := brackets[id];
      sent := sent + [SendCancel(b.parent.order), SendCancel(b.stopLeg.order)];
      if b.targetLeg.Some? {
        sent := sent + [SendCancel(b.targetLeg.value.order)];
      }
      b.status := M.Cancelled;
      assert Books() == old(Books())[id := old(brackets[id].Value()).(status := M.Cancelled)];
      outcome := M.Done;
    }
  }

  // ---- What every run keeps ----------------------------------------------------------------------

  /** A bracket has an entry price and an open time together, from its first parent report on. */
  ghost predicate WellFormed(b: Bracket)
  {
    (b.entryPrice.Some? <==> b.openedAt.Some?) && (b.status == M.Open ==> b.entryPrice.Some?) &&
    (b.status == M.Pending ==> b.entryPrice.None?) &&
    b.parent.order != b.stopLeg.order &&
    (b.targetLeg.Some? ==> b.targetLeg.value.order != b.parent.order && b.targetLeg.value.order != b.stopLeg.order)
  }

  predicate Over(s: M.Status) { s == M.Closed || s == M.Cancelled }

  /** How a bracket may change: it never reopens, and its identity, entry price and open time stay. */
  ghost predicate Later(b: Bracket, c: Bracket)
  {
    (Over(b.status) ==> Over(c.status)) && (b.status == M.Open ==> c.status != M.Pending) &&
    (b.entryPrice.Some? ==> c.entryPrice == b.entryPrice) && (b.openedAt.Some? ==> c.openedAt == b.openedAt) &&
    c.strategy == b.strategy && c.ticker == b.ticker && c.side == b.side && c.qty <= b.qty && LegIds(c) == LegIds(b)
  }

  lemma StatusReportLater(b: Bracket, order: OrderId, ib: string, avgFillPrice: real, now: int)
    requires WellFormed(b)
    ensures WellFormed(StatusReport(b, order, ib, avgFillPrice, now)) && Later(b, StatusReport(b, order, ib, avgFillPrice, now))
  {
  }

  lemma FillReportLater(b: Bracket, f: G.BrokerFill)
    requires WellFormed(b)
    ensures WellFormed(FillReport(b, f)) && Later(b, FillReport(b, f))
  {
  }

  lemma AmendedLater(b: Bracket, m: M.Modification)
    requires WellFormed(b) && ModifyOutcome(b, m) == M.Done
    ensures WellFormed(Amended(b, m)) && Later(b, Amended(b, m))
  {
  }

  /** The index leads each leg of each bracket to it, and nothing else; ids not yet drawn are free. */
  ghost predicate Routed(w: World)
  {
    Filed(w.port) && LegsLead(w.port) && IndexLeads(w)
  }

  ghost predicate Filed(s: Port)
  {
    forall k :: k in s.brackets ==> 1 <= k <= s.lastId && WellFormed(s.brackets[k])
  }

  ghost predicate LegsLead(s: Port)
  {
    forall k, o :: k in s.brackets && o in LegIds(s.brackets[k]) ==> o in s.index && s.index[o] == k
  }

  ghost predicate IndexLeads(w: World)
  {
    forall o :: o in w.port.index ==>
      w.port.index[o] in w.port.brackets && o in LegIds(w.port.brackets[w.port.index[o]]) &&
      w.gateway.nextId.Some? && o < w.gateway.nextId.value
  }

  /** Every bracket is still there, and later; the index only grows. */
  ghost predicate Onward(s: Port, t: Port)
  {
    (forall k :: k in s.brackets ==> k in t.brackets && Later(s.brackets[k], t.brackets[k])) &&
    (forall o :: o in s.index ==> o in t.index && t.index[o] == s.index[o])
  }

  lemma MovedFiled(s: Port, t: Port, id: nat, c: Bracket)
    requires Filed(s) && LegsLead(s) && id in s.brackets && WellFormed(c) && LegIds(c) == LegIds(s.brackets[id])
    requires t.brackets == s.brackets[id := c] && t.index == s.index && t.lastId == s.lastId
    ensures Filed(t) && LegsLead(t)
  {
  }

  lemma MovedOnward(s: Port, t: Port, id: nat, c: Bracket)
    requires id in s.brackets && Later(s.brackets[id], c) && t.brackets == s.brackets[id := c] && t.index == s.index
    ensures Onward(s, t)
  {
    forall k | k in s.brackets ensures k in t.brackets && Later(s.brackets[k], t.brackets[k]) {
    }
  }

  /** One bracket moves on, the rest stays. */
  lemma OneBracketMoves(w: World, v: World, id: nat, c: Bracket)
    requires Routed(w) && id in w.port.brackets && WellFormed(c) && Later(w.port.brackets[id], c)
    requires v.port.brackets == w.port.brackets[id := c] && v.port.index == w.port.index && v.port.lastId == w.port.lastId
    requires w.gateway.nextId.Some? ==> v.gateway.nextId == w.gateway.nextId
    ensures Routed(v) && Onward(w.port, v.port)
  {
    MovedFiled(w.port, v.port, id, c);
    MovedOnward(w.port, v.port, id, c);
    assert IndexLeads(v) by {
      assert LegIds(c) == LegIds(w.port.brackets[id]);
    }
  }

  lemma LegsIndexed(index: map<OrderId, nat>, b: Bracket, id: nat)
    ensures var more := IndexLegs(index, b, id);
      (forall o :: o in more <==> o in index || o in LegIds(b)) &&
      (forall o :: o in more ==> more[o] == if o in LegIds(b) then id else index[o])
  {
  }

  lemma NewLegs(r: M.Request, first: OrderId)
    ensures WellFormed(NewBracket(r, first))
    ensures forall o :: o in LegIds(NewBracket(r, first)) ==> first <= o < first + IdsDrawn(r)
  {
  }

  /** A bracket on fresh order ids joins the others. */
  lemma BracketJoins(w: World, v: World, b: Bracket)
    requires Routed(w) && WellFormed(b) && v.port.lastId == w.port.lastId + 1
    requires w.gateway.nextId.Some? && v.gateway.nextId.Some? && v.gateway.nextId.value >= w.gateway.nextId.value
    requires forall o :: o in LegIds(b) ==> w.gateway.nextId.value <= o < v.gateway.nextId.value
    requires v.port.brackets == w.port.brackets[v.port.lastId := b]
    requires forall o :: o in v.port.index <==> o in w.port.index || o in LegIds(b)
    requires forall o :: o in v.port.index ==> v.port.index[o] == if o in LegIds(b) then v.port.lastId else w.port.index[o]
    ensures Routed(v) && Onward(w.port, v.port)
  {
    JoinedIndexLeads(w, v, b);
    JoinedLegsLead(w, v, b);
  }

  lemma JoinedIndexLeads(w: World, v: World, b: Bracket)
    requires Filed(w.port) && IndexLeads(w) && v.port.lastId == w.port.lastId + 1
    requires w.gateway.nextId.Some? && v.gateway.nextId.Some? && v.gateway.nextId.value >= w.gateway.nextId.value
    requires forall o :: o in LegIds(b) ==> o < v.gateway.nextId.value
    requires v.port.brackets == w.port.brackets[v.port.lastId := b]
    requires forall o :: o in v.port.index <==> o in w.port.index || o in LegIds(b)
    requires forall o :: o in v.port.index ==> v.port.index[o] == if o in LegIds(b) then v.port.lastId else w.port.index[o]
    ensures IndexLeads(v)
  {
  }

  lemma JoinedLegsLead(w: World, v: World, b: Bracket)
    requires LegsLead(w.port) && IndexLeads(w)
    requires w.gateway.nextId.Some? && forall o :: o in LegIds(b) ==> w.gateway.nextId.value <= o
    requires v.port.brackets == w.port.brackets[v.port.lastId := b]
    requires forall o :: o in v.port.index <==> o in w.port.index || o in LegIds(b)
    requires forall o :: o in v.port.index ==> v.port.index[o] == if o in LegIds(b) then v.port.lastId else w.port.index[o]
    ensures LegsLead(v.port)
  {
    forall k, o | k in v.port.brackets && o in LegIds(v.port.brackets[k])
      ensures o in v.port.index && v.port.index[o] == k
    {
      if k != v.port.lastId {
        assert o in w.port.index && o !in LegIds(b);
      }
    }
  }

  lemma PlaceKeeps(w: World, r: M.Request)
    requires Routed(w)
    ensures Routed(Place(w, r).0) && Onward(w.port, Place(w, r).0.port)
  {
    if Place(w, r).1.Placed? {
      var (first, id) := (w.gateway.nextId.value, w.port.lastId + 1);
      var b := NewBracket(r, first);
      NewLegs(r, first);
      LegsIndexed(w.port.index, b, id);
      BracketJoins(w, Place(w, r).0, b);
    }
  }

  lemma FillKeeps(w: World, v: World, f: G.BrokerFill)
    requires Routed(w) && v.port == AfterFill(w.port, f) && v.gateway.nextId == w.gateway.nextId
    ensures Routed(v) && Onward(w.port, v.port)
  {
    if f.body.order in w.port.index {
      var id := w.port.index[f.body.order];
      FillReportLater(w.port.brackets[id], f);
      OneBracketMoves(w, v, id, FillReport(w.port.brackets[id], f));
    }
  }

  lemma StatusKeeps(w: World, v: World, order: OrderId, ib: string, price: real, now: int)
    requires Routed(w) && v == w.(port := AfterStatus(w.port, order, ib, price, now))
    ensures Routed(v) && Onward(w.port, v.port)
  {
    if order in w.port.index {
      var id := w.port.index[order];
      StatusReportLater(w.port.brackets[id], order, ib, price, now);
      OneBracketMoves(w, v, id, StatusReport(w.port.brackets[id], order, ib, price, now));
    }
  }

  lemma ModifyKeeps(w: World, v: World, m: M.Modification)
    requires Routed(w) && v == w.(port := Modify(w.port, m).0)
    ensures Routed(v) && Onward(w.port, v.port)
  {
    if Modify(w.port, m).1 == M.Done {
      AmendedLater(w.port.brackets[m.id], m);
      OneBracketMoves(w, v, m.id, Amended(w.port.brackets[m.id], m));
    }
  }

  lemma CancelKeeps(w: World, v: World, id: nat)
    requires Routed(w) && v == w.(port := Cancel(w.port, id).0)
    ensures Routed(v) && Onward(w.port, v.port)
  {
    if id in w.port.brackets {
      OneBracketMoves(w, v, id, w.port.brackets[id].(status := M.Cancelled));
    }
  }

  lemma QuietKeeps(w: World, v: World)
    requires Routed(w) && v.port == w.port && (w.gateway.nextId.Some? ==> v.gateway.nextId.Some?)
    requires w.gateway.nextId.Some? ==> v.gateway.nextId.value >= w.gateway.nextId.value
    ensures Routed(v) && Onward(w.port, v.port)
  {
    OnwardStays(w.port);
  }

  lemma NextIdOnly(s: G.State, e: G.Event)
    ensures s.nextId.Some? ==> G.Step(s, e).0.nextId.Some? && G.Step(s, e).0.nextId.value >= s.nextId.value
    ensures G.Step(s, e).1.Some? ==> G.Step(s, e).0.nextId == s.nextId
  {
  }

  lemma GatewayKeeps(w: World, report: G.Event)
    requires Routed(w)
    ensures Routed(Step(w, FromGateway(report))) && Onward(w.port, Step(w, FromGateway(report)).port)
  {
    var (g, fill, id) := G.Step(w.gateway, report);
    NextIdOnly(w.gateway, report);
    if fill.Some? {
      FillKeeps(w, World(g, AfterFill(w.port, fill.value)), fill.value);
    } else {
      QuietKeeps(w, World(g, w.port));
    }
  }

  lemma StepKeeps(w: World, e: Event)
    requires Routed(w)
    ensures Routed(Step(w, e)) && Onward(w.port, Step(w, e).port)
  {
    match e
    case FromGateway(report) => GatewayKeeps(w, report);
    case OrderStatus(order, ib, price, now) => StatusKeeps(w, Step(w, e), order, ib, price, now);
    case PlaceBracket(r) => PlaceKeeps(w, r);
    case ModifyBracket(m) => ModifyKeeps(w, Step(w, e), m);
    case CancelBracket(id) => CancelKeeps(w, Step(w, e), id);
  }

  /** In every run, every leg leads to its bracket and every open bracket has an entry price and an open time. */
  lemma {:induction false} RunRouted(es: seq<Event>)
    ensures Routed(Run(es))
    ensures forall k :: k in Run(es).port.brackets && Run(es).port.brackets[k].status == M.Open ==>
      Run(es).port.brackets[k].entryPrice.Some? && Run(es).port.brackets[k].openedAt.Some?
  {
    if |es| > 0 {
      RunRouted(es[..|es| - 1]);
      StepKeeps(Run(es[..|es| - 1]), es[|es| - 1]);
    }
  }

  lemma OnwardOn(s: Port, t: Port, u: Port)
    requires Onward(s, t) && Onward(t, u)
    ensures Onward(s, u)
  {
    forall k | k in s.brackets ensures k in u.brackets && Later(s.brackets[k], u.brackets[k]) {
      assert Later(s.brackets[k], t.brackets[k]) && Later(t.brackets[k], u.brackets[k]);
    }
  }

  lemma {:induction false} OnwardStays(s: Port)
    ensures Onward(s, s)
  {
  }

  /**
   No continuation of a run reopens a closed or cancelled bracket, loses a bracket, or
   changes an entry price or open time once set.
   */
  lemma {:induction false} NeverReopened(es: seq<Event>, more: seq<Event>)
    ensures Onward(Run(es).port, Run(es + more).port)
  {
    if |more| == 0 {
      assert es + more == es;
      OnwardStays(Run(es).port);
    } else {
      var init := more[..|more| - 1];
      NeverReopened(es, init);
      RunOn(es, more);
      RunRouted(es + init);
      StepKeeps(Run(es + init), more[|more| - 1]);
      OnwardOn(Run(es).port, Run(es + init).port, Run(es + more).port);
    }
  }

  /**
   Closed and cancelled are no resting places, though: in every run, whatever a bracket's
   status, cancelling it and then seeing its stop filled leaves it closed, and cancelling
   it once more leaves it cancelled.
   */
  lemma OverFlips(es: seq<Event>, id: nat, price: real, now: int)
    requires id in Run(es).port.brackets
    ensures var cancel, filled := CancelBracket(id), OrderStatus(Run(es).port.brackets[id].stopLeg.order, "Filled", price, now);
      id in Run(es + [cancel]).port.brackets && Run(es + [cancel]).port.brackets[id].status == M.Cancelled &&
      id in Run(es + [cancel, filled]).port.brackets && Run(es + [cancel, filled]).port.brackets[id].status == M.Closed &&
      id in Run(es + [cancel, filled, cancel]).port.brackets &&
      Run(es + [cancel, filled, cancel]).port.brackets[id].status == M.Cancelled
  {
    RunRouted(es);
    var cancel, filled := CancelBracket(id), OrderStatus(Run(es).port.brackets[id].stopLeg.order, "Filled", price, now);
    StopFillCloses(Run(es).port, id, price, now);
    ThreeOn(es, cancel, filled, cancel);
  }

  lemma ThreeOn(es: seq<Event>, a: Event, b: Event, c: Event)
    ensures Run(es + [a]) == Step(Run(es), a)
    ensures Run(es + [a, b]) == Step(Step(Run(es), a), b)
    ensures Run(es + [a, b, c]) == Step(Step(Step(Run(es), a), b), c)
  {
    assert es + [] == es && [a][..0] == [] && [a, b][..1] == [a] && [a, b, c][..2] == [a, b];
    RunOn(es, [a]);
    RunOn(es, [a, b]);
    RunOn(es, [a, b, c]);
  }

  lemma StopFillCloses(s: Port, id: nat, price: real, now: int)
    requires LegsLead(s) && Filed(s) && id in s.brackets
    ensures var t := Cancel(s, id).0;
      var u := AfterStatus(t, s.brackets[id].stopLeg.order, "Filled", price, now);
      id in t.brackets && t.brackets[id].status == M.Cancelled &&
      id in u.brackets && u.brackets[id].status == M.Closed &&
      id in Cancel(u, id).0.brackets && Cancel(u, id).0.brackets[id].status == M.Cancelled
  {
    var b := s.brackets[id];
    assert b.stopLeg.order in LegIds(b);
    StopFilled(b.(status := M.Cancelled), price, now);
  }

  lemma StopFilled(b: Bracket, price: real, now: int)
    requires b.parent.order != b.stopLeg.order
    ensures StatusReport(b, b.stopLeg.order, "Filled", price, now).status == M.Closed
  {
  }

  lemma RunOn(es: seq<Event>, more: seq<Event>)
    requires |more| > 0
    ensures Run(es + more) == Step(Run(es + more[..|more| - 1]), more[|more| - 1])
  {
    assert (es + more)[..|es + more| - 1] == es + more[..|more| - 1];
  }

  // ---- Executions end to end -----------------------------------------------------------------------

  /** What the gateway sees of an event: an accepted placement draws its order ids. */
  function SeenByGateway(w: World, e: Event): seq<G.Event>
  {
    match e
    case FromGateway(report) => [report]
    case PlaceBracket(r) =>
      if !Place(w, r).1.Placed? then []
      else Drawn(r)
    case _ => []
  }

  function GatewayTrace(es: seq<Event>): seq<G.Event>
  {
    if |es| == 0 then [] else
    GatewayTrace(es[..|es| - 1]) + SeenByGateway(Run(es[..|es| - 1]), es[|es| - 1])
  }

  function RecordsOf(exec: G.ExecId, fs: seq<FillRecord>): seq<FillRecord>
  {
    if |fs| == 0 then [] else
    RecordsOf(exec, fs[..|fs| - 1]) + if fs[|fs| - 1].exec == exec then [fs[|fs| - 1]] else []
  }

  lemma AllocateOn(gs: seq<G.Event>)
    ensures G.Run(gs + [G.Allocate]).fills == G.Run(gs).fills
    ensures G.Run(gs + [G.Allocate]).state == G.Step(G.Run(gs).state, G.Allocate).0
  {
    assert (gs + [G.Allocate])[..|gs|] == gs;
  }

  lemma ReportOn(gs: seq<G.Event>, g: G.Event)
    ensures var (t, fill, id) := G.Step(G.Run(gs).state, g);
      G.Run(gs + [g]).state == t && G.Run(gs + [g]).fills == G.Run(gs).fills + if fill.Some? then [fill.value] else []
  {
    assert (gs + [g])[..|gs|] == gs;
  }

  /** The gateway inside the port runs as it would alone. */
  lemma {:induction false} GatewayInside(es: seq<Event>)
    ensures Run(es).gateway == G.Run(GatewayTrace(es)).state
  {
    if |es| > 0 {
      var before, e := es[..|es| - 1], es[|es| - 1];
      GatewayInside(before);
      GatewayStep(Run(before), GatewayTrace(before), e);
    }
  }

  function Drawn(r: M.Request): seq<G.Event>
  {
    [G.Allocate, G.Allocate] + if r.target.Some? then [G.Allocate] else []
  }

  lemma IdsDrawnOn(gs: seq<G.Event>, r: M.Request)
    requires G.Run(gs).state.nextId.Some?
    ensures var s := G.Run(gs).state;
      G.Run(gs + Drawn(r)).state == s.(nextId := Some(s.nextId.value + IdsDrawn(r)))
    ensures G.Run(gs + Drawn(r)).fills == G.Run(gs).fills
  {
    var one := gs + [G.Allocate];
    var two := one + [G.Allocate];
    AllocateOn(gs);
    AllocateOn(one);
    AllocateOn(two);
    assert gs + Drawn(r) == if r.target.Some? then two + [G.Allocate] else two;
  }

  lemma GatewayStep(w: World, gs: seq<G.Event>, e: Event)
    requires w.gateway == G.Run(gs).state
    ensures Step(w, e).gateway == G.Run(gs + SeenByGateway(w, e)).state
    ensures !e.FromGateway? ==> G.Run(gs + SeenByGateway(w, e)).fills == G.Run(gs).fills
  {
    if e.FromGateway? {
      ReportOn(gs, e.report);
    } else if e.PlaceBracket? && Place(w, e.request).1.Placed? {
      IdsDrawnOn(gs, e.request);
    } else {
      assert gs + SeenByGateway(w, e) == gs;
    }
  }

  /** The records that some fills make. */
  function Records(fs: seq<G.BrokerFill>): seq<FillRecord>
  {
    seq(|fs|, i requires 0 <= i < |fs| => Record(fs[i]))
  }

  lemma RecordsOfOn(exec: G.ExecId, fs: seq<FillRecord>, f: FillRecord)
    ensures RecordsOf(exec, fs + [f]) == RecordsOf(exec, fs) + if f.exec == exec then [f] else []
  {
    assert (fs + [f])[..|fs|] == fs;
  }

  /** The fills of an execution stay, or gain one, which is recorded if it is known and acceptable. */
  ghost predicate Grows(
      exec: G.ExecId, known: map<OrderId, nat>, fills: seq<G.BrokerFill>, more: seq<G.BrokerFill>,
      records: seq<FillRecord>, moreRecords: seq<FillRecord>)
  {
    (more == fills && moreRecords == records) ||
    (|more| == |fills| + 1 && more[..|fills|] == fills && more[|fills|].exec == exec &&
     moreRecords == records +
       if more[|fills|].body.order in known && Acceptable(more[|fills|]) then [Record(more[|fills|])] else [])
  }

  /** What the last event adds to the fills and to the records of an execution. */
  lemma LastFill(exec: G.ExecId, es: seq<Event>)
    requires |es| > 0
    ensures Grows(exec, Run(es[..|es| - 1]).port.index,
      G.FillsOf(exec, G.Run(GatewayTrace(es[..|es| - 1])).fills), G.FillsOf(exec, G.Run(GatewayTrace(es)).fills),
      RecordsOf(exec, Run(es[..|es| - 1]).port.fills), RecordsOf(exec, Run(es).port.fills))
  {
    var before, e := es[..|es| - 1], es[|es| - 1];
    GatewayInside(before);
    RunRouted(before);
    EventGrows(exec, Run(before), GatewayTrace(before), e);
  }

  lemma FillGrows(exec: G.ExecId, s: Port, fs: seq<G.BrokerFill>, f: G.BrokerFill)
    requires forall o :: o in s.index ==> s.index[o] in s.brackets
    ensures Grows(exec, s.index, G.FillsOf(exec, fs), G.FillsOf(exec, fs + [f]),
      RecordsOf(exec, s.fills), RecordsOf(exec, AfterFill(s, f).fills))
  {
    G.FillsOfOn(exec, fs, f);
    RecordsOfOn(exec, s.fills, Record(f));
    FillRecorded(s, f);
    var fills := G.FillsOf(exec, fs);
    if f.exec == exec {
      assert (fills + [f])[..|fills|] == fills;
    }
  }

  lemma FillRecorded(s: Port, f: G.BrokerFill)
    requires forall o :: o in s.index ==> s.index[o] in s.brackets
    ensures AfterFill(s, f).fills == if f.body.order in s.index && Acceptable(f) then s.fills + [Record(f)] else s.fills
  {
  }

  lemma OthersRecordNothing(w: World, e: Event)
    requires !e.FromGateway?
    ensures Step(w, e).port.fills == w.port.fills
  {
  }

  lemma ReportGrows(exec: G.ExecId, w: World, gs: seq<G.Event>, report: G.Event)
    requires w.gateway == G.Run(gs).state && forall o :: o in w.port.index ==> w.port.index[o] in w.port.brackets
    ensures Grows(exec, w.port.index,
      G.FillsOf(exec, G.Run(gs).fills), G.FillsOf(exec, G.Run(gs + [report]).fills),
      RecordsOf(exec, w.port.fills), RecordsOf(exec, Step(w, FromGateway(report)).port.fills))
  {
    ReportOn(gs, report);
    var fill := G.Step(w.gateway, report).1;
    if fill.Some? {
      FillGrows(exec, w.port, G.Run(gs).fills, fill.value);
    } else {
      assert G.Run(gs + [report]).fills == G.Run(gs).fills;
    }
  }

  lemma EventGrows(exec: G.ExecId, w: World, gs: seq<G.Event>, e: Event)
    requires w.gateway == G.Run(gs).state && forall o :: o in w.port.index ==> w.port.index[o] in w.port.brackets
    ensures Grows(exec, w.port.index,
      G.FillsOf(exec, G.Run(gs).fills), G.FillsOf(exec, G.Run(gs + SeenByGateway(w, e)).fills),
      RecordsOf(exec, w.port.fills), RecordsOf(exec, Step(w, e).port.fills))
  {
    if e.FromGateway? {
      ReportGrows(exec, w, gs, e.report);
    } else {
      GatewayStep(w, gs, e);
      OthersRecordNothing(w, e);
    }
  }

  /** An execution leaves at most as many records as the gateway emitted fills. */
  lemma {:induction false} NoInventedRecords(exec: G.ExecId, es: seq<Event>)
    ensures |RecordsOf(exec, Run(es).port.fills)| <= |G.FillsOf(exec, G.Run(GatewayTrace(es)).fills)|
  {
    if |es| > 0 {
      NoInventedRecords(exec, es[..|es| - 1]);
      LastFill(exec, es);
    }
  }

  /** The fills of an execution that have come out, and the records it has left. */
  function FillsSeen(exec: G.ExecId, es: seq<Event>): seq<G.BrokerFill> { G.FillsOf(exec, G.Run(GatewayTrace(es)).fills) }

  function RecordsLeft(exec: G.ExecId, es: seq<Event>): seq<FillRecord> { RecordsOf(exec, Run(es).port.fills) }

  lemma LastRecorded(exec: G.ExecId, es: seq<Event>, f: G.BrokerFill)
    requires |es| > 0 && FillsSeen(exec, es) <= [f]
    requires f.body.order in Run(es[..|es| - 1]).port.index && Acceptable(f)
    ensures FillsSeen(exec, es[..|es| - 1]) <= [f]
    ensures RecordsLeft(exec, es[..|es| - 1]) == Records(FillsSeen(exec, es[..|es| - 1])) ==>
      RecordsLeft(exec, es) == Records(FillsSeen(exec, es))
  {
    LastFill(exec, es);
  }

  lemma {:induction false} FillsAllRecorded(exec: G.ExecId, es: seq<Event>, more: seq<Event>, f: G.BrokerFill)
    requires FillsSeen(exec, es) == [] && FillsSeen(exec, es + more) <= [f]
    requires f.body.order in Run(es).port.index && Acceptable(f)
    ensures RecordsLeft(exec, es + more) == Records(FillsSeen(exec, es + more))
  {
    if |more| == 0 {
      assert es + more == es;
      NoInventedRecords(exec, es);
    } else {
      var init := more[..|more| - 1];
      KnownLater(es, init, f.body.order);
      assert (es + more)[..|es + more| - 1] == es + init;
      LastRecorded(exec, es + more, f);
      FillsAllRecorded(exec, es, init, f);
    }
  }

  lemma KnownLater(es: seq<Event>, more: seq<Event>, order: OrderId)
    requires order in Run(es).port.index
    ensures order in Run(es + more).port.index
  {
    NeverReopened(es, more);
  }

  /**
   An execution reported once by each half, in either order and any interleaving, against
   an order the port already knows, is recorded exactly once, with its commission; until
   both halves are in there is no record.
   */
  lemma RecordedExactlyOnce(exec: G.ExecId, es: seq<Event>, more: seq<Event>, body: G.Execution, commission: real)
    requires exec != "" && G.HalvesOf(exec, GatewayTrace(es)) == []
    requires G.OneOfEach(G.HalvesOf(exec, GatewayTrace(es + more)))
    requires body.order in Run(es).port.index && Acceptable(G.BrokerFill(exec, body, commission))
    requires var hs := G.HalvesOf(exec, GatewayTrace(es + more));
      G.BodyIn(hs) in {None, Some(body)} && G.CommissionIn(hs) in {None, Some(commission)}
    ensures var hs := G.HalvesOf(exec, GatewayTrace(es + more));
      RecordsOf(exec, Run(es + more).port.fills) ==
      if G.BodyIn(hs).Some? && G.CommissionIn(hs).Some? then [Record(G.BrokerFill(exec, body, commission))] else []
  {
    SeenJoined(exec, es);
    SeenJoined(exec, es + more);
    FillsAllRecorded(exec, es, more, G.BrokerFill(exec, body, commission));
  }

  lemma SeenJoined(exec: G.ExecId, es: seq<Event>)
    requires exec != "" && G.OneOfEach(G.HalvesOf(exec, GatewayTrace(es)))
    ensures var hs := G.HalvesOf(exec, GatewayTrace(es));
      FillsSeen(exec, es) ==
      if G.BodyIn(hs).Some? && G.CommissionIn(hs).Some?
      then [G.BrokerFill(exec, G.BodyIn(hs).value, G.CommissionIn(hs).value)] else []
  {
    G.JoinedExactlyOnce(exec, GatewayTrace(es));
  }

  // ---- What is asked of the broker ---------------------------------------------------------------

  /**
   Every staged exit closes the whole position against its parent, and only the last leg
   transmits - unless the target drew the order id zero, when none does.
   */
  lemma LastLegTransmits(r: M.Request, first: OrderId)
    ensures var b := NewBracket(r, first); var staged := Staged(r, b);
      2 <= |staged| == |LegIds(b)| <= 3 &&
      (forall i :: 0 <= i < |staged| ==> staged[i].SendOrder? && staged[i].order == LegIds(b)[i] && staged[i].qty == r.qty) &&
      (forall i :: 1 <= i < |staged| ==> staged[i].action == CloseAction(r.side) && staged[i].parent == Some(first)) &&
      (forall i :: 0 <= i < |staged| - 1 ==> !staged[i].transmit) &&
      (staged[|staged| - 1].transmit <==> r.target.None? || first + 2 != 0)
  {
  }

  // ---- Reports and calls, in the broker's terms ------------------------------------------------------

  /** What the broker's words mean. */
  lemma WordsExactly(ib: string)
    ensures MapIbStatus(ib) == Filled <==> ib == "Filled"
    ensures MapIbStatus(ib) == Cancelled <==> ib in {"Cancelled", "ApiCancelled", "PendingCancel"}
    ensures MapIbStatus(ib) == Working <==> ib == "Submitted"
    ensures MapIbStatus(ib) == Submitted <==> ib == "PreSubmitted"
    ensures MapIbStatus(ib) == PendingSubmit <==> ib in {"PendingSubmit", "ApiPending"}
  {
  }

  /** A leg that takes its status from the broker's word. */
  ghost predicate Told(l: Leg, ib: string, m: Leg)
  {
    m == Leg(l.order, MapIbStatus(ib))
  }

  /**
   A status on the parent opens a pending bracket when it is filled, at the reported price
   and from now unless a time is known, and cancels any bracket when it is cancelled; a
   status on a protective leg closes any bracket when it is filled.  Whatever it says, that
   leg takes it and nothing else changes.
   */
  lemma StatusExactly(b: Bracket, order: OrderId, ib: string, price: real, now: int)
    requires WellFormed(b)
    ensures var c := StatusReport(b, order, ib, price, now);
      if order == b.parent.order then
        Told(b.parent, ib, c.parent) &&
        if ib == "Filled" && b.status == M.Pending then
          c == b.(parent := c.parent, status := M.Open, entryPrice := Some(price), openedAt := Some(now))
        else if ib in {"Cancelled", "ApiCancelled", "PendingCancel"} then c == b.(parent := c.parent, status := M.Cancelled)
        else c == b.(parent := c.parent)
      else if order == b.stopLeg.order then
        Told(b.stopLeg, ib, c.stopLeg) &&
        c == b.(stopLeg := c.stopLeg, status := if ib == "Filled" then M.Closed else b.status)
      else if b.targetLeg.Some? && order == b.targetLeg.value.order then
        c.targetLeg.Some? && Told(b.targetLeg.value, ib, c.targetLeg.value) &&
        c == b.(targetLeg := c.targetLeg, status := if ib == "Filled" then M.Closed else b.status)
      else c == b
  {
  }

  /** The first execution on the parent sets entry price and open time and opens a pending bracket; no other changes one. */
  lemma FillExactly(b: Bracket, f: G.BrokerFill)
    requires WellFormed(b)
    ensures var c := FillReport(b, f);
      if f.body.order == b.parent.order && b.entryPrice.None? then
        c == b.(entryPrice := Some(f.body.price), openedAt := Some(f.body.time),
                status := if b.status == M.Pending then M.Open else b.status)
      else c == b
  {
  }

  /** A record carries the execution as it was, a purchase as long and a sale as short. */
  lemma RecordExactly(f: G.BrokerFill)
    ensures var r := Record(f);
      r.order == f.body.order && r.exec == f.exec && r.ticker == f.body.symbol && r.qty == f.body.shares &&
      r.price == f.body.price && r.commission == f.commission && r.at == f.body.time &&
      (r.side == Long <==> f.body.action == Buy)
  {
  }

  /** An exit order sells a long or buys back a short, whole, against the parent. */
  ghost predicate ExitOrder(o: Sent, order: OrderId, side: Side, qty: Shares, kind: OrderKind, price: Price, parent: OrderId)
  {
    o.SendOrder? && o.order == order && o.action == (if side == Long then Sell else Buy) && o.qty == qty &&
    o.kind == kind && o.price == Some(price) && o.parent == Some(parent)
  }

  /**
   A placement stages, on consecutive ids, an entry in the request's direction, at its
   limit if it has one; a stop order at the stop; and, unless its id is zero, a limit order
   at the target.  The bracket is on the request's terms, and pending.
   */
  lemma StagedExactly(r: M.Request, first: OrderId)
    ensures var b := NewBracket(r, first); var sent := Staged(r, b);
      b.strategy == r.strategy && b.ticker == r.ticker && b.side == r.side && b.qty == r.qty && b.stop == r.stop &&
      b.target == r.target && b.status == M.Pending && b.entryPrice.None? && b.openedAt.None? &&
      |sent| == (if r.target.Some? && first + 2 != 0 then 3 else 2) &&
      sent[0] == SendOrder(first, if r.side == Long then Buy else Sell, r.qty, if r.entry.LimitEntry? then Lmt else Mkt,
                           if r.entry.LimitEntry? then Some(r.entry.limit) else None, None, false) &&
      ExitOrder(sent[1], first + 1, r.side, r.qty, Stp, r.stop, first) &&
      (|sent| == 3 ==> ExitOrder(sent[2], first + 2, r.side, r.qty, Lmt, r.target.value, first))
  {
  }

  /**
   A modification is refused for a bracket that is not working and for a quantity that is
   not smaller; else it sets the stop and the quantity it names, and the target if the
   bracket has a target leg, and sends the amended stop, and the target if one was named.
   */
  lemma ModifyExactly(s: Port, m: M.Modification)
    requires m.id in s.brackets
    ensures var (t, o) := Modify(s, m); var b := s.brackets[m.id];
      if b.status != M.Open && b.status != M.Pending then t == s && o == M.NotWorking
      else if m.newQty.Some? && b.qty <= m.newQty.value then t == s && o == M.NotDownward
      else
        o == M.Done && m.id in t.brackets &&
        var c := t.brackets[m.id];
        c == b.(stop := c.stop, qty := c.qty, target := c.target) &&
        c.stop == (match m.newStop case Some(stop) => stop case None => b.stop) &&
        c.qty == (match m.newQty case Some(qty) => qty case None => b.qty) &&
        c.target == (if m.newTarget.Some? && b.targetLeg.Some? then m.newTarget else b.target) &&
        t == s.(brackets := s.brackets[m.id := c], sent := t.sent) &&
        |t.sent| == |s.sent| + (if m.newTarget.Some? && b.targetLeg.Some? then 2 else 1) && s.sent <= t.sent &&
        ExitOrder(t.sent[|s.sent|], b.stopLeg.order, b.side, c.qty, Stp, c.stop, b.parent.order) &&
        t.sent[|s.sent|].transmit &&
        (m.newTarget.Some? && b.targetLeg.Some? ==>
          ExitOrder(t.sent[|s.sent| + 1], b.targetLeg.value.order, b.side, c.qty, Lmt, m.newTarget.value, b.parent.order))
  {
  }

  /** A cancel asks for the withdrawal of every leg and marks the bracket, whatever it was. */
  lemma CancelExactly(s: Port, id: nat)
    requires id in s.brackets
    ensures var (t, o) := Cancel(s, id); var b := s.brackets[id];
      o == M.Done && t == s.(brackets := s.brackets[id := b.(status := M.Cancelled)], sent := t.sent) &&
      |t.sent| == |s.sent| + |LegIds(b)| && s.sent <= t.sent &&
      forall i :: 0 <= i < |LegIds(b)| ==> t.sent[|s.sent| + i] == SendCancel(LegIds(b)[i])
  {
  }
}
