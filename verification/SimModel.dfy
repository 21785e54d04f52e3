/**
 The SIM exchange as a state machine: its state, one function per operation,
 and runs of operations.  `Simulator` (Simulator.dfy) implements each function
 by in-place updates.
 */
module SimModel {
  import opened Market
  import opened Money

  datatype Config = Config(
    startingCash: int, slippageBps: NonNegative, spreadBps: NonNegative, commission: CommissionModel)

  datatype Status = Pending | Open | Closed | Cancelled

  datatype Entry = MarketEntry | LimitEntry(limit: Price)

  /** Ids are drawn from one counter; a bracket without a target has no target order. */
  datatype Orders = Orders(parent: nat, stop: nat, target: Option<nat>)

  datatype RawBracket = RawBracket(
    id: nat, strategy: StrategyId, ticker: Ticker, side: Side, qty: Shares,
    stop: Price, target: Option<Price>, status: Status,
    entryPrice: Option<int>, openedAt: Option<int>, closedAt: Option<int>, exitPrice: Option<int>,
    realized: int, orders: Orders, entry: Entry)

  /** A bracket always has an entry price while it is open. */
  type Bracket = b: RawBracket | b.status == Open ==> b.entryPrice.Some?
    witness RawBracket(1, "s", "t", Long, 1, 1.0, None, Pending, None, None, None, None, 0, Orders(2, 3, None), MarketEntry)

  datatype Portfolio = Portfolio(
    strategy: StrategyId, startingCash: int, cash: int, realized: int, brackets: seq<Bracket>)

  datatype Mark = Mark(quote: BidAsk, ts: int)

  datatype Fill = Fill(
    order: Option<nat>, ticker: Ticker, side: Side, qty: Shares, price: int, commission: int, at: int)

  datatype ClosedTrade = ClosedTrade(
    strategy: StrategyId, bracket: nat, ticker: Ticker, side: Side, qty: Shares,
    entryPrice: Option<int>, stop: Price, realized: int, at: int)

  datatype State = State(
    cfg: Config, portfolios: seq<Portfolio>, marks: map<Ticker, Mark>,
    fills: seq<Fill>, closed: seq<ClosedTrade>, owner: map<nat, StrategyId>, lastId: nat)

  datatype Rung = SIM | PAPER | LIVE

  datatype Request = Request(
    strategy: StrategyId, rung: Rung, ticker: Ticker, side: Side, qty: Shares,
    entry: Entry, stop: Price, target: Option<Price>)

  datatype Modification = Modification(
    id: nat, newStop: Option<Price>, newTarget: Option<Price>, newQty: Option<Shares>)

  /** How a call ends: the errors are the exceptions the port throws. */
  datatype Outcome = Done | LiveLocked | UnknownBracket | NotWorking | NotDownward | NoMarket | Refused

  // ---- Booking one entry or one exit ----------------------------------------

  /** What one execution does: the bracket after it, the cash and P&L it books, its records. */
  datatype Booking = Booking(bracket: Bracket, cash: int, realized: int, fill: Fill, trade: Option<ClosedTrade>)

  /** Cash paid or received for a fill: buying debits the notional, and commission is always a debit. */
  function CashDelta(action: Action, qty: Shares, price: int, commission: int): int
  {
    if action == Buy then -(qty * price + commission) else qty * price - commission
  }

  function FillPrice(cfg: Config, action: Action, quote: BidAsk): int
  {
    Round(MarketFillPrice(action, quote, cfg.slippageBps))
  }

  /** Fill the parent entry at the book. */
  function Enter(cfg: Config, b: Bracket, quote: BidAsk, ts: int): Booking
  {
    var action := OpenAction(b.side);
    var price := FillPrice(cfg, action, quote);
    var commission := Commission(cfg.commission, b.qty, price);
    Booking(
      b.(status := Open, entryPrice := Some(price), openedAt := Some(ts)),
      CashDelta(action, b.qty, price, commission),
      0,
      Fill(Some(b.orders.parent), b.ticker, FillSide(action), b.qty, price, commission, ts),
      None)
  }

  /** P&L of exiting `qty` shares before commissions. */
  function Gross(side: Side, qty: Shares, entry: int, exit: int): int
  {
    if side == Long then qty * (exit - entry) else qty * (entry - exit)
  }

  /** P&L of exiting `qty` shares, charging the entry commission of that many shares. */
  function Net(cfg: Config, side: Side, qty: Shares, entry: int, exit: int): int
  {
    Gross(side, qty, entry, exit) - Commission(cfg.commission, qty, entry) - Commission(cfg.commission, qty, exit)
  }

  /** Close everything that is left: the bracket's P&L becomes that of this last piece. */
  function ExitAll(cfg: Config, b: Bracket, order: Option<nat>, quote: BidAsk, ts: int): Booking
    requires b.status == Open
  {
    var action := CloseAction(b.side);
    var price := FillPrice(cfg, action, quote);
    var commission := Commission(cfg.commission, b.qty, price);
    var net := Net(cfg, b.side, b.qty, b.entryPrice.value, price);
    Booking(
      b.(status := Closed, exitPrice := Some(price), closedAt := Some(ts), realized := net),
      CashDelta(action, b.qty, price, commission),
      net,
      Fill(order, b.ticker, FillSide(action), b.qty, price, commission, ts),
      Some(ClosedTrade(b.strategy, b.id, b.ticker, b.side, b.qty, b.entryPrice, b.stop, net, ts)))
  }

  /** Close a part, strictly less than what is left. */
  function ExitPart(cfg: Config, b: Bracket, qty: Shares, quote: BidAsk, ts: int): Booking
    requires b.status == Open && qty < b.qty
  {
    var action := CloseAction(b.side);
    var price := FillPrice(cfg, action, quote);
    var commission := Commission(cfg.commission, qty, price);
    var net := Net(cfg, b.side, qty, b.entryPrice.value, price);
    Booking(
      b.(qty := b.qty - qty, realized := b.realized + net),
      CashDelta(action, qty, price, commission),
      net,
      Fill(Some(b.orders.parent), b.ticker, FillSide(action), qty, price, commission, ts),
      None)
  }

  // ---- Positions in the state ------------------------------------------------

  predicate At(s: State, i: int, j: int)
  {
    0 <= i < |s.portfolios| && 0 <= j < |s.portfolios[i].brackets|
  }

  function BracketAt(s: State, i: int, j: int): Bracket
    requires At(s, i, j)
  {
    s.portfolios[i].brackets[j]
  }

  function SetBracket(s: State, i: nat, j: nat, b: Bracket): State
    requires At(s, i, j)
  {
    var p := s.portfolios[i];
    s.(portfolios := s.portfolios[i := p.(brackets := p.brackets[j := b])])
  }

  lemma SetSame(s: State, i: nat, j: nat)
    requires At(s, i, j)
    ensures SetBracket(s, i, j, BracketAt(s, i, j)) == s
  {
    var t := SetBracket(s, i, j, BracketAt(s, i, j));
    assert t.portfolios[i].brackets == s.portfolios[i].brackets;
    assert t.portfolios == s.portfolios;
  }

  /** Book an execution into a portfolio. */
  function Absorb(p: Portfolio, j: nat, bk: Booking): Portfolio
    requires j < |p.brackets|
  {
    p.(cash := p.cash + bk.cash, realized := p.realized + bk.realized, brackets := p.brackets[j := bk.bracket])
  }

  function Post(s: State, i: nat, j: nat, bk: Booking): State
    requires At(s, i, j)
  {
    s.(portfolios := s.portfolios[i := Absorb(s.portfolios[i], j, bk)],
       fills := s.fills + [bk.fill],
       closed := if bk.trade.Some? then s.closed + [bk.trade.value] else s.closed)
  }

  // ---- Market events -----------------------------------------------------------

  datatype Leg = StopLeg | TargetLeg

  datatype Trigger = Trigger(leg: Leg, reference: real)

  /** Whether a bar triggers a leg; a bar that spans both takes the stop. */
  function DetectExit(b: Bracket, bar: Candle): Option<Trigger>
  {
    if b.side == Long then
      if bar.low <= b.stop then Some(Trigger(StopLeg, Min(b.stop, bar.open)))
      else if b.target.Some? && bar.high >= b.target.value then Some(Trigger(TargetLeg, b.target.value))
      else None
    else
      if bar.high >= b.stop then Some(Trigger(StopLeg, Max(b.stop, bar.open)))
      else if b.target.Some? && bar.low <= b.target.value then Some(Trigger(TargetLeg, b.target.value))
      else None
  }

  /** The two loops over every bracket: fill pending entries, then check exits on a bar. */
  datatype Pass = Entries(ticker: Ticker, quote: BidAsk, ts: int, within: Option<Candle>) | Exits(bar: Candle)

  predicate Touched(b: Bracket, quote: BidAsk, bar: Option<Candle>)
  {
    match b.entry
    case MarketEntry => true
    case LimitEntry(limit) =>
      match bar
      case Some(c) => c.low <= limit <= c.high
      case None => if b.side == Long then quote.ask <= limit else quote.bid >= limit
  }

  /** What a pass does to one bracket, if anything. */
  function Visit(cfg: Config, pass: Pass, b: Bracket): Option<Booking>
  {
    match pass
    case Entries(ticker, quote, ts, bar) =>
      if b.status == Pending && b.ticker == ticker && Touched(b, quote, bar)
      then Some(Enter(cfg, b, quote, ts)) else None
    case Exits(bar) =>
      if b.status != Open || b.ticker != bar.ticker then None else
      match DetectExit(b, bar)
      case None => None
      case Some(t) =>
        var order := if t.leg == StopLeg then Some(b.orders.stop) else b.orders.target;
        Some(ExitAll(cfg, b, order, Synthesize(t.reference, cfg.spreadBps), bar.ts))
  }

  function VisitAt(s: State, pass: Pass, i: nat, j: nat): (r: State)
    requires At(s, i, j)
    ensures |r.portfolios| == |s.portfolios|
    ensures forall k :: 0 <= k < |s.portfolios| ==> |r.portfolios[k].brackets| == |s.portfolios[k].brackets|
  {
    match Visit(s.cfg, pass, BracketAt(s, i, j))
    case None => s
    case Some(bk) => Post(s, i, j, bk)
  }

  /** Visit every bracket from portfolio `i`, bracket `j` on, in insertion order. */
  function Sweep(s: State, pass: Pass, i: nat, j: nat): State
    decreases |s.portfolios| - i, if i < |s.portfolios| then |s.portfolios[i].brackets| - j else 0
  {
    if i >= |s.portfolios| then s
    else if j >= |s.portfolios[i].brackets| then Sweep(s, pass, i + 1, 0)
    else Sweep(VisitAt(s, pass, i, j), pass, i, j + 1)
  }

  function OnBar(s: State, bar: Candle): State
  {
    var quote := Synthesize(bar.close, s.cfg.spreadBps);
    var marked := s.(marks := s.marks[bar.ticker := Mark(quote, bar.ts)]);
    Sweep(Sweep(marked, Entries(bar.ticker, quote, bar.ts, Some(bar)), 0, 0), Exits(bar), 0, 0)
  }

  /** The book a quote amounts to, if it has any price at all. */
  function Book(q: Quote): Option<BidAsk>
  {
    var bid := if q.bid.Some? then q.bid else if q.last.Some? then q.last else q.ask;
    var ask := if q.ask.Some? then q.ask else if q.last.Some? then q.last else q.bid;
    if bid.Some? && ask.Some? then Some(BidAsk(bid.value, ask.value)) else None
  }

  function UpdateQuote(s: State, q: Quote): State
  {
    match Book(q)
    case None => s
    case Some(book) =>
      Sweep(s.(marks := s.marks[q.ticker := Mark(book, q.ts)]), Entries(q.ticker, book, q.ts, None), 0, 0)
  }

  // ---- Port operations ------------------------------------------------------------

  /** The position of a strategy's portfolio, or the length if there is none. */
  function PortfolioIndex(ps: seq<Portfolio>, x: StrategyId): (i: nat)
    ensures i <= |ps|
    ensures i < |ps| ==> ps[i].strategy == x
    ensures forall k :: 0 <= k < i ==> ps[k].strategy != x
  {
    if |ps| == 0 || ps[0].strategy == x then 0 else 1 + PortfolioIndex(ps[1..], x)
  }

  function BracketIndex(bs: seq<Bracket>, id: nat): (j: nat)
    ensures j <= |bs|
    ensures j < |bs| ==> bs[j].id == id
    ensures forall k :: 0 <= k < j ==> bs[k].id != id
  {
    if |bs| == 0 || bs[0].id == id then 0 else 1 + BracketIndex(bs[1..], id)
  }

  /** Create the strategy's portfolio on first use. */
  function Ensured(s: State, x: StrategyId): (r: State)
    ensures PortfolioIndex(r.portfolios, x) < |r.portfolios|
  {
    if PortfolioIndex(s.portfolios, x) < |s.portfolios| then s else
    var created := Portfolio(x, s.cfg.startingCash, s.cfg.startingCash, 0, []);
    assert x == (s.portfolios + [created])[|s.portfolios|].strategy;
    s.(portfolios := s.portfolios + [created])
  }

  function NewBracket(lastId: nat, r: Request): Bracket
  {
    RawBracket(
      lastId + 1, r.strategy, r.ticker, r.side, r.qty, r.stop, r.target, Pending,
      None, None, None, None, 0,
      Orders(lastId + 2, lastId + 3, if r.target.Some? then Some(lastId + 4) else None),
      r.entry)
  }

  /** The state with the new bracket recorded as pending. */
  function Recorded(s: State, r: Request): (t: State)
    ensures var i := PortfolioIndex(t.portfolios, r.strategy);
      i == PortfolioIndex(Ensured(s, r.strategy).portfolios, r.strategy) < |t.portfolios| &&
      At(t, i, |t.portfolios[i].brackets| - 1)
  {
    var b := NewBracket(s.lastId, r);
    var s1 := Ensured(s, r.strategy);
    var i := PortfolioIndex(s1.portfolios, r.strategy);
    var p := s1.portfolios[i];
    var t := s1.(portfolios := s1.portfolios[i := p.(brackets := p.brackets + [b])],
                 owner := s.owner[b.id := r.strategy],
                 lastId := s.lastId + if r.target.Some? then 4 else 3);
    assert t.portfolios[i].strategy == r.strategy;
    t
  }

  /** A market entry fills at once when the ticker has a mark. */
  function PlaceEffect(cfg: Config, marks: map<Ticker, Mark>, b: Bracket): Effect
  {
    if b.entry == MarketEntry && b.ticker in marks then
      Effect(b, Some(Enter(cfg, b, marks[b.ticker].quote, marks[b.ticker].ts)), Done)
    else Effect(b, None, Done)
  }

  function Place(s: State, r: Request): (State, Outcome)
  {
    if r.rung == LIVE then (s, LiveLocked) else
    var t := Recorded(s, r);
    var i := PortfolioIndex(t.portfolios, r.strategy);
    var j := |t.portfolios[i].brackets| - 1;
    (Apply(t, i, j, PlaceEffect(t.cfg, t.marks, BracketAt(t, i, j))), Done)
  }

  /** Find a bracket through its owner. */
  function Lookup(s: State, id: nat): (r: Option<(nat, nat)>)
    ensures r.Some? ==> At(s, r.value.0, r.value.1) && BracketAt(s, r.value.0, r.value.1).id == id
  {
    if id !in s.owner then None else
    var i := PortfolioIndex(s.portfolios, s.owner[id]);
    if i == |s.portfolios| then None else
    var j := BracketIndex(s.portfolios[i].brackets, id);
    if j == |s.portfolios[i].brackets| then None else Some((i, j))
  }

  /** The bracket at its new levels. */
  function Moved(b: Bracket, m: Modification): Bracket
  {
    b.(stop := GetOr(m.newStop, b.stop), target := if m.newTarget.Some? then m.newTarget else b.target)
  }

  /** What a call does to the bracket it names: new terms first, then an execution if any. */
  datatype Effect = Effect(bracket: Bracket, booking: Option<Booking>, outcome: Outcome)

  function Apply(s: State, i: nat, j: nat, e: Effect): State
    requires At(s, i, j)
  {
    var s1 := SetBracket(s, i, j, e.bracket);
    if e.booking.Some? then Post(s1, i, j, e.booking.value) else s1
  }

  /** The new levels are written before the quantity is checked. */
  function ModifyEffect(cfg: Config, marks: map<Ticker, Mark>, b: Bracket, m: Modification): Effect
  {
    if b.status != Open && b.status != Pending then Effect(b, None, NotWorking) else
    var moved := Moved(b, m);
    if m.newQty.None? then Effect(moved, None, Done)
    else if m.newQty.value >= b.qty then Effect(moved, None, NotDownward)
    else if b.status == Pending then Effect(moved.(qty := m.newQty.value), None, Done)
    else if b.ticker !in marks then Effect(moved, None, NoMarket)
    else
      var mk := marks[b.ticker];
      Effect(moved, Some(ExitPart(cfg, moved, b.qty - m.newQty.value, mk.quote, mk.ts)), Done)
  }

  function Modify(s: State, m: Modification): (State, Outcome)
  {
    match Lookup(s, m.id)
    case None => (s, UnknownBracket)
    case Some(at) =>
      var e := ModifyEffect(s.cfg, s.marks, BracketAt(s, at.0, at.1), m);
      (Apply(s, at.0, at.1, e), e.outcome)
  }

  /** A pending bracket is withdrawn, an open one leaves at its ticker's mark, the rest stay as they are. */
  function CancelEffect(cfg: Config, marks: map<Ticker, Mark>, b: Bracket): Effect
  {
    match b.status
    case Pending => Effect(b.(status := Cancelled), None, Done)
    case Open =>
      if b.ticker !in marks then Effect(b, None, NoMarket) else
      var mk := marks[b.ticker];
      Effect(b, Some(ExitAll(cfg, b, Some(b.orders.parent), mk.quote, mk.ts)), Done)
    case Closed => Effect(b, None, Done)
    case Cancelled => Effect(b, None, Done)
  }

  function Cancel(s: State, id: nat): (State, Outcome)
  {
    match Lookup(s, id)
    case None => (s, UnknownBracket)
    case Some(at) =>
      var e := CancelEffect(s.cfg, s.marks, BracketAt(s, at.0, at.1));
      (Apply(s, at.0, at.1, e), e.outcome)
  }

  function Reset(s: State, x: StrategyId): State
  {
    var t := Ensured(s, x);
    var i := PortfolioIndex(t.portfolios, x);
    var p := t.portfolios[i];
    t.(portfolios := t.portfolios[i := p.(cash := p.startingCash, realized := 0, brackets := [])])
  }

  /** The closed trades of one strategy, in order. */
  function Of(x: StrategyId, ts: seq<ClosedTrade>): seq<ClosedTrade>
  {
    if |ts| == 0 then []
    else
      var rest := Of(x, ts[..|ts| - 1]);
      var t := ts[|ts| - 1];
      if t.strategy == x then rest + [t] else rest
  }

  lemma OfAppend(x: StrategyId, ts: seq<ClosedTrade>, t: ClosedTrade)
    ensures Of(x, ts + [t]) == if t.strategy == x then Of(x, ts) + [t] else Of(x, ts)
  {
    assert (ts + [t])[..|ts|] == ts;
  }

  function NotOf(x: StrategyId, ts: seq<ClosedTrade>): seq<ClosedTrade>
  {
    if |ts| == 0 then []
    else
      var rest := NotOf(x, ts[..|ts| - 1]);
      var t := ts[|ts| - 1];
      if t.strategy == x then rest else rest + [t]
  }

  /** Taking one strategy's trades out leaves every other's as they were. */
  lemma {:induction false} OfSplits(y: StrategyId, x: StrategyId, ts: seq<ClosedTrade>)
    ensures Of(x, Of(y, ts)) == if x == y then Of(x, ts) else []
    ensures Of(x, NotOf(y, ts)) == if x == y then [] else Of(x, ts)
  {
    if |ts| > 0 {
      var rest, t := ts[..|ts| - 1], ts[|ts| - 1];
      OfSplits(y, x, rest);
      OfAppend(x, Of(y, rest), t);
      OfAppend(x, NotOf(y, rest), t);
    }
  }

  function Drain(s: State, x: Option<StrategyId>): (State, seq<ClosedTrade>)
  {
    match x
    case None => (s.(closed := []), s.closed)
    case Some(id) => (s.(closed := NotOf(id, s.closed)), Of(id, s.closed))
  }

  // ---- Runs ---------------------------------------------------------------------------

  datatype Command =
    | Bar(bar: Candle)
    | Tick(quote: Quote)
    | PlaceBracket(req: Request)
    | ModifyBracket(mod: Modification)
    | CancelBracket(id: nat)
    | ResetPortfolio(strategy: StrategyId)
    | DrainClosed(only: Option<StrategyId>)
    | ReadPortfolio(strategy: StrategyId)

  function Step(s: State, c: Command): State
  {
    match c
    case Bar(bar) => OnBar(s, bar)
    case Tick(q) => UpdateQuote(s, q)
    case PlaceBracket(r) => Place(s, r).0
    case ModifyBracket(m) => Modify(s, m).0
    case CancelBracket(id) => Cancel(s, id).0
    case ResetPortfolio(x) => Reset(s, x)
    case DrainClosed(x) => Drain(s, x).0
    case ReadPortfolio(x) => Ensured(s, x)
  }

  function Init(cfg: Config): State
  {
    State(cfg, [], map[], [], [], map[], 0)
  }

  function Run(cfg: Config, cs: seq<Command>): State
  {
    if |cs| == 0 then Init(cfg) else Step(Run(cfg, cs[..|cs| - 1]), cs[|cs| - 1])
  }

  lemma RunOn(cfg: Config, cs: seq<Command>, c: Command)
    ensures Run(cfg, cs + [c]) == Step(Run(cfg, cs), c)
  {
    assert (cs + [c])[..|cs|] == cs;
  }

  /**
   What the fill record accepts: a known order and a price of at least one cent.
   A fill that is not valid makes the operation that books it throw; what that does
   is the subject of SimActual.
   */
  predicate ValidFill(f: Fill)
  {
    f.order.Some? && f.price >= 1
  }

  ghost predicate Accepted(s: State)
  {
    forall n :: 0 <= n < |s.fills| ==> ValidFill(s.fills[n])
  }
}
