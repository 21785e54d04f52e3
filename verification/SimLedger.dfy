/**
 What the recorded fills say about each bracket, and the conservation laws of
 the SIM exchange: shares entered equal shares exited plus shares held, and cash
 is accounted for to the cent.
 */
module SimLedger {
  import opened Market
  import opened Money
  import opened SimModel

  // ---- Reading a bracket's history off the fill log ---------------------------

  ghost predicate Owns(o: Orders, f: Fill)
  {
    f.order.Some? && (f.order.value == o.parent || f.order.value == o.stop || f.order == o.target)
  }

  /** What identifies a bracket's fills and prices its exits. */
  datatype Key = Key(orders: Orders, side: Side, price: int)

  ghost function KeyOf(b: Bracket): Key
  {
    Key(b.orders, b.side, GetOr(b.entryPrice, 0))
  }

  /**
   Shares in and out, the price and commission paid on entry and the entry
   commissions charged to exits.
   */
  datatype Ledger = Ledger(entries: nat, bought: int, price: int, paid: int, exits: nat, sold: int, booked: int)

  const EMPTY := Ledger(0, 0, 0, 0, 0, 0, 0)

  ghost function Record(m: CommissionModel, k: Key, l: Ledger, f: Fill): Ledger
  {
    if !Owns(k.orders, f) then l
    else if f.side == k.side then
      l.(entries := l.entries + 1, bought := l.bought + f.qty, price := f.price, paid := l.paid + f.commission)
    else
      l.(exits := l.exits + 1, sold := l.sold + f.qty, booked := l.booked + Commission(m, f.qty, k.price))
  }

  ghost function LedgerOf(m: CommissionModel, k: Key, fs: seq<Fill>): Ledger
  {
    if |fs| == 0 then EMPTY else Record(m, k, LedgerOf(m, k, fs[..|fs| - 1]), fs[|fs| - 1])
  }

  ghost predicate Untouched(o: Orders, fs: seq<Fill>)
  {
    forall n :: 0 <= n < |fs| ==> !Owns(o, fs[n])
  }

  /** A fill of the protective stop or of the target. */
  ghost predicate OnLeg(o: Orders, f: Fill)
  {
    f.order == Some(o.stop) || (o.target.Some? && f.order == o.target)
  }

  ghost function LegFills(o: Orders, fs: seq<Fill>): nat
  {
    if |fs| == 0 then 0 else LegFills(o, fs[..|fs| - 1]) + if OnLeg(o, fs[|fs| - 1]) then 1 else 0
  }

  lemma LegAppend(o: Orders, fs: seq<Fill>, f: Fill)
    ensures LegFills(o, fs + [f]) == LegFills(o, fs) + if OnLeg(o, f) then 1 else 0
  {
    assert (fs + [f])[..|fs|] == fs;
  }

  lemma {:induction false} UntouchedLegs(o: Orders, fs: seq<Fill>)
    requires forall n :: 0 <= n < |fs| ==> !OnLeg(o, fs[n])
    ensures LegFills(o, fs) == 0
  {
    if |fs| > 0 {
      UntouchedLegs(o, fs[..|fs| - 1]);
    }
  }

  lemma LedgerAppend(m: CommissionModel, k: Key, fs: seq<Fill>, f: Fill)
    ensures LedgerOf(m, k, fs + [f]) == Record(m, k, LedgerOf(m, k, fs), f)
  {
    assert (fs + [f])[..|fs|] == fs;
  }

  lemma {:induction false} UntouchedLedger(m: CommissionModel, k: Key, fs: seq<Fill>)
    requires Untouched(k.orders, fs)
    ensures LedgerOf(m, k, fs) == EMPTY
  {
    if |fs| > 0 {
      UntouchedLedger(m, k, fs[..|fs| - 1]);
    }
  }

  // ---- Conservation, bracket by bracket ------------------------------------------

  ghost predicate Distinct(o: Orders)
  {
    o.parent != o.stop && o.target != Some(o.parent) && o.target != Some(o.stop)
  }

  /**
   Shares are conserved: nothing was filled before the entry, there is one entry
   fill afterwards, and what came in is what went out plus what is still held.  At
   most one fill, the last, is on the stop or the target.
   */
  ghost predicate Conserved(m: CommissionModel, b: Bracket, fs: seq<Fill>)
  {
    var l := LedgerOf(m, KeyOf(b), fs);
    Distinct(b.orders) &&
    match b.status
    case Pending => Untouched(b.orders, fs)
    case Cancelled => Untouched(b.orders, fs)
    case Open =>
      l.entries == 1 && l.bought == l.sold + b.qty && l.bought >= 1 && l.price == b.entryPrice.value &&
      l.paid == Commission(m, l.bought, b.entryPrice.value) && LegFills(b.orders, fs) == 0
    case Closed =>
      b.entryPrice.Some? && l.entries == 1 && l.exits >= 1 && l.bought == l.sold && l.bought >= 1 &&
      l.price == b.entryPrice.value &&
      l.paid == Commission(m, l.bought, b.entryPrice.value) && LegFills(b.orders, fs) <= 1
  }

  /** Value the open shares tie up (long) or brought in (short), at their entry price. */
  ghost function Held(b: Bracket): int
  {
    if b.status != Open then 0
    else if b.side == Long then -(b.qty * b.entryPrice.value)
    else b.qty * b.entryPrice.value
  }

  /** How far entry commissions charged to exits run ahead of what the entry paid. */
  ghost function CommissionGap(m: CommissionModel, b: Bracket, fs: seq<Fill>): int
  {
    var l := LedgerOf(m, KeyOf(b), fs);
    l.booked - l.paid
  }

  /** A bracket's share of the difference between cash and realized P&L. */
  ghost function Carry(m: CommissionModel, b: Bracket, fs: seq<Fill>): int
  {
    Held(b) + CommissionGap(m, b, fs)
  }

  /** A booking keeps shares conserved and explains every cent of cash it moves. */
  ghost predicate Balanced(m: CommissionModel, b: Bracket, bk: Booking, fs: seq<Fill>)
  {
    Conserved(m, bk.bracket, fs + [bk.fill]) &&
    bk.cash == bk.realized + Carry(m, bk.bracket, fs + [bk.fill]) - Carry(m, b, fs)
  }

  lemma EnterBalanced(cfg: Config, b: Bracket, quote: BidAsk, ts: int, fs: seq<Fill>)
    requires b.status == Pending && Conserved(cfg.commission, b, fs)
    ensures Balanced(cfg.commission, b, Enter(cfg, b, quote, ts), fs)
  {
    var m, bk := cfg.commission, Enter(cfg, b, quote, ts);
    UntouchedLedger(m, KeyOf(b), fs);
    UntouchedLedger(m, KeyOf(bk.bracket), fs);
    LedgerAppend(m, KeyOf(bk.bracket), fs, bk.fill);
    UntouchedLegs(b.orders, fs);
    LegAppend(b.orders, fs, bk.fill);
  }

  lemma GrossSplits(side: Side, qty: Shares, entry: int, exit: int)
    ensures Gross(side, qty, entry, exit)
         == if side == Long then qty * exit - qty * entry else qty * entry - qty * exit
  {
  }

  lemma ExitAllBalanced(cfg: Config, b: Bracket, order: Option<nat>, quote: BidAsk, ts: int, fs: seq<Fill>)
    requires b.status == Open && Conserved(cfg.commission, b, fs)
    requires order == Some(b.orders.parent) || order == Some(b.orders.stop) || (order.Some? && order == b.orders.target)
    ensures Balanced(cfg.commission, b, ExitAll(cfg, b, order, quote, ts), fs)
  {
    var bk := ExitAll(cfg, b, order, quote, ts);
    LedgerAppend(cfg.commission, KeyOf(b), fs, bk.fill);
    LegAppend(b.orders, fs, bk.fill);
    GrossSplits(b.side, b.qty, b.entryPrice.value, bk.fill.price);
  }

  lemma ExitPartBalanced(cfg: Config, b: Bracket, qty: Shares, quote: BidAsk, ts: int, fs: seq<Fill>)
    requires b.status == Open && qty < b.qty && Conserved(cfg.commission, b, fs)
    ensures Balanced(cfg.commission, b, ExitPart(cfg, b, qty, quote, ts), fs)
  {
    var bk := ExitPart(cfg, b, qty, quote, ts);
    LedgerAppend(cfg.commission, KeyOf(b), fs, bk.fill);
    LegAppend(b.orders, fs, bk.fill);
    GrossSplits(b.side, qty, b.entryPrice.value, bk.fill.price);
    LessTimes(b.qty, qty, b.entryPrice.value);
  }

  lemma LessTimes(a: int, b: int, e: int)
    ensures (a - b) * e == a * e - b * e
  {
  }

  // ---- The whole state --------------------------------------------------------------

  /** The largest id a bracket uses. */
  ghost function LastUsed(b: Bracket): nat
  {
    if b.orders.target.Some? then b.orders.stop + 1 else b.orders.stop
  }

  ghost predicate Placed(s: State, strategy: StrategyId, b: Bracket)
  {
    b.strategy == strategy &&
    b.orders.parent == b.id + 1 && b.orders.stop == b.id + 2 &&
    (b.orders.target.Some? ==> b.orders.target.value == b.id + 3) &&
    LastUsed(b) <= s.lastId &&
    b.id in s.owner && s.owner[b.id] == strategy &&
    (b.orders.target.None? ==> b.id + 3 > s.lastId || b.id + 3 in s.owner) &&
    (forall id :: id in s.owner && id != b.id ==> id + 2 < b.id || LastUsed(b) < id)
  }

  /** Two brackets share no id. */
  ghost predicate Apart(b: Bracket, c: Bracket)
  {
    LastUsed(b) < c.id || LastUsed(c) < b.id
  }

  ghost predicate Layout(s: State)
  {
    && (forall i, k :: 0 <= i < k < |s.portfolios| ==> s.portfolios[i].strategy != s.portfolios[k].strategy)
    && (forall i, j :: At(s, i, j) ==> Placed(s, s.portfolios[i].strategy, BracketAt(s, i, j)))
    && (forall i, j, k, l :: At(s, i, j) && At(s, k, l) && (i != k || j != l)
          ==> Apart(BracketAt(s, i, j), BracketAt(s, k, l)))
    && (forall n :: 0 <= n < |s.fills| && s.fills[n].order.Some? ==> OrderDrawn(s, s.fills[n].order.value))
    && (forall id :: id in s.owner ==> id + 2 <= s.lastId)
  }

  /** An id that has been drawn, and not for a bracket. */
  ghost predicate OrderDrawn(s: State, o: nat)
  {
    o <= s.lastId && o !in s.owner
  }

  /** The orders a bracket of this id may have. */
  ghost function IdOrders(id: nat): Orders
  {
    Orders(id + 1, id + 2, Some(id + 3))
  }

  /** No bracket that was ever placed, discarded ones included, realized both legs, or one of them twice. */
  ghost predicate OneLegEach(s: State)
  {
    forall id :: id in s.owner ==> LegFills(IdOrders(id), s.fills) <= 1
  }

  ghost predicate AllConserved(s: State)
  {
    forall i, j :: At(s, i, j) ==> Conserved(s.cfg.commission, BracketAt(s, i, j), s.fills)
  }

  ghost function TotalCarry(m: CommissionModel, bs: seq<Bracket>, fs: seq<Fill>): int
  {
    if |bs| == 0 then 0 else Carry(m, bs[0], fs) + TotalCarry(m, bs[1..], fs)
  }

  ghost predicate CashExplained(s: State)
  {
    forall i :: 0 <= i < |s.portfolios| ==>
      var p := s.portfolios[i];
      p.cash == p.startingCash + p.realized + TotalCarry(s.cfg.commission, p.brackets, s.fills)
  }

  ghost predicate Sound(s: State)
  {
    Layout(s) && AllConserved(s) && CashExplained(s) && OneLegEach(s)
  }

  ghost predicate SameIdentity(b: Bracket, c: Bracket)
  {
    b.id == c.id && b.strategy == c.strategy && b.ticker == c.ticker && b.side == c.side &&
    b.orders == c.orders && b.entry == c.entry
  }

  /** Carries move only where the bracket or its fills move. */
  lemma {:induction false} TotalCarryUpdate(
      m: CommissionModel, bs: seq<Bracket>, cs: seq<Bracket>, fs: seq<Fill>, gs: seq<Fill>, j: nat)
    requires |cs| == |bs| && j < |bs|
    requires forall k :: 0 <= k < |bs| && k != j ==> Carry(m, cs[k], gs) == Carry(m, bs[k], fs)
    ensures TotalCarry(m, cs, gs) == TotalCarry(m, bs, fs) + Carry(m, cs[j], gs) - Carry(m, bs[j], fs)
  {
    if j == 0 {
      TotalCarrySame(m, bs[1..], cs[1..], fs, gs);
    } else {
      TotalCarryUpdate(m, bs[1..], cs[1..], fs, gs, j - 1);
    }
  }

  lemma {:induction false} TotalCarrySame(
      m: CommissionModel, bs: seq<Bracket>, cs: seq<Bracket>, fs: seq<Fill>, gs: seq<Fill>)
    requires |cs| == |bs|
    requires forall k :: 0 <= k < |bs| ==> Carry(m, cs[k], gs) == Carry(m, bs[k], fs)
    ensures TotalCarry(m, cs, gs) == TotalCarry(m, bs, fs)
  {
    if |bs| > 0 {
      TotalCarrySame(m, bs[1..], cs[1..], fs, gs);
    }
  }

  lemma OthersFillUnowned(s: State, i: nat, j: nat, k: nat, l: nat, f: Fill)
    requires Layout(s) && At(s, i, j) && At(s, k, l) && (i != k || j != l)
    requires Owns(BracketAt(s, i, j).orders, f)
    ensures !Owns(BracketAt(s, k, l).orders, f)
  {
    assert Apart(BracketAt(s, i, j), BracketAt(s, k, l));
  }

  /** A fill of another bracket changes nothing a bracket's history says. */
  lemma UnownedFillKeeps(m: CommissionModel, b: Bracket, fs: seq<Fill>, f: Fill)
    requires !Owns(b.orders, f)
    ensures LedgerOf(m, KeyOf(b), fs + [f]) == LedgerOf(m, KeyOf(b), fs)
    ensures Conserved(m, b, fs) ==> Conserved(m, b, fs + [f])
    ensures Carry(m, b, fs + [f]) == Carry(m, b, fs)
  {
    LedgerAppend(m, KeyOf(b), fs, f);
    LegAppend(b.orders, fs, f);
  }

  /** A bracket's own fill is on an order that was drawn, and on no other bracket's. */
  lemma FillDrawn(s: State, i: nat, j: nat, f: Fill)
    requires Layout(s) && At(s, i, j) && Owns(BracketAt(s, i, j).orders, f)
    ensures OrderDrawn(s, f.order.value)
    ensures forall id :: id in s.owner && id != BracketAt(s, i, j).id ==> !OnLeg(IdOrders(id), f)
  {
    assert Placed(s, s.portfolios[i].strategy, BracketAt(s, i, j));
  }

  lemma {:induction false} LegsWithoutTarget(id: nat, fs: seq<Fill>)
    requires forall n :: 0 <= n < |fs| ==> fs[n].order != Some(id + 3)
    ensures LegFills(IdOrders(id), fs) == LegFills(Orders(id + 1, id + 2, None), fs)
  {
    if |fs| > 0 {
      LegsWithoutTarget(id, fs[..|fs| - 1]);
    }
  }

  /** Where a bracket is, its own orders are all that count. */
  lemma OwnLegs(s: State, i: nat, j: nat, f: Fill)
    requires Layout(s) && At(s, i, j) && Owns(BracketAt(s, i, j).orders, f)
    ensures var b := BracketAt(s, i, j);
      LegFills(IdOrders(b.id), s.fills + [f]) == LegFills(b.orders, s.fills + [f])
  {
    var b, fs := BracketAt(s, i, j), s.fills + [f];
    assert Placed(s, s.portfolios[i].strategy, b);
    if b.orders.target.None? {
      forall n | 0 <= n < |fs| ensures fs[n].order != Some(b.id + 3) {
        if n < |s.fills| && fs[n].order.Some? {
          assert OrderDrawn(s, s.fills[n].order.value);
        }
      }
      LegsWithoutTarget(b.id, fs);
    }
  }

  lemma PostOneLegEach(s: State, i: nat, j: nat, bk: Booking)
    requires Layout(s) && OneLegEach(s) && At(s, i, j) && SameIdentity(BracketAt(s, i, j), bk.bracket)
    requires Owns(bk.bracket.orders, bk.fill) && LegFills(bk.bracket.orders, s.fills + [bk.fill]) <= 1
    ensures OneLegEach(Post(s, i, j, bk))
  {
    FillDrawn(s, i, j, bk.fill);
    OwnLegs(s, i, j, bk.fill);
    forall id | id in s.owner ensures LegFills(IdOrders(id), s.fills + [bk.fill]) <= 1 {
      if id != bk.bracket.id {
        LegAppend(IdOrders(id), s.fills, bk.fill);
      }
    }
  }

  lemma ConservedLegs(m: CommissionModel, b: Bracket, fs: seq<Fill>)
    requires Conserved(m, b, fs)
    ensures LegFills(b.orders, fs) <= 1
  {
    if b.status == Pending || b.status == Cancelled {
      UntouchedLegs(b.orders, fs);
    }
  }

  lemma PostLayout(s: State, i: nat, j: nat, bk: Booking)
    requires Layout(s) && At(s, i, j) && SameIdentity(BracketAt(s, i, j), bk.bracket)
    requires Owns(bk.bracket.orders, bk.fill)
    ensures Layout(Post(s, i, j, bk))
  {
    var t := Post(s, i, j, bk);
    FillDrawn(s, i, j, bk.fill);
    SamePlaces(s, t, i, j, bk.bracket);
  }

  /** A state that differs in one bracket, of the same identity, and in its fills. */
  ghost predicate Replaced(s: State, t: State, i: nat, j: nat, b: Bracket)
    requires At(s, i, j)
  {
    SameIdentity(BracketAt(s, i, j), b) && |t.portfolios| == |s.portfolios| && t.owner == s.owner && t.lastId == s.lastId &&
    (forall k :: 0 <= k < |s.portfolios| && k != i ==> t.portfolios[k] == s.portfolios[k]) &&
    t.portfolios[i].strategy == s.portfolios[i].strategy && t.portfolios[i].brackets == s.portfolios[i].brackets[j := b]
  }

  lemma ReplacedPlace(s: State, t: State, i: nat, j: nat, b: Bracket, k: int, l: int)
    requires At(s, i, j) && Replaced(s, t, i, j, b) && At(t, k, l)
    ensures At(s, k, l) && SameIdentity(BracketAt(s, k, l), BracketAt(t, k, l))
    ensures t.portfolios[k].strategy == s.portfolios[k].strategy
  {
  }

  lemma ReplacedApart(s: State, t: State, i: nat, j: nat, b: Bracket, k: int, l: int, m: int, n: int)
    requires Layout(s) && At(s, i, j) && Replaced(s, t, i, j, b) && At(t, k, l) && At(t, m, n) && (k != m || l != n)
    ensures Apart(BracketAt(t, k, l), BracketAt(t, m, n))
  {
    ReplacedPlace(s, t, i, j, b, k, l);
    ReplacedPlace(s, t, i, j, b, m, n);
    assert Apart(BracketAt(s, k, l), BracketAt(s, m, n));
  }

  lemma ReplacedPlaced(s: State, t: State, i: nat, j: nat, b: Bracket, k: int, l: int)
    requires Layout(s) && At(s, i, j) && Replaced(s, t, i, j, b) && At(t, k, l)
    ensures Placed(t, t.portfolios[k].strategy, BracketAt(t, k, l))
  {
    ReplacedPlace(s, t, i, j, b, k, l);
    assert Placed(s, s.portfolios[k].strategy, BracketAt(s, k, l));
  }

  /** Replacing one bracket by another of the same identity keeps the layout. */
  lemma SamePlaces(s: State, t: State, i: nat, j: nat, b: Bracket)
    requires Layout(s) && At(s, i, j) && Replaced(s, t, i, j, b)
    requires forall n :: 0 <= n < |t.fills| && t.fills[n].order.Some? ==> OrderDrawn(s, t.fills[n].order.value)
    ensures Layout(t)
  {
    forall k, l | At(t, k, l) ensures Placed(t, t.portfolios[k].strategy, BracketAt(t, k, l)) {
      ReplacedPlaced(s, t, i, j, b, k, l);
    }
    forall k, l, m, n | At(t, k, l) && At(t, m, n) && (k != m || l != n)
      ensures Apart(BracketAt(t, k, l), BracketAt(t, m, n)) {
      ReplacedApart(s, t, i, j, b, k, l, m, n);
    }
    forall k, l | 0 <= k < l < |t.portfolios| ensures t.portfolios[k].strategy != t.portfolios[l].strategy {
      assert s.portfolios[k].strategy != s.portfolios[l].strategy;
    }
  }

  /** A balanced booking of a bracket's own fill keeps the whole state sound. */
  lemma PostSound(s: State, i: nat, j: nat, bk: Booking)
    requires Sound(s) && At(s, i, j) && SameIdentity(BracketAt(s, i, j), bk.bracket)
    requires Owns(bk.bracket.orders, bk.fill)
    requires Balanced(s.cfg.commission, BracketAt(s, i, j), bk, s.fills)
    ensures Sound(Post(s, i, j, bk))
  {
    var t, m := Post(s, i, j, bk), s.cfg.commission;
    PostLayout(s, i, j, bk);
    ConservedLegs(m, bk.bracket, t.fills);
    PostOneLegEach(s, i, j, bk);
    forall k, l | At(s, k, l) && (k != i || l != j)
      ensures BracketAt(t, k, l) == BracketAt(s, k, l)
      ensures Conserved(m, BracketAt(t, k, l), t.fills)
      ensures Carry(m, BracketAt(t, k, l), t.fills) == Carry(m, BracketAt(s, k, l), s.fills)
    {
      OthersFillUnowned(s, i, j, k, l, bk.fill);
      UnownedFillKeeps(m, BracketAt(s, k, l), s.fills, bk.fill);
    }
    forall k, l | At(t, k, l)
      ensures Conserved(m, BracketAt(t, k, l), t.fills)
    {
      assert At(s, k, l);
    }
    forall k | 0 <= k < |t.portfolios|
      ensures var p := t.portfolios[k]; p.cash == p.startingCash + p.realized + TotalCarry(m, p.brackets, t.fills)
    {
      var bs, cs := s.portfolios[k].brackets, t.portfolios[k].brackets;
      forall l | 0 <= l < |bs| && (k != i || l != j)
        ensures Carry(m, cs[l], t.fills) == Carry(m, bs[l], s.fills)
      {
        assert At(s, k, l);
        assert BracketAt(t, k, l) == BracketAt(s, k, l);
      }
      if k == i {
        TotalCarryUpdate(m, bs, cs, s.fills, t.fills, j);
      } else {
        TotalCarrySame(m, bs, cs, s.fills, t.fills);
      }
    }
  }

  /** Changing levels, a pending size or a pending status books nothing. */
  lemma SetBracketSound(s: State, i: nat, j: nat, b: Bracket)
    requires Sound(s) && At(s, i, j) && SameIdentity(BracketAt(s, i, j), b)
    requires Conserved(s.cfg.commission, b, s.fills)
    requires Carry(s.cfg.commission, b, s.fills) == Carry(s.cfg.commission, BracketAt(s, i, j), s.fills)
    ensures Sound(SetBracket(s, i, j, b))
  {
    var t, m := SetBracket(s, i, j, b), s.cfg.commission;
    SamePlaces(s, t, i, j, b);
    forall k, l | At(t, k, l)
      ensures Conserved(m, BracketAt(t, k, l), t.fills)
    {
      assert At(s, k, l);
      assert k != i || l != j ==> BracketAt(t, k, l) == BracketAt(s, k, l);
    }
    TotalCarryUpdate(m, s.portfolios[i].brackets, t.portfolios[i].brackets, s.fills, t.fills, j);
  }
}
