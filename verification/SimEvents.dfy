/**
 What market events do to one bracket of the SIM exchange, in market terms: when it
 enters and when it leaves, at what price, on which order.
 */
module SimEvents {
  import opened Market
  import opened Money
  import opened SimModel
  import opened SimLedger
  import opened SimRuns
  import opened SimLifecycle
  import opened SimActual

  // ---- Prices and records --------------------------------------------------------------------------

  function Slippage(cfg: Config): real { cfg.slippageBps / 10000.0 }

  function HalfSpread(cfg: Config): real { cfg.spreadBps / 20000.0 }

  /** A long lifts the ask, a short hits the bid, each worsened by slippage. */
  function EntryCents(cfg: Config, side: Side, book: BidAsk): int
  {
    Round(if side == Long then book.ask * (1.0 + Slippage(cfg)) else book.bid * (1.0 - Slippage(cfg)))
  }

  /** Leaving goes the other way. */
  function ExitCents(cfg: Config, side: Side, book: BidAsk): int
  {
    Round(if side == Long then book.bid * (1.0 - Slippage(cfg)) else book.ask * (1.0 + Slippage(cfg)))
  }

  /** The book around a price. */
  function Around(cfg: Config, price: real): BidAsk
  {
    BidAsk(price * (1.0 - HalfSpread(cfg)), price * (1.0 + HalfSpread(cfg)))
  }

  /** What `qty` shares gain between two prices, after the commission of each. */
  function Gain(cfg: Config, side: Side, qty: Shares, entry: int, exit: int): int
  {
    (if side == Long then qty * exit - qty * entry else qty * entry - qty * exit)
      - Commission(cfg.commission, qty, entry) - Commission(cfg.commission, qty, exit)
  }

  /** A fill was recorded between two states. */
  ghost predicate Written(s: State, t: State, f: Fill)
  {
    exists n :: |s.fills| <= n < |t.fills| && t.fills[n] == f
  }

  function EntryFill(cfg: Config, b: Bracket, price: int, ts: int): Fill
  {
    Fill(Some(b.orders.parent), b.ticker, b.side, b.qty, price, Commission(cfg.commission, b.qty, price), ts)
  }

  function ExitFill(cfg: Config, b: Bracket, order: Option<nat>, price: int, ts: int): Fill
  {
    Fill(order, b.ticker, if b.side == Long then Short else Long, b.qty, price, Commission(cfg.commission, b.qty, price), ts)
  }

  /** Entered at a price and a time, nothing else changed. */
  function InAt(b: Bracket, price: int, ts: int): Bracket
  {
    b.(status := Open, entryPrice := Some(price), openedAt := Some(ts))
  }

  /** Left in full at a price and a time, with what that gained; nothing else changed. */
  function OutAt(cfg: Config, b: Bracket, price: int, ts: int): Bracket
    requires b.entryPrice.Some?
  {
    b.(status := Closed, exitPrice := Some(price), closedAt := Some(ts),
       realized := Gain(cfg, b.side, b.qty, b.entryPrice.value, price))
  }

  lemma SynthesizedAround(cfg: Config, price: real)
    ensures Synthesize(price, cfg.spreadBps) == Around(cfg, price)
  {
    var h := HalfSpread(cfg);
    assert price * (cfg.spreadBps / 10000.0) / 2.0 == price * h;
    assert price * (1.0 - h) == price - price * h;
    assert price * (1.0 + h) == price + price * h;
  }

  lemma EntryPriceIs(cfg: Config, side: Side, book: BidAsk)
    ensures FillPrice(cfg, OpenAction(side), book) == EntryCents(cfg, side, book)
  {
  }

  lemma EnterIs(cfg: Config, b: Bracket, book: BidAsk, ts: int)
    ensures Enter(cfg, b, book, ts).bracket == InAt(b, EntryCents(cfg, b.side, book), ts)
    ensures Enter(cfg, b, book, ts).fill == EntryFill(cfg, b, EntryCents(cfg, b.side, book), ts)
  {
    EntryPriceIs(cfg, b.side, book);
  }

  lemma GainIs(cfg: Config, side: Side, qty: Shares, entry: int, exit: int)
    ensures Net(cfg, side, qty, entry, exit) == Gain(cfg, side, qty, entry, exit)
  {
    GrossSplits(side, qty, entry, exit);
  }

  lemma ExitPriceIs(cfg: Config, side: Side, book: BidAsk)
    ensures FillPrice(cfg, CloseAction(side), book) == ExitCents(cfg, side, book)
  {
  }

  lemma ExitAllIs(cfg: Config, b: Bracket, order: Option<nat>, book: BidAsk, ts: int)
    requires b.status == Open
    ensures ExitAll(cfg, b, order, book, ts).bracket == OutAt(cfg, b, ExitCents(cfg, b.side, book), ts)
    ensures ExitAll(cfg, b, order, book, ts).fill == ExitFill(cfg, b, order, ExitCents(cfg, b.side, book), ts)
  {
    ExitPriceIs(cfg, b.side, book);
    GainIs(cfg, b.side, b.qty, b.entryPrice.value, ExitCents(cfg, b.side, book));
  }

  // ---- Loops that do not throw --------------------------------------------------------------------

  lemma {:induction false} UnthrownSweep(s: State, pass: Pass, i: nat, j: nat)
    requires !SweepOrThrow(s, pass, i, j).threw
    ensures SweepOrThrow(s, pass, i, j).state == Sweep(s, pass, i, j)
    decreases |s.portfolios| - i, if i < |s.portfolios| then |s.portfolios[i].brackets| - j else 0
  {
    if i >= |s.portfolios| {
    } else if j >= |s.portfolios[i].brackets| {
      UnthrownSweep(s, pass, i + 1, 0);
    } else {
      UnthrownVisit(s, pass, i, j);
      UnthrownSweep(VisitAt(s, pass, i, j), pass, i, j + 1);
    }
  }

  lemma UnthrownVisit(s: State, pass: Pass, i: nat, j: nat)
    requires At(s, i, j) && !VisitOrThrow(s, pass, i, j).threw
    ensures VisitOrThrow(s, pass, i, j).state == VisitAt(s, pass, i, j)
  {
  }

  lemma VisitWritten(s: State, pass: Pass, i: nat, j: nat)
    requires At(s, i, j) && !VisitOrThrow(s, pass, i, j).threw && Visit(s.cfg, pass, BracketAt(s, i, j)).Some?
    ensures var f := Visit(s.cfg, pass, BracketAt(s, i, j)).value.fill;
      ValidFill(f) && Written(s, VisitAt(s, pass, i, j), f)
  {
    assert VisitAt(s, pass, i, j).fills[|s.fills|] == Visit(s.cfg, pass, BracketAt(s, i, j)).value.fill;
  }

  /** A record stays, and is as new to an earlier state. */
  lemma WrittenWithin(r: State, s: State, t: State, u: State, f: Fill)
    requires r.fills <= s.fills && t.fills <= u.fills && Written(s, t, f)
    ensures Written(r, u, f)
  {
    var n :| |s.fills| <= n < |t.fills| && t.fills[n] == f;
    assert u.fills[n] == f;
  }

  lemma SweepFromVisit(s: State, pass: Pass, i: nat, j: nat)
    requires At(s, i, j) && !SweepOrThrow(s, pass, i, j).threw
    ensures !VisitOrThrow(s, pass, i, j).threw && !SweepOrThrow(VisitAt(s, pass, i, j), pass, i, j + 1).threw
    ensures Sweep(s, pass, i, j) == Sweep(VisitAt(s, pass, i, j), pass, i, j + 1)
  {
    UnthrownVisit(s, pass, i, j);
  }

  /** A pass that does not throw records an accepted fill for every bracket it visits. */
  lemma {:induction false} SweepWritten(s: State, pass: Pass, i: nat, j: nat, k: nat, l: nat)
    requires At(s, k, l) && !Before(k, l, i, j) && !SweepOrThrow(s, pass, i, j).threw
    requires Visit(s.cfg, pass, BracketAt(s, k, l)).Some?
    ensures var f := Visit(s.cfg, pass, BracketAt(s, k, l)).value.fill;
      ValidFill(f) && Written(s, Sweep(s, pass, i, j), f)
    decreases |s.portfolios| - i, if i < |s.portfolios| then |s.portfolios[i].brackets| - j else 0, 1
  {
    if j >= |s.portfolios[i].brackets| {
      SweepWritten(s, pass, i + 1, 0, k, l);
    } else if k == i && l == j {
      SweepFromVisit(s, pass, i, j);
      VisitWritten(s, pass, i, j);
      SweepFrame(VisitAt(s, pass, i, j), pass, i, j + 1);
      WrittenWithin(s, s, VisitAt(s, pass, i, j), Sweep(s, pass, i, j), Visit(s.cfg, pass, BracketAt(s, k, l)).value.fill);
    } else {
      LaterWritten(s, pass, i, j, k, l);
    }
  }

  lemma {:induction false} LaterWritten(s: State, pass: Pass, i: nat, j: nat, k: nat, l: nat)
    requires At(s, i, j) && At(s, k, l) && Before(i, j, k, l) && !SweepOrThrow(s, pass, i, j).threw
    requires Visit(s.cfg, pass, BracketAt(s, k, l)).Some?
    ensures var f := Visit(s.cfg, pass, BracketAt(s, k, l)).value.fill;
      ValidFill(f) && Written(s, Sweep(s, pass, i, j), f)
    decreases |s.portfolios| - i, if i < |s.portfolios| then |s.portfolios[i].brackets| - j else 0, 0
  {
    var v, f := VisitAt(s, pass, i, j), Visit(s.cfg, pass, BracketAt(s, k, l)).value.fill;
    SweepFromVisit(s, pass, i, j);
    VisitPointwise(s, pass, i, j, k, l);
    SweepWritten(v, pass, i, j + 1, k, l);
    VisitGrows(s, pass, i, j);
    WrittenWithin(s, v, Sweep(v, pass, i, j + 1), Sweep(s, pass, i, j), f);
  }

  lemma VisitGrows(s: State, pass: Pass, i: nat, j: nat)
    requires At(s, i, j)
    ensures s.fills <= VisitAt(s, pass, i, j).fills
  {
  }

  /** What a pass that does not throw does to one bracket, and records of it. */
  ghost predicate Passed(cfg: Config, pass: Pass, s: State, t: State, b: Bracket, c: Bracket)
  {
    match Visit(cfg, pass, b)
    case None => c == b
    case Some(bk) => c == bk.bracket && ValidFill(bk.fill) && Written(s, t, bk.fill)
  }

  lemma SweepPassed(s: State, pass: Pass, k: nat, l: nat)
    requires At(s, k, l) && !SweepOrThrow(s, pass, 0, 0).threw
    ensures var t := SweepOrThrow(s, pass, 0, 0).state;
      At(t, k, l) && Passed(s.cfg, pass, s, t, BracketAt(s, k, l), BracketAt(t, k, l)) &&
      t.cfg == s.cfg && t.marks == s.marks && s.fills <= t.fills
  {
    UnthrownSweep(s, pass, 0, 0);
    SweepFrame(s, pass, 0, 0);
    SweepPointwise(s, pass, 0, 0, k, l);
    if Visit(s.cfg, pass, BracketAt(s, k, l)).Some? {
      SweepWritten(s, pass, 0, 0, k, l);
    }
  }

  lemma PassedWithin(cfg: Config, pass: Pass, r: State, s: State, t: State, u: State, b: Bracket, c: Bracket)
    requires r.fills <= s.fills && t.fills <= u.fills && Passed(cfg, pass, s, t, b, c)
    ensures Passed(cfg, pass, r, u, b, c)
  {
    match Visit(cfg, pass, b)
    case None =>
    case Some(bk) => WrittenWithin(r, s, t, u, bk.fill);
  }

  // ---- Levels ----------------------------------------------------------------------------------------

  predicate ReachesStop(b: Bracket, bar: Candle)
  {
    if b.side == Long then bar.low <= b.stop else b.stop <= bar.high
  }

  predicate ReachesTarget(b: Bracket, bar: Candle)
  {
    b.target.Some? && if b.side == Long then b.target.value <= bar.high else bar.low <= b.target.value
  }

  /** The worse of a bracket's stop and the bar's open. */
  function StopOrOpen(b: Bracket, bar: Candle): real
  {
    if b.side == Long then (if bar.open < b.stop then bar.open else b.stop)
    else if b.stop < bar.open then bar.open else b.stop
  }

  /** Left in full, around a reference price, by an accepted fill on an order. */
  ghost predicate LeftAround(s: State, t: State, b: Bracket, c: Bracket, order: Option<nat>, reference: real, ts: int)
    requires b.entryPrice.Some?
  {
    var price := ExitCents(s.cfg, b.side, Around(s.cfg, reference));
    c == OutAt(s.cfg, b, price, ts) && order.Some? && price >= 1 && Written(s, t, ExitFill(s.cfg, b, order, price, ts))
  }

  /** What a bar does to a bracket that is open on its ticker: the stop first, then the target, else nothing. */
  ghost predicate ExitsOn(s: State, t: State, b: Bracket, c: Bracket, bar: Candle)
    requires b.entryPrice.Some?
  {
    if ReachesStop(b, bar) then LeftAround(s, t, b, c, Some(b.orders.stop), StopOrOpen(b, bar), bar.ts)
    else if ReachesTarget(b, bar) then LeftAround(s, t, b, c, b.orders.target, b.target.value, bar.ts)
    else c == b
  }

  lemma PassedExits(s: State, t: State, b: Bracket, c: Bracket, bar: Candle)
    requires b.status == Open && b.ticker == bar.ticker && Passed(s.cfg, Exits(bar), s, t, b, c)
    ensures ExitsOn(s, t, b, c, bar)
  {
    if ReachesStop(b, bar) {
      SynthesizedAround(s.cfg, StopOrOpen(b, bar));
      ExitAllIs(s.cfg, b, Some(b.orders.stop), Around(s.cfg, StopOrOpen(b, bar)), bar.ts);
    } else if ReachesTarget(b, bar) {
      SynthesizedAround(s.cfg, b.target.value);
      ExitAllIs(s.cfg, b, b.orders.target, Around(s.cfg, b.target.value), bar.ts);
    }
  }

  // ---- Bars ------------------------------------------------------------------------------------------

  /** A bar in two passes. */
  lemma BarPassed(s: State, bar: Candle, k: nat, l: nat) returns (e: Bracket)
    requires At(s, k, l) && !BarOrThrow(s, bar).threw
    ensures var t := BarOrThrow(s, bar).state;
      At(t, k, l) && Passed(s.cfg, EntriesOf(s, bar), s, t, BracketAt(s, k, l), e) &&
      Passed(s.cfg, Exits(bar), s, t, e, BracketAt(t, k, l)) &&
      t.marks == s.marks[bar.ticker := Mark(BarQuote(s, bar), bar.ts)]
  {
    var marked := Marked(s, bar.ticker, Mark(BarQuote(s, bar), bar.ts));
    var filled := SweepOrThrow(marked, EntriesOf(s, bar), 0, 0).state;
    var t := BarOrThrow(s, bar).state;
    SweepPassed(marked, EntriesOf(s, bar), k, l);
    SweepPassed(filled, Exits(bar), k, l);
    e := BracketAt(filled, k, l);
    PassedWithin(s.cfg, EntriesOf(s, bar), s, marked, filled, t, BracketAt(s, k, l), e);
    PassedWithin(s.cfg, Exits(bar), s, filled, t, t, e, BracketAt(t, k, l));
  }

  /**
   A bar that refuses nothing takes an open bracket on its ticker out at the worse of stop
   and open if it reaches the stop, else at the target if it reaches that, on that leg's
   order; and leaves it as it is exactly when it reaches neither.
   */
  lemma BarOnOpen(s: State, bar: Candle, k: nat, l: nat)
    requires At(s, k, l) && !BarOrThrow(s, bar).threw
    requires BracketAt(s, k, l).status == Open && BracketAt(s, k, l).ticker == bar.ticker
    ensures var t := BarOrThrow(s, bar).state;
      At(t, k, l) &&
      var b, c := BracketAt(s, k, l), BracketAt(t, k, l);
      ExitsOn(s, t, b, c, bar) && (c == b <==> !ReachesStop(b, bar) && !ReachesTarget(b, bar))
  {
    var e := BarPassed(s, bar, k, l);
    PassedExits(s, BarOrThrow(s, bar).state, e, BracketAt(BarOrThrow(s, bar).state, k, l), bar);
  }

  /** A pending bracket enters at the close's book, by an accepted fill on its parent order. */
  ghost predicate EntersAt(s: State, t: State, b: Bracket, e: Bracket, book: BidAsk, ts: int)
  {
    var price := EntryCents(s.cfg, b.side, book);
    e == InAt(b, price, ts) && price >= 1 && Written(s, t, EntryFill(s.cfg, b, price, ts))
  }

  predicate BarReachesEntry(b: Bracket, bar: Candle)
  {
    b.entry.LimitEntry? ==> bar.low <= b.entry.limit && b.entry.limit <= bar.high
  }

  lemma PassedEntry(s: State, t: State, b: Bracket, e: Bracket, bar: Candle)
    requires b.status == Pending && b.ticker == bar.ticker && Passed(s.cfg, EntriesOf(s, bar), s, t, b, e)
    ensures if BarReachesEntry(b, bar) then EntersAt(s, t, b, e, Around(s.cfg, bar.close), bar.ts) else e == b
  {
    SynthesizedAround(s.cfg, bar.close);
    EnterIs(s.cfg, b, Around(s.cfg, bar.close), bar.ts);
  }

  /**
   A bar that refuses nothing lets a pending bracket on its ticker in, at the book around
   the close, exactly when the entry is a market entry or the limit lies within the bar;
   and then may take it out like any open one.
   */
  lemma BarOnPending(s: State, bar: Candle, k: nat, l: nat)
    requires At(s, k, l) && !BarOrThrow(s, bar).threw
    requires BracketAt(s, k, l).status == Pending && BracketAt(s, k, l).ticker == bar.ticker
    ensures var t := BarOrThrow(s, bar).state;
      At(t, k, l) &&
      var b, c := BracketAt(s, k, l), BracketAt(t, k, l);
      (c.status != Pending <==> BarReachesEntry(b, bar)) &&
      (c.status == Pending ==> c == b) &&
      (c.status != Pending ==> exists e: Bracket ::
        EntersAt(s, t, b, e, Around(s.cfg, bar.close), bar.ts) && ExitsOn(s, t, e, c, bar))
  {
    var t, b := BarOrThrow(s, bar).state, BracketAt(s, k, l);
    var e := BarPassed(s, bar, k, l);
    PassedEntry(s, t, b, e, bar);
    if BarReachesEntry(b, bar) {
      PassedExits(s, t, e, BracketAt(t, k, l), bar);
    }
  }

  /** A bar leaves brackets of other tickers, and those that are closed or cancelled, as they are. */
  lemma BarElsewhere(s: State, bar: Candle, k: nat, l: nat)
    requires At(s, k, l) && !BarOrThrow(s, bar).threw
    requires var b := BracketAt(s, k, l); b.ticker != bar.ticker || b.status == Closed || b.status == Cancelled
    ensures At(BarOrThrow(s, bar).state, k, l) && BracketAt(BarOrThrow(s, bar).state, k, l) == BracketAt(s, k, l)
  {
    var e := BarPassed(s, bar, k, l);
  }

  // ---- Quotes ----------------------------------------------------------------------------------------

  function FirstKnown(a: Option<real>, b: Option<real>, c: Option<real>): Option<real>
  {
    if a.Some? then a else if b.Some? then b else c
  }

  predicate Priced(q: Quote) { q.bid.Some? || q.ask.Some? || q.last.Some? }

  /** Each side of the book is the quoted one, else the last trade, else the other side. */
  function QuotedBook(q: Quote): BidAsk
    requires Priced(q)
  {
    BidAsk(FirstKnown(q.bid, q.last, q.ask).value, FirstKnown(q.ask, q.last, q.bid).value)
  }

  lemma BookIs(q: Quote)
    ensures Book(q) == if Priced(q) then Some(QuotedBook(q)) else None
  {
  }

  predicate QuoteReachesEntry(b: Bracket, book: BidAsk)
  {
    b.entry.LimitEntry? ==> if b.side == Long then book.ask <= b.entry.limit else b.entry.limit <= book.bid
  }

  /** A quote without any price changes nothing; any other marks its ticker with its book and time. */
  lemma QuoteMarks(s: State, q: Quote)
    ensures !Priced(q) ==> QuoteOrThrow(s, q) == Result(s, false)
    ensures Priced(q) ==> QuoteOrThrow(s, q).state.marks == s.marks[q.ticker := Mark(QuotedBook(q), q.ts)]
  {
    BookIs(q);
    if Priced(q) {
      SweepPlaces(Marked(s, q.ticker, Mark(QuotedBook(q), q.ts)), Entries(q.ticker, QuotedBook(q), q.ts, None), 0, 0, 0, 0);
    }
  }

  /** A bar marks its ticker with the book around its close, at its time. */
  lemma BarMarks(s: State, bar: Candle)
    ensures BarOrThrow(s, bar).state.marks == s.marks[bar.ticker := Mark(Around(s.cfg, bar.close), bar.ts)]
  {
    SynthesizedAround(s.cfg, bar.close);
    var marked := Marked(s, bar.ticker, Mark(BarQuote(s, bar), bar.ts));
    SweepPlaces(marked, EntriesOf(s, bar), 0, 0, 0, 0);
    SweepPlaces(SweepOrThrow(marked, EntriesOf(s, bar), 0, 0).state, Exits(bar), 0, 0, 0, 0);
  }

  /**
   A quote that refuses nothing lets a pending bracket on its ticker in, at its own book,
   exactly when the entry is a market entry, or the ask is at or below a long's limit, or
   the bid at or above a short's; every other bracket stays as it is.
   */
  lemma QuoteOnBracket(s: State, q: Quote, k: nat, l: nat)
    requires At(s, k, l) && Priced(q) && !QuoteOrThrow(s, q).threw
    ensures var t := QuoteOrThrow(s, q).state;
      At(t, k, l) &&
      var b, c := BracketAt(s, k, l), BracketAt(t, k, l);
      if b.status == Pending && b.ticker == q.ticker && QuoteReachesEntry(b, QuotedBook(q))
      then EntersAt(s, t, b, c, QuotedBook(q), q.ts) else c == b
  {
    var t, b := QuoteOrThrow(s, q).state, BracketAt(s, k, l);
    BookIs(q);
    var pass := Entries(q.ticker, QuotedBook(q), q.ts, None);
    var marked := Marked(s, q.ticker, Mark(QuotedBook(q), q.ts));
    SweepPassed(marked, pass, k, l);
    PassedWithin(s.cfg, pass, s, marked, t, t, b, BracketAt(t, k, l));
    EnterIs(s.cfg, b, QuotedBook(q), q.ts);
  }
}
