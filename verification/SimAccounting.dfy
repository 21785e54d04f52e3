/** What cash and realized P&L of the SIM exchange say about each other. */
module SimAccounting {
  import opened Market
  import opened Money
  import opened SimModel
  import opened SimLedger
  import opened SimRuns

  ghost predicate Flat(p: Portfolio)
  {
    forall j :: 0 <= j < |p.brackets| ==> p.brackets[j].status != Open
  }

  // ---- The ledger of exits ----------------------------------------------------------

  /**
   The entry commissions charged to exits, piece by piece: exactly one commission
   if there was one piece, and never more than half a cent a piece below the
   commission of everything that was sold.
   */
  lemma {:induction false} BookedPieces(m: CommissionModel, k: Key, fs: seq<Fill>)
    ensures var l := LedgerOf(m, k, fs);
      if l.exits == 0 then l.sold == 0 && l.booked == 0
      else
        l.sold >= 1 &&
        (l.exits == 1 ==> l.booked == Commission(m, l.sold, k.price)) &&
        2.0 * l.booked as real > 2.0 * RawCommission(m, l.sold, k.price) - l.exits as real
  {
    if |fs| > 0 {
      var fs', f := fs[..|fs| - 1], fs[|fs| - 1];
      BookedPieces(m, k, fs');
      var l := LedgerOf(m, k, fs');
      if l.exits > 0 {
        CommissionSubadditive(m, l.sold, f.qty, k.price);
      }
    }
  }

  /** A closed bracket books back its entry commission, less half a cent a piece at most. */
  lemma ClosedGap(m: CommissionModel, b: Bracket, fs: seq<Fill>)
    requires b.status == Closed && Conserved(m, b, fs)
    ensures 2 * CommissionGap(m, b, fs) + LedgerOf(m, KeyOf(b), fs).exits >= 0
    ensures LedgerOf(m, KeyOf(b), fs).exits == 1 ==> CommissionGap(m, b, fs) == 0
  {
    BookedPieces(m, KeyOf(b), fs);
  }

  // ---- Flat books ---------------------------------------------------------------------

  /** Exit pieces over all closed brackets. */
  ghost function Pieces(m: CommissionModel, bs: seq<Bracket>, fs: seq<Fill>): nat
  {
    if |bs| == 0 then 0
    else (if bs[0].status == Closed then LedgerOf(m, KeyOf(bs[0]), fs).exits else 0) + Pieces(m, bs[1..], fs)
  }

  /** Every closed bracket left in a single exit fill. */
  ghost predicate InOnePiece(m: CommissionModel, bs: seq<Bracket>, fs: seq<Fill>)
  {
    forall j :: 0 <= j < |bs| && bs[j].status == Closed ==> LedgerOf(m, KeyOf(bs[j]), fs).exits == 1
  }

  lemma {:induction false} FlatCarry(m: CommissionModel, bs: seq<Bracket>, fs: seq<Fill>)
    requires forall j :: 0 <= j < |bs| ==> bs[j].status != Open && Conserved(m, bs[j], fs)
    ensures 2 * TotalCarry(m, bs, fs) + Pieces(m, bs, fs) >= 0
    ensures InOnePiece(m, bs, fs) ==> TotalCarry(m, bs, fs) == 0
  {
    if |bs| > 0 {
      FlatCarry(m, bs[1..], fs);
      if bs[0].status == Closed {
        ClosedGap(m, bs[0], fs);
      } else {
        UntouchedLedger(m, KeyOf(bs[0]), fs);
      }
    }
  }

  lemma FlatBrackets(cfg: Config, cs: seq<Command>, i: nat)
    requires Accepted(Run(cfg, cs)) && i < |Run(cfg, cs).portfolios| && Flat(Run(cfg, cs).portfolios[i])
    ensures var s := Run(cfg, cs);
      var p := s.portfolios[i];
      s.cfg == cfg && p.cash == p.startingCash + p.realized + TotalCarry(cfg.commission, p.brackets, s.fills) &&
      forall j :: 0 <= j < |p.brackets| ==> p.brackets[j].status != Open && Conserved(cfg.commission, p.brackets[j], s.fills)
  {
    RunSound(cfg, cs);
    var s := Run(cfg, cs);
    var p := s.portfolios[i];
    forall j | 0 <= j < |p.brackets|
      ensures p.brackets[j].status != Open && Conserved(cfg.commission, p.brackets[j], s.fills)
    {
      assert At(s, i, j);
      assert BracketAt(s, i, j) == p.brackets[j];
    }
  }

  /**
   Once a portfolio is flat, its change in cash falls short of its realized P&L by
   at most half a cent per exit piece, and equals it when nothing was scaled out.
   */
  lemma FlatBook(cfg: Config, cs: seq<Command>, i: nat)
    requires Accepted(Run(cfg, cs)) && i < |Run(cfg, cs).portfolios| && Flat(Run(cfg, cs).portfolios[i])
    ensures var s := Run(cfg, cs);
      var p := s.portfolios[i];
      2 * (p.cash - p.startingCash - p.realized) + Pieces(cfg.commission, p.brackets, s.fills) >= 0
    ensures var s := Run(cfg, cs);
      var p := s.portfolios[i];
      InOnePiece(cfg.commission, p.brackets, s.fills) ==> p.cash - p.startingCash == p.realized
  {
    FlatBrackets(cfg, cs, i);
    var s := Run(cfg, cs);
    FlatCarry(cfg.commission, s.portfolios[i].brackets, s.fills);
  }

  // ---- Exactly when a book is exact ---------------------------------------------------------

  /**
   Over the closed brackets: the commissions of the exit pieces, each at the entry
   price, less the commission the entry of the whole paid.
   */
  ghost function PieceGap(m: CommissionModel, bs: seq<Bracket>, fs: seq<Fill>): int
  {
    if |bs| == 0 then 0 else
    (if bs[0].status == Closed then CommissionGap(m, bs[0], fs) else 0) + PieceGap(m, bs[1..], fs)
  }

  lemma {:induction false} FlatGap(m: CommissionModel, bs: seq<Bracket>, fs: seq<Fill>)
    requires forall j :: 0 <= j < |bs| ==> bs[j].status != Open && Conserved(m, bs[j], fs)
    ensures TotalCarry(m, bs, fs) == PieceGap(m, bs, fs)
  {
    if |bs| > 0 {
      FlatGap(m, bs[1..], fs);
      if bs[0].status != Closed {
        UntouchedLedger(m, KeyOf(bs[0]), fs);
      }
    }
  }

  /** A flat portfolio's change in cash is its realized P&L exactly when the pieces cost what the wholes do. */
  lemma FlatExactly(cfg: Config, cs: seq<Command>, i: nat)
    requires Accepted(Run(cfg, cs)) && i < |Run(cfg, cs).portfolios| && Flat(Run(cfg, cs).portfolios[i])
    ensures var s := Run(cfg, cs);
      var p := s.portfolios[i];
      p.cash - p.startingCash == p.realized + PieceGap(cfg.commission, p.brackets, s.fills) &&
      (p.cash - p.startingCash == p.realized <==> PieceGap(cfg.commission, p.brackets, s.fills) == 0)
  {
    FlatBrackets(cfg, cs, i);
    FlatGap(cfg.commission, Run(cfg, cs).portfolios[i].brackets, Run(cfg, cs).fills);
  }

  // ---- Exactly when every book is exact --------------------------------------------------------

  /** Splitting an order leaves its commission, in whole cents, as it was. */
  ghost predicate Additive(m: CommissionModel)
  {
    forall a: Shares, b: Shares, price: int :: price >= 1 ==>
      Commission(m, a + b, price) == Commission(m, a, price) + Commission(m, b, price)
  }

  /** Every run that ends flat without a refused fill has cash and realized P&L agree. */
  ghost predicate AlwaysExact(cfg: Config)
  {
    forall cs: seq<Command>, i: nat ::
      Accepted(Run(cfg, cs)) && i < |Run(cfg, cs).portfolios| && Flat(Run(cfg, cs).portfolios[i]) ==>
        Run(cfg, cs).portfolios[i].cash - Run(cfg, cs).portfolios[i].startingCash == Run(cfg, cs).portfolios[i].realized
  }

  lemma {:induction false} BookedAdditively(m: CommissionModel, k: Key, fs: seq<Fill>)
    requires Additive(m) && k.price >= 1
    ensures var l := LedgerOf(m, k, fs);
      if l.exits == 0 then l.sold == 0 && l.booked == 0 else l.sold >= 1 && l.booked == Commission(m, l.sold, k.price)
  {
    if |fs| > 0 {
      BookedAdditively(m, k, fs[..|fs| - 1]);
    }
  }

  lemma {:induction false} EntryPriced(m: CommissionModel, k: Key, fs: seq<Fill>)
    requires forall n :: 0 <= n < |fs| ==> ValidFill(fs[n])
    ensures LedgerOf(m, k, fs).entries > 0 ==> LedgerOf(m, k, fs).price >= 1
  {
    if |fs| > 0 {
      EntryPriced(m, k, fs[..|fs| - 1]);
    }
  }

  lemma {:induction false} AdditiveGap(m: CommissionModel, bs: seq<Bracket>, fs: seq<Fill>)
    requires Additive(m) && forall n :: 0 <= n < |fs| ==> ValidFill(fs[n])
    requires forall j :: 0 <= j < |bs| ==> Conserved(m, bs[j], fs)
    ensures PieceGap(m, bs, fs) == 0
  {
    if |bs| > 0 {
      AdditiveGap(m, bs[1..], fs);
      if bs[0].status == Closed {
        EntryPriced(m, KeyOf(bs[0]), fs);
        BookedAdditively(m, KeyOf(bs[0]), fs);
      }
    }
  }

  lemma AdditiveAlwaysExact(cfg: Config)
    requires Additive(cfg.commission)
    ensures AlwaysExact(cfg)
  {
    forall cs: seq<Command>, i: nat |
        Accepted(Run(cfg, cs)) && i < |Run(cfg, cs).portfolios| && Flat(Run(cfg, cs).portfolios[i])
      ensures Run(cfg, cs).portfolios[i].cash - Run(cfg, cs).portfolios[i].startingCash == Run(cfg, cs).portfolios[i].realized
    {
      FlatExactly(cfg, cs, i);
      FlatBrackets(cfg, cs, i);
      AdditiveGap(cfg.commission, Run(cfg, cs).portfolios[i].brackets, Run(cfg, cs).fills);
    }
  }

  // ---- A round trip in two pieces --------------------------------------------------------------------

  function Slip(cfg: Config): real { cfg.slippageBps / 10000.0 }

  /** A book that sells at `entry` cents and buys at one. */
  function TripBook(cfg: Config, entry: int): BidAsk
    requires Slip(cfg) != 1.0
  {
    BidAsk(1.0 / (1.0 - Slip(cfg)), entry as real / (1.0 + Slip(cfg)))
  }

  lemma TripPrices(cfg: Config, entry: int)
    requires Slip(cfg) != 1.0
    ensures FillPrice(cfg, Buy, TripBook(cfg, entry)) == entry && FillPrice(cfg, Sell, TripBook(cfg, entry)) == 1
  {
    Undone(entry as real, 1.0 + Slip(cfg));
    Undone(1.0, 1.0 - Slip(cfg));
    RoundWhole(entry);
    RoundWhole(1);
  }

  lemma Undone(x: real, d: real)
    requires d != 0.0
    ensures x / d * d == x
  {
  }

  function TripQuote(cfg: Config, entry: int): Quote
    requires Slip(cfg) != 1.0
  {
    Quote("QUAL", Some(TripBook(cfg, entry).bid), Some(TripBook(cfg, entry).ask), None, 0)
  }

  function TripEntry(qty: Shares): Request
  {
    Request("s", SIM, "QUAL", Long, qty, MarketEntry, 1.0, None)
  }

  function TripCut(qty: Shares): Modification
  {
    Modification(1, None, None, Some(qty))
  }

  /** Buy `a + b`, sell `b`, flatten `a`. */
  function Trip(cfg: Config, a: Shares, b: Shares, entry: int): seq<Command>
    requires Slip(cfg) != 1.0
  {
    TripToSale(cfg, a, b, entry) + [CancelBracket(1)]
  }

  /** One portfolio with one bracket on a marked ticker. */
  ghost predicate OneBracket(s: State, cfg: Config, book: BidAsk, b: Bracket)
  {
    s.cfg == cfg && |s.portfolios| == 1 && s.portfolios[0].strategy == "s" && s.portfolios[0].brackets == [b] &&
    b.id == 1 && b.orders == Orders(2, 3, None) && b.ticker == "QUAL" && b.side == Long &&
    s.marks == map["QUAL" := Mark(book, 0)] && s.owner == map[1 := "s"]
  }

  /** What the books say so far. */
  ghost predicate Books(s: State, fills: seq<Fill>, realized: int, closed: seq<ClosedTrade>)
  {
    s.fills == fills && |s.portfolios| == 1 && s.portfolios[0].realized == realized && s.closed == closed
  }

  function TradesOf(bk: Booking): seq<ClosedTrade>
  {
    if bk.trade.Some? then [bk.trade.value] else []
  }

  /** The books with one more booking in them. */
  ghost predicate BooksOn(s: State, t: State, bk: Booking)
  {
    |s.portfolios| == 1 && Books(t, s.fills + [bk.fill], s.portfolios[0].realized + bk.realized, s.closed + TradesOf(bk))
  }

  lemma PostOne(s: State, cfg: Config, book: BidAsk, b: Bracket, bk: Booking)
    requires OneBracket(s, cfg, book, b) && SameIdentity(b, bk.bracket)
    ensures OneBracket(Post(s, 0, 0, bk), cfg, book, bk.bracket)
    ensures BooksOn(s, Post(s, 0, 0, bk), bk)
  {
  }

  lemma TripMarks(cfg: Config, entry: int)
    requires Slip(cfg) != 1.0
    ensures UpdateQuote(Init(cfg), TripQuote(cfg, entry))
      == Init(cfg).(marks := map["QUAL" := Mark(TripBook(cfg, entry), 0)])
  {
    assert Init(cfg).marks["QUAL" := Mark(TripBook(cfg, entry), 0)] == map["QUAL" := Mark(TripBook(cfg, entry), 0)];
  }

  lemma TripRecords(s: State, cfg: Config, book: BidAsk, qty: Shares)
    requires s == Init(cfg).(marks := map["QUAL" := Mark(book, 0)])
    ensures OneBracket(Recorded(s, TripEntry(qty)), cfg, book, NewBracket(0, TripEntry(qty)))
    ensures Books(Recorded(s, TripEntry(qty)), [], 0, [])
    ensures PortfolioIndex(Recorded(s, TripEntry(qty)).portfolios, "s") == 0
  {
    var r := TripEntry(qty);
    var u, t := Ensured(s, "s"), Recorded(s, r);
    assert u.portfolios == [Portfolio("s", cfg.startingCash, cfg.startingCash, 0, [])];
    assert t.portfolios[0].brackets == [NewBracket(0, r)];
    assert t.owner == map[1 := "s"];
  }

  lemma TripEnters(s: State, cfg: Config, book: BidAsk, qty: Shares)
    requires s == Init(cfg).(marks := map["QUAL" := Mark(book, 0)])
    ensures var bk := Enter(cfg, NewBracket(0, TripEntry(qty)), book, 0);
      OneBracket(Place(s, TripEntry(qty)).0, cfg, book, bk.bracket) && Books(Place(s, TripEntry(qty)).0, [bk.fill], 0, [])
  {
    TripRecords(s, cfg, book, qty);
    var t, b := Recorded(s, TripEntry(qty)), NewBracket(0, TripEntry(qty));
    SetSame(t, 0, 0);
    var bk := Enter(cfg, b, book, 0);
    assert Place(s, TripEntry(qty)).0 == Post(t, 0, 0, bk);
    PostOne(t, cfg, book, b, bk);
  }

  lemma OneLookup(s: State, cfg: Config, book: BidAsk, b: Bracket)
    requires OneBracket(s, cfg, book, b)
    ensures Lookup(s, 1) == Some((0, 0))
  {
  }

  lemma TripCuts(s: State, cfg: Config, book: BidAsk, b: Bracket, keep: Shares)
    requires OneBracket(s, cfg, book, b) && b.status == Open && keep < b.qty
    ensures var bk := ExitPart(cfg, b, b.qty - keep, book, 0);
      OneBracket(Modify(s, TripCut(keep)).0, cfg, book, bk.bracket) &&
      BooksOn(s, Modify(s, TripCut(keep)).0, bk)
  {
    OneLookup(s, cfg, book, b);
    SetSame(s, 0, 0);
    assert Moved(b, TripCut(keep)) == b;
    var bk := ExitPart(cfg, b, b.qty - keep, book, 0);
    assert Modify(s, TripCut(keep)).0 == Post(s, 0, 0, bk);
    PostOne(s, cfg, book, b, bk);
  }

  lemma TripFlattens(s: State, cfg: Config, book: BidAsk, b: Bracket)
    requires OneBracket(s, cfg, book, b) && b.status == Open
    ensures var bk := ExitAll(cfg, b, Some(2), book, 0);
      OneBracket(Cancel(s, 1).0, cfg, book, bk.bracket) && BooksOn(s, Cancel(s, 1).0, bk)
  {
    OneLookup(s, cfg, book, b);
    SetSame(s, 0, 0);
    var bk := ExitAll(cfg, b, Some(2), book, 0);
    assert Cancel(s, 1).0 == Post(s, 0, 0, bk);
    PostOne(s, cfg, book, b, bk);
  }

  lemma TripLedger(m: CommissionModel, k: Key, buy: Fill, part: Fill, rest: Fill)
    requires k.orders == Orders(2, 3, None) && k.side == Long
    requires buy.order == part.order == rest.order == Some(2)
    requires buy.side == Long && part.side == rest.side == Short
    ensures LedgerOf(m, k, [] + [buy] + [part] + [rest])
      == Ledger(1, buy.qty, buy.price, buy.commission, 2, part.qty + rest.qty,
                Commission(m, part.qty, k.price) + Commission(m, rest.qty, k.price))
  {
    LedgerAppend(m, k, [], buy);
    LedgerAppend(m, k, [] + [buy], part);
    LedgerAppend(m, k, [] + [buy] + [part], rest);
  }

  function TripBuy(cfg: Config, a: Shares, b: Shares, entry: int): Booking
    requires Slip(cfg) != 1.0
  {
    Enter(cfg, NewBracket(0, TripEntry(a + b)), TripBook(cfg, entry), 0)
  }

  function TripSale(cfg: Config, a: Shares, b: Shares, entry: int): Booking
    requires Slip(cfg) != 1.0
  {
    ExitPart(cfg, TripBuy(cfg, a, b, entry).bracket, b, TripBook(cfg, entry), 0)
  }

  function TripRest(cfg: Config, a: Shares, b: Shares, entry: int): Booking
    requires Slip(cfg) != 1.0
  {
    ExitAll(cfg, TripSale(cfg, a, b, entry).bracket, Some(2), TripBook(cfg, entry), 0)
  }

  /** The trip without its last command, without its last two. */
  function TripToSale(cfg: Config, a: Shares, b: Shares, entry: int): seq<Command>
    requires Slip(cfg) != 1.0
  {
    TripToBuy(cfg, a, b, entry) + [ModifyBracket(TripCut(a))]
  }

  function TripToBuy(cfg: Config, a: Shares, b: Shares, entry: int): seq<Command>
    requires Slip(cfg) != 1.0
  {
    [] + [Tick(TripQuote(cfg, entry))] + [PlaceBracket(TripEntry(a + b))]
  }

  lemma TripBought(cfg: Config, a: Shares, b: Shares, entry: int)
    requires Slip(cfg) != 1.0
    ensures var s := Run(cfg, TripToBuy(cfg, a, b, entry));
      OneBracket(s, cfg, TripBook(cfg, entry), TripBuy(cfg, a, b, entry).bracket) && Books(s, [TripBuy(cfg, a, b, entry).fill], 0, [])
  {
    var one := [] + [Tick(TripQuote(cfg, entry))];
    RunOn(cfg, [], Tick(TripQuote(cfg, entry)));
    RunOn(cfg, one, PlaceBracket(TripEntry(a + b)));
    TripMarks(cfg, entry);
    TripEnters(Run(cfg, one), cfg, TripBook(cfg, entry), a + b);
  }

  lemma TripSold(cfg: Config, a: Shares, b: Shares, entry: int)
    requires Slip(cfg) != 1.0
    ensures var s := Run(cfg, TripToSale(cfg, a, b, entry));
      OneBracket(s, cfg, TripBook(cfg, entry), TripSale(cfg, a, b, entry).bracket) &&
      Books(s, [TripBuy(cfg, a, b, entry).fill] + [TripSale(cfg, a, b, entry).fill], TripSale(cfg, a, b, entry).realized, [])
  {
    var two := TripToBuy(cfg, a, b, entry);
    TripBought(cfg, a, b, entry);
    RunOn(cfg, two, ModifyBracket(TripCut(a)));
    TripCuts(Run(cfg, two), cfg, TripBook(cfg, entry), TripBuy(cfg, a, b, entry).bracket, a);
  }

  lemma TripEnds(cfg: Config, a: Shares, b: Shares, entry: int)
    requires Slip(cfg) != 1.0
    ensures var s := Run(cfg, Trip(cfg, a, b, entry));
      OneBracket(s, cfg, TripBook(cfg, entry), TripRest(cfg, a, b, entry).bracket) &&
      Books(s, [] + [TripBuy(cfg, a, b, entry).fill] + [TripSale(cfg, a, b, entry).fill] + [TripRest(cfg, a, b, entry).fill],
            TripSale(cfg, a, b, entry).realized + TripRest(cfg, a, b, entry).realized, TradesOf(TripRest(cfg, a, b, entry)))
  {
    TripSold(cfg, a, b, entry);
    LastPiece(cfg, TripToSale(cfg, a, b, entry), TripBook(cfg, entry), TripBuy(cfg, a, b, entry), TripSale(cfg, a, b, entry));
  }

  lemma LastPiece(cfg: Config, cs: seq<Command>, book: BidAsk, buy: Booking, sale: Booking)
    requires OneBracket(Run(cfg, cs), cfg, book, sale.bracket) && sale.bracket.status == Open
    requires Books(Run(cfg, cs), [buy.fill] + [sale.fill], sale.realized, [])
    ensures var rest := ExitAll(cfg, sale.bracket, Some(2), book, 0);
      OneBracket(Run(cfg, cs + [CancelBracket(1)]), cfg, book, rest.bracket) &&
      Books(Run(cfg, cs + [CancelBracket(1)]), [] + [buy.fill] + [sale.fill] + [rest.fill],
            sale.realized + rest.realized, TradesOf(rest))
  {
    RunFlattens(cfg, cs, book, sale.bracket);
  }

  lemma RunFlattens(cfg: Config, cs: seq<Command>, book: BidAsk, b: Bracket)
    requires OneBracket(Run(cfg, cs), cfg, book, b) && b.status == Open
    ensures var bk := ExitAll(cfg, b, Some(2), book, 0);
      OneBracket(Run(cfg, cs + [CancelBracket(1)]), cfg, book, bk.bracket) &&
      BooksOn(Run(cfg, cs), Run(cfg, cs + [CancelBracket(1)]), bk)
  {
    RunOn(cfg, cs, CancelBracket(1));
    TripFlattens(Run(cfg, cs), cfg, book, b);
  }

  function TripFill(cfg: Config, side: Side, qty: Shares, price: int): Fill
  {
    Fill(Some(2), "QUAL", side, qty, price, Commission(cfg.commission, qty, price), 0)
  }

  lemma TripBookings(cfg: Config, a: Shares, b: Shares, entry: int)
    requires Slip(cfg) != 1.0
    ensures TripBuy(cfg, a, b, entry).fill == TripFill(cfg, Long, a + b, entry)
    ensures TripSale(cfg, a, b, entry).fill == TripFill(cfg, Short, b, 1)
    ensures TripRest(cfg, a, b, entry).fill == TripFill(cfg, Short, a, 1)
    ensures TripRest(cfg, a, b, entry).bracket.status == Closed
    ensures TripRest(cfg, a, b, entry).bracket.entryPrice == Some(entry)
    ensures TripSale(cfg, a, b, entry).realized == Net(cfg, Long, b, entry, 1)
    ensures TripRest(cfg, a, b, entry).realized == Net(cfg, Long, a, entry, 1)
    ensures TripRest(cfg, a, b, entry).trade.Some? && TripRest(cfg, a, b, entry).trade.value.realized == Net(cfg, Long, a, entry, 1)
  {
    TripPrices(cfg, entry);
  }

  lemma TripLedgerOf(cfg: Config, k: Key, a: Shares, b: Shares, entry: int)
    requires k == Key(Orders(2, 3, None), Long, entry)
    ensures var m := cfg.commission;
      var l := LedgerOf(m, k, [] + [TripFill(cfg, Long, a + b, entry)] + [TripFill(cfg, Short, b, 1)] + [TripFill(cfg, Short, a, 1)]);
      l.booked - l.paid == Commission(m, b, entry) + Commission(m, a, entry) - Commission(m, a + b, entry)
  {
    TripLedger(cfg.commission, k, TripFill(cfg, Long, a + b, entry), TripFill(cfg, Short, b, 1), TripFill(cfg, Short, a, 1));
  }

  /** The trip ends flat, no fill refused, and its pieces cost what two orders do instead of one. */
  lemma TripGap(cfg: Config, a: Shares, b: Shares, entry: int)
    requires Slip(cfg) != 1.0 && entry >= 1
    ensures var s := Run(cfg, Trip(cfg, a, b, entry));
      Accepted(s) && |s.portfolios| == 1 && Flat(s.portfolios[0]) &&
      PieceGap(cfg.commission, s.portfolios[0].brackets, s.fills)
      == Commission(cfg.commission, b, entry) + Commission(cfg.commission, a, entry) - Commission(cfg.commission, a + b, entry)
  {
    TripEnds(cfg, a, b, entry);
    TripBookings(cfg, a, b, entry);
    var last := TripRest(cfg, a, b, entry).bracket;
    TripLedgerOf(cfg, KeyOf(last), a, b, entry);
    OneGap(cfg.commission, last, Run(cfg, Trip(cfg, a, b, entry)).fills);
  }

  /** Its one closed trade carries the P&L of the last piece; the portfolio that of both. */
  lemma TripTrades(cfg: Config, a: Shares, b: Shares, entry: int)
    requires Slip(cfg) != 1.0 && entry >= 1
    ensures var s := Run(cfg, Trip(cfg, a, b, entry));
      |s.portfolios| == 1 && |s.closed| == 1 && s.closed[0].realized == Net(cfg, Long, a, entry, 1) &&
      s.portfolios[0].realized == Net(cfg, Long, b, entry, 1) + Net(cfg, Long, a, entry, 1)
  {
    TripEnds(cfg, a, b, entry);
    TripBookings(cfg, a, b, entry);
  }

  lemma OneGap(m: CommissionModel, b: Bracket, fs: seq<Fill>)
    requires b.status == Closed
    ensures var l := LedgerOf(m, KeyOf(b), fs); PieceGap(m, [b], fs) == l.booked - l.paid
  {
    assert [b][1..] == [];
  }

  lemma ExactThenAdditive(cfg: Config)
    requires AlwaysExact(cfg) && Slip(cfg) != 1.0
    ensures Additive(cfg.commission)
  {
    forall a: Shares, b: Shares, price: int | price >= 1
      ensures Commission(cfg.commission, a + b, price) == Commission(cfg.commission, a, price) + Commission(cfg.commission, b, price)
    {
      TripGap(cfg, a, b, price);
      FlatExactly(cfg, Trip(cfg, a, b, price), 0);
    }
  }

  // ---- When nothing can be sold --------------------------------------------------------------------

  /** At a slippage of exactly 100% every sale is worth nothing. */
  ghost predicate SellsForNothing(fs: seq<Fill>)
  {
    forall n :: 0 <= n < |fs| && fs[n].side == Short ==> fs[n].price == 0
  }

  lemma NothingForASale(cfg: Config, b: Bracket, order: Option<nat>, qty: Shares, quote: BidAsk, ts: int)
    requires Slip(cfg) == 1.0
    ensures Enter(cfg, b, quote, ts).fill.side == Short ==> Enter(cfg, b, quote, ts).fill.price == 0
    ensures b.status == Open && ExitAll(cfg, b, order, quote, ts).fill.side == Short ==>
      ExitAll(cfg, b, order, quote, ts).fill.price == 0
    ensures b.status == Open && qty < b.qty && ExitPart(cfg, b, qty, quote, ts).fill.side == Short ==>
      ExitPart(cfg, b, qty, quote, ts).fill.price == 0
  {
    assert MarketFillPrice(Sell, quote, cfg.slippageBps) == quote.bid * (1.0 - Slip(cfg)) == 0.0;
  }

  lemma {:induction false} SweepSellsForNothing(s: State, pass: Pass, i: nat, j: nat)
    requires Slip(s.cfg) == 1.0 && SellsForNothing(s.fills)
    ensures SellsForNothing(Sweep(s, pass, i, j).fills)
    decreases |s.portfolios| - i, if i < |s.portfolios| then |s.portfolios[i].brackets| - j else 0
  {
    if i >= |s.portfolios| {
    } else if j >= |s.portfolios[i].brackets| {
      SweepSellsForNothing(s, pass, i + 1, 0);
    } else {
      var visit := Visit(s.cfg, pass, BracketAt(s, i, j));
      if visit.Some? && visit.value.fill.side == Short {
        VisitSellsForNothing(s.cfg, pass, BracketAt(s, i, j));
      }
      SweepSellsForNothing(VisitAt(s, pass, i, j), pass, i, j + 1);
    }
  }

  lemma VisitSellsForNothing(cfg: Config, pass: Pass, b: Bracket)
    requires Slip(cfg) == 1.0 && Visit(cfg, pass, b).Some? && Visit(cfg, pass, b).value.fill.side == Short
    ensures Visit(cfg, pass, b).value.fill.price == 0
  {
    match pass
    case Entries(ticker, quote, ts, bar) => NothingForASale(cfg, b, None, 1, quote, ts);
    case Exits(bar) =>
      var t := DetectExit(b, bar).value;
      var order := if t.leg == StopLeg then Some(b.orders.stop) else b.orders.target;
      NothingForASale(cfg, b, order, 1, Synthesize(t.reference, cfg.spreadBps), bar.ts);
  }

  lemma ApplySellsForNothing(s: State, i: nat, j: nat, e: Effect)
    requires At(s, i, j) && SellsForNothing(s.fills)
    requires e.booking.Some? && e.booking.value.fill.side == Short ==> e.booking.value.fill.price == 0
    ensures SellsForNothing(Apply(s, i, j, e).fills)
  {
  }

  lemma PlaceSellsForNothing(s: State, r: Request)
    requires Slip(s.cfg) == 1.0 && SellsForNothing(s.fills)
    ensures SellsForNothing(Place(s, r).0.fills)
  {
    if r.rung != LIVE {
      var t := Recorded(s, r);
      var i := PortfolioIndex(t.portfolios, r.strategy);
      var j := |t.portfolios[i].brackets| - 1;
      var b := BracketAt(t, i, j);
      if b.ticker in t.marks {
        NothingForASale(t.cfg, b, None, 1, t.marks[b.ticker].quote, t.marks[b.ticker].ts);
      }
      ApplySellsForNothing(t, i, j, PlaceEffect(t.cfg, t.marks, b));
    }
  }

  lemma ModifySellsForNothing(s: State, m: Modification)
    requires Slip(s.cfg) == 1.0 && SellsForNothing(s.fills)
    ensures SellsForNothing(Modify(s, m).0.fills)
  {
    if Lookup(s, m.id).Some? {
      var (i, j) := Lookup(s, m.id).value;
      var b := BracketAt(s, i, j);
      var e := ModifyEffect(s.cfg, s.marks, b, m);
      if e.booking.Some? {
        NothingForASale(s.cfg, e.bracket, None, b.qty - m.newQty.value, s.marks[b.ticker].quote, s.marks[b.ticker].ts);
      }
      ApplySellsForNothing(s, i, j, e);
    }
  }

  lemma CancelSellsForNothing(s: State, id: nat)
    requires Slip(s.cfg) == 1.0 && SellsForNothing(s.fills)
    ensures SellsForNothing(Cancel(s, id).0.fills)
  {
    if Lookup(s, id).Some? {
      var (i, j) := Lookup(s, id).value;
      var b := BracketAt(s, i, j);
      var e := CancelEffect(s.cfg, s.marks, b);
      if e.booking.Some? {
        NothingForASale(s.cfg, b, Some(b.orders.parent), 1, s.marks[b.ticker].quote, s.marks[b.ticker].ts);
      }
      ApplySellsForNothing(s, i, j, e);
    }
  }

  lemma StepSellsForNothing(s: State, c: Command)
    requires Slip(s.cfg) == 1.0 && SellsForNothing(s.fills)
    ensures SellsForNothing(Step(s, c).fills)
  {
    match c
    case Bar(bar) =>
      var quote := Synthesize(bar.close, s.cfg.spreadBps);
      var marked := s.(marks := s.marks[bar.ticker := Mark(quote, bar.ts)]);
      var entries := Entries(bar.ticker, quote, bar.ts, Some(bar));
      SweepSellsForNothing(marked, entries, 0, 0);
      SweepFrame(marked, entries, 0, 0);
      SweepSellsForNothing(Sweep(marked, entries, 0, 0), Exits(bar), 0, 0);
    case Tick(q) =>
      if Book(q).Some? {
        var book := Book(q).value;
        SweepSellsForNothing(s.(marks := s.marks[q.ticker := Mark(book, q.ts)]), Entries(q.ticker, book, q.ts, None), 0, 0);
      }
    case PlaceBracket(r) => PlaceSellsForNothing(s, r);
    case ModifyBracket(m) => ModifySellsForNothing(s, m);
    case CancelBracket(id) => CancelSellsForNothing(s, id);
    case _ =>
  }

  lemma {:induction false} RunSellsForNothing(cfg: Config, cs: seq<Command>)
    requires Slip(cfg) == 1.0
    ensures SellsForNothing(Run(cfg, cs).fills) && Run(cfg, cs).cfg == cfg
  {
    if |cs| > 0 {
      RunSellsForNothing(cfg, cs[..|cs| - 1]);
      StepGrows(Run(cfg, cs[..|cs| - 1]), cs[|cs| - 1]);
      StepSellsForNothing(Run(cfg, cs[..|cs| - 1]), cs[|cs| - 1]);
    }
  }

  /** Without a short-side fill nothing entered has left, or nothing entered. */
  lemma {:induction false} NoRoundTrip(m: CommissionModel, k: Key, fs: seq<Fill>)
    requires forall n :: 0 <= n < |fs| ==> fs[n].side == Long
    ensures var l := LedgerOf(m, k, fs); l.entries == 0 || l.exits == 0
    ensures k.side == Long ==> LedgerOf(m, k, fs).exits == 0
    ensures k.side == Short ==> LedgerOf(m, k, fs).entries == 0
  {
    if |fs| > 0 {
      NoRoundTrip(m, k, fs[..|fs| - 1]);
    }
  }

  lemma {:induction false} NothingClosed(m: CommissionModel, bs: seq<Bracket>, fs: seq<Fill>)
    requires forall n :: 0 <= n < |fs| ==> fs[n].side == Long
    requires forall j :: 0 <= j < |bs| ==> Conserved(m, bs[j], fs)
    ensures PieceGap(m, bs, fs) == 0
  {
    if |bs| > 0 {
      NothingClosed(m, bs[1..], fs);
      NoRoundTrip(m, KeyOf(bs[0]), fs);
    }
  }

  lemma NothingSoldAlwaysExact(cfg: Config)
    requires Slip(cfg) == 1.0
    ensures AlwaysExact(cfg)
  {
    forall cs: seq<Command>, i: nat |
        Accepted(Run(cfg, cs)) && i < |Run(cfg, cs).portfolios| && Flat(Run(cfg, cs).portfolios[i])
      ensures Run(cfg, cs).portfolios[i].cash - Run(cfg, cs).portfolios[i].startingCash == Run(cfg, cs).portfolios[i].realized
    {
      var s := Run(cfg, cs);
      FlatExactly(cfg, cs, i);
      FlatBrackets(cfg, cs, i);
      RunSellsForNothing(cfg, cs);
      forall n | 0 <= n < |s.fills| ensures s.fills[n].side == Long {
        assert ValidFill(s.fills[n]);
      }
      NothingClosed(cfg.commission, s.portfolios[i].brackets, s.fills);
    }
  }

  /**
   In every flat run cash and realized P&L agree exactly when splitting an order never
   changes its commission - or when slippage makes every sale worthless, so that no
   round trip is accepted at all.
   */
  lemma ExactIffAdditive(cfg: Config)
    ensures AlwaysExact(cfg) <==> Additive(cfg.commission) || Slip(cfg) == 1.0
  {
    if Slip(cfg) == 1.0 {
      NothingSoldAlwaysExact(cfg);
    } else if AlwaysExact(cfg) {
      ExactThenAdditive(cfg);
    } else if Additive(cfg.commission) {
      AdditiveAlwaysExact(cfg);
    }
  }

  // ---- A dollar an order -------------------------------------------------------------------------------

  const DOLLAR_AN_ORDER := Config(1000000, 0.0, 0.0, CommissionModel(0.0, 100.0, 1.0))

  /**
   Buy 100 shares at 100.00, sell 50 and then 50: the book ends flat, cash has a dollar
   more than realized P&L says, and the only closed trade knows of half the loss.
   */
  lemma ScaleOutBreaksExactness()
    ensures var s := Run(DOLLAR_AN_ORDER, Trip(DOLLAR_AN_ORDER, 50, 50, 10000));
      Accepted(s) && |s.portfolios| == 1 && Flat(s.portfolios[0]) &&
      s.portfolios[0].cash - s.portfolios[0].startingCash == s.portfolios[0].realized + 100 &&
      |s.closed| == 1 && s.closed[0].realized + s.closed[0].realized == s.portfolios[0].realized == -1000200
  {
    var cfg := DOLLAR_AN_ORDER;
    TripGap(cfg, 50, 50, 10000);
    TripTrades(cfg, 50, 50, 10000);
    FlatExactly(cfg, Trip(cfg, 50, 50, 10000), 0);
    FlatFee(cfg.commission, 50, 10000);
    FlatFee(cfg.commission, 100, 10000);
    assert Commission(cfg.commission, 50, 1) == 50;
  }

  // ---- The usual schedule is not additive --------------------------------------------------------------

  /** A minimum per order below the cap, over a rate that does not reach it, makes two orders dearer than one. */
  lemma MinimumNotAdditive(m: CommissionModel, a: Shares, price: int)
    requires price >= 1 && Round(m.minPerOrder) >= 1
    requires m.perShare * (a + a) as real <= m.minPerOrder <= m.maxFraction * (a * price) as real
    ensures !Additive(m)
  {
    FlatFee(m, a, price);
    FlatFee(m, a + a, price);
    assert Commission(m, a + a, price) != Commission(m, a, price) + Commission(m, a, price);
  }

  lemma FlatFee(m: CommissionModel, q: Shares, price: int)
    requires m.perShare * q as real <= m.minPerOrder <= m.maxFraction * (q * price) as real
    ensures Commission(m, q, price) == Round(m.minPerOrder)
  {
  }
}
