/** How brackets move through a run: one way only, always on a ticker with a market, never left past a level. */
module SimLifecycle {
  import opened Market
  import opened Money
  import opened SimModel
  import opened SimLedger
  import opened SimRuns

  // ---- What a market event does to one bracket -----------------------------------

  function After(cfg: Config, pass: Pass, b: Bracket): Bracket
  {
    match Visit(cfg, pass, b)
    case None => b
    case Some(bk) => bk.bracket
  }

  lemma VisitPointwise(s: State, pass: Pass, i: nat, j: nat, k: nat, l: nat)
    requires At(s, i, j) && At(s, k, l)
    ensures At(VisitAt(s, pass, i, j), k, l) && VisitAt(s, pass, i, j).cfg == s.cfg
    ensures BracketAt(VisitAt(s, pass, i, j), k, l)
         == if k == i && l == j then After(s.cfg, pass, BracketAt(s, k, l)) else BracketAt(s, k, l)
  {
  }

  /** A sweep treats every bracket on its own: no bracket sees another. */
  lemma {:induction false} SweepPointwise(s: State, pass: Pass, i: nat, j: nat, k: nat, l: nat)
    requires At(s, k, l)
    ensures At(Sweep(s, pass, i, j), k, l)
    ensures BracketAt(Sweep(s, pass, i, j), k, l)
         == if k < i || (k == i && l < j) then BracketAt(s, k, l) else After(s.cfg, pass, BracketAt(s, k, l))
    decreases |s.portfolios| - i, if i < |s.portfolios| then |s.portfolios[i].brackets| - j else 0
  {
    if i >= |s.portfolios| {
    } else if j >= |s.portfolios[i].brackets| {
      SweepPointwise(s, pass, i + 1, 0, k, l);
    } else {
      VisitPointwise(s, pass, i, j, k, l);
      SweepPointwise(VisitAt(s, pass, i, j), pass, i, j + 1, k, l);
    }
  }

  function BarQuote(s: State, bar: Candle): BidAsk
  {
    Synthesize(bar.close, s.cfg.spreadBps)
  }

  function EntriesOf(s: State, bar: Candle): Pass
  {
    Entries(bar.ticker, BarQuote(s, bar), bar.ts, Some(bar))
  }

  lemma BarBracket(s: State, bar: Candle, k: nat, l: nat)
    requires At(s, k, l)
    ensures At(OnBar(s, bar), k, l)
    ensures BracketAt(OnBar(s, bar), k, l)
         == After(s.cfg, Exits(bar), After(s.cfg, EntriesOf(s, bar), BracketAt(s, k, l)))
  {
    var marked := s.(marks := s.marks[bar.ticker := Mark(BarQuote(s, bar), bar.ts)]);
    var filled := Sweep(marked, EntriesOf(s, bar), 0, 0);
    SweepFrame(marked, EntriesOf(s, bar), 0, 0);
    SweepPointwise(marked, EntriesOf(s, bar), 0, 0, k, l);
    SweepPointwise(filled, Exits(bar), 0, 0, k, l);
  }

  lemma BarFrame(s: State, bar: Candle)
    ensures SameBooks(s.(marks := s.marks[bar.ticker := Mark(BarQuote(s, bar), bar.ts)]), OnBar(s, bar))
  {
    var marked := s.(marks := s.marks[bar.ticker := Mark(BarQuote(s, bar), bar.ts)]);
    SweepFrame(marked, EntriesOf(s, bar), 0, 0);
    SweepFrame(Sweep(marked, EntriesOf(s, bar), 0, 0), Exits(bar), 0, 0);
  }

  lemma QuoteBracket(s: State, q: Quote, k: nat, l: nat)
    requires At(s, k, l) && Book(q).Some?
    ensures At(UpdateQuote(s, q), k, l)
    ensures BracketAt(UpdateQuote(s, q), k, l)
         == After(s.cfg, Entries(q.ticker, Book(q).value, q.ts, None), BracketAt(s, k, l))
  {
    var marked := s.(marks := s.marks[q.ticker := Mark(Book(q).value, q.ts)]);
    SweepPointwise(marked, Entries(q.ticker, Book(q).value, q.ts, None), 0, 0, k, l);
  }

  lemma QuoteFrame(s: State, q: Quote)
    requires Book(q).Some?
    ensures SameBooks(s.(marks := s.marks[q.ticker := Mark(Book(q).value, q.ts)]), UpdateQuote(s, q))
  {
    SweepFrame(s.(marks := s.marks[q.ticker := Mark(Book(q).value, q.ts)]), Entries(q.ticker, Book(q).value, q.ts, None), 0, 0);
  }

  // ---- After a bar, every open bracket lies strictly inside its levels --------------

  ghost predicate StrictlyInside(b: Bracket, bar: Candle)
  {
    if b.side == Long then b.stop < bar.low && (b.target.Some? ==> bar.high < b.target.value)
    else bar.high < b.stop && (b.target.Some? ==> b.target.value < bar.low)
  }

  lemma BarLeavesInside(s: State, bar: Candle, k: nat, l: nat)
    requires Accepted(OnBar(s, bar)) && At(OnBar(s, bar), k, l)
    requires var b := BracketAt(OnBar(s, bar), k, l); b.status == Open && b.ticker == bar.ticker
    ensures StrictlyInside(BracketAt(OnBar(s, bar), k, l), bar)
  {
    BarFrame(s, bar);
    assert At(s, k, l);
    BarBracket(s, bar, k, l);
  }

  /** The pessimistic tie-break: a bar through the stop never fills the target. */
  lemma SpanningBarStops(cfg: Config, b: Bracket, bar: Candle)
    requires b.status == Open && b.ticker == bar.ticker
    requires if b.side == Long then bar.low <= b.stop else b.stop <= bar.high
    ensures Visit(cfg, Exits(bar), b).Some?
    ensures Visit(cfg, Exits(bar), b).value.fill.order == Some(b.orders.stop)
    ensures After(cfg, Exits(bar), b).status == Closed
  {
  }

  // ---- One way only --------------------------------------------------------------------

  ghost predicate Onward(a: Status, c: Status)
  {
    a == c || a == Pending || (a == Open && c == Closed)
  }

  /** `c` is `b` at some later time. */
  ghost predicate Advances(b: Bracket, c: Bracket)
  {
    SameIdentity(b, c) && Onward(b.status, c.status) && c.qty <= b.qty &&
    (b.status in {Closed, Cancelled} ==> c == b) &&
    (b.status == Open ==> c.entryPrice == b.entryPrice && c.openedAt == b.openedAt)
  }

  lemma VisitAdvances(cfg: Config, pass: Pass, b: Bracket)
    ensures Advances(b, After(cfg, pass, b))
  {
  }

  lemma MarketOrigin(s: State, c: Command, k: nat, l: nat)
    requires c.Bar? || c.Tick?
    requires At(Step(s, c), k, l)
    ensures At(s, k, l) && Advances(BracketAt(s, k, l), BracketAt(Step(s, c), k, l))
  {
    match c
    case Bar(bar) =>
      BarFrame(s, bar);
      BarBracket(s, bar, k, l);
      VisitAdvances(s.cfg, EntriesOf(s, bar), BracketAt(s, k, l));
      VisitAdvances(s.cfg, Exits(bar), After(s.cfg, EntriesOf(s, bar), BracketAt(s, k, l)));
    case Tick(q) =>
      if Book(q).Some? {
        QuoteFrame(s, q);
        QuoteBracket(s, q, k, l);
        VisitAdvances(s.cfg, Entries(q.ticker, Book(q).value, q.ts, None), BracketAt(s, k, l));
      }
  }

  /** Moves onward without being opened. */
  ghost predicate Quietly(b: Bracket, c: Bracket)
  {
    Advances(b, c) && (c.status == Open ==> b.status == Open)
  }

  /** An effect moves only the bracket it is for. */
  lemma ApplyOrigin(s: State, i: nat, j: nat, e: Effect, k: nat, l: nat)
    requires At(s, i, j) && At(Apply(s, i, j, e), k, l)
    ensures At(s, k, l)
    ensures BracketAt(Apply(s, i, j, e), k, l)
         == if k == i && l == j then (if e.booking.Some? then e.booking.value.bracket else e.bracket)
            else BracketAt(s, k, l)
  {
  }

  lemma ModifyOrigin(s: State, m: Modification, k: nat, l: nat)
    requires At(Modify(s, m).0, k, l)
    ensures At(s, k, l) && Quietly(BracketAt(s, k, l), BracketAt(Modify(s, m).0, k, l))
  {
    var at := Lookup(s, m.id);
    if at.Some? {
      var (i, j) := at.value;
      ApplyOrigin(s, i, j, ModifyEffect(s.cfg, s.marks, BracketAt(s, i, j), m), k, l);
    }
  }

  lemma CancelOrigin(s: State, id: nat, k: nat, l: nat)
    requires At(Cancel(s, id).0, k, l)
    ensures At(s, k, l) && Quietly(BracketAt(s, k, l), BracketAt(Cancel(s, id).0, k, l))
  {
    var at := Lookup(s, id);
    if at.Some? {
      var (i, j) := at.value;
      ApplyOrigin(s, i, j, CancelEffect(s.cfg, s.marks, BracketAt(s, i, j)), k, l);
    }
  }

  /** Where each bracket of the next state comes from. */
  lemma StepOrigin(s: State, c: Command, k: nat, l: nat)
    requires At(Step(s, c), k, l)
    ensures if At(s, k, l) then Advances(BracketAt(s, k, l), BracketAt(Step(s, c), k, l))
            else c.PlaceBracket? && BracketAt(Step(s, c), k, l).id > s.lastId
  {
    match c
    case Bar(bar) => MarketOrigin(s, c, k, l);
    case Tick(q) => MarketOrigin(s, c, k, l);
    case PlaceBracket(r) =>
      if r.rung != LIVE {
        RecordedOrigin(s, r, k, l);
      }
    case ModifyBracket(m) => ModifyOrigin(s, m, k, l);
    case CancelBracket(id) => CancelOrigin(s, id, k, l);
    case ResetPortfolio(x) =>
    case DrainClosed(x) =>
    case ReadPortfolio(x) =>
  }

  lemma RecordedOrigin(s: State, r: Request, k: nat, l: nat)
    requires r.rung != LIVE && At(Place(s, r).0, k, l)
    ensures if At(s, k, l) then BracketAt(Place(s, r).0, k, l) == BracketAt(s, k, l)
            else BracketAt(Place(s, r).0, k, l).id == s.lastId + 1
  {
    var t := Recorded(s, r);
    var i := PortfolioIndex(t.portfolios, r.strategy);
    assert At(t, k, l);
    RecordedPlaces(s, r, k, l);
    assert forall n :: 0 <= n < |s.portfolios| ==> Ensured(s, r.strategy).portfolios[n] == s.portfolios[n];
  }

  lemma LastIdGrows(s: State, c: Command)
    ensures s.lastId <= Step(s, c).lastId
  {
    match c
    case Bar(bar) => BarFrame(s, bar);
    case Tick(q) => if Book(q).Some? { QuoteFrame(s, q); }
    case _ =>
  }

  // ---- A market for everything that is open -----------------------------------------------

  ghost predicate CoveredBracket(s: State, b: Bracket)
  {
    (b.status == Pending && b.entry == MarketEntry ==> b.ticker !in s.marks) &&
    (b.status == Open ==> b.ticker in s.marks)
  }

  ghost predicate Covered(s: State)
  {
    forall i, j :: At(s, i, j) ==> CoveredBracket(s, BracketAt(s, i, j))
  }

  lemma PlaceCoversNew(s: State, r: Request, k: nat, l: nat)
    requires r.rung != LIVE && At(Place(s, r).0, k, l) && !At(s, k, l)
    ensures CoveredBracket(Place(s, r).0, BracketAt(Place(s, r).0, k, l))
  {
    assert At(Recorded(s, r), k, l);
    RecordedPlaces(s, r, k, l);
    RecordedOrigin(s, r, k, l);
  }

  lemma PlaceCovered(s: State, r: Request)
    requires Covered(s)
    ensures Covered(Place(s, r).0)
  {
    if r.rung != LIVE {
      var u := Place(s, r).0;
      forall k, l | At(u, k, l)
        ensures CoveredBracket(u, BracketAt(u, k, l))
      {
        if At(s, k, l) {
          RecordedOrigin(s, r, k, l);
          assert CoveredBracket(s, BracketAt(s, k, l));
        } else {
          PlaceCoversNew(s, r, k, l);
        }
      }
    }
  }

  lemma MarketCovered(s: State, c: Command)
    requires Covered(s) && (c.Bar? || c.Tick?)
    ensures Covered(Step(s, c))
  {
    var t := Step(s, c);
    forall k, l | At(t, k, l)
      ensures CoveredBracket(t, BracketAt(t, k, l))
    {
      MarketOrigin(s, c, k, l);
      assert CoveredBracket(s, BracketAt(s, k, l));
      match c
      case Bar(bar) =>
        BarFrame(s, bar);
        BarBracket(s, bar, k, l);
      case Tick(q) =>
        if Book(q).Some? {
          QuoteFrame(s, q);
          QuoteBracket(s, q, k, l);
        }
    }
  }

  /** A step that leaves the marks alone and opens nothing. */
  lemma QuietCovered(s: State, t: State)
    requires Covered(s) && t.marks == s.marks
    requires forall k, l :: At(t, k, l) ==> At(s, k, l) && Quietly(BracketAt(s, k, l), BracketAt(t, k, l))
    ensures Covered(t)
  {
    forall k, l | At(t, k, l)
      ensures CoveredBracket(t, BracketAt(t, k, l))
    {
      assert CoveredBracket(s, BracketAt(s, k, l));
    }
  }

  lemma ModifyCovered(s: State, m: Modification)
    requires Covered(s)
    ensures Covered(Modify(s, m).0)
  {
    forall k, l | At(Modify(s, m).0, k, l)
      ensures At(s, k, l) && Quietly(BracketAt(s, k, l), BracketAt(Modify(s, m).0, k, l))
    {
      ModifyOrigin(s, m, k, l);
    }
    QuietCovered(s, Modify(s, m).0);
  }

  lemma CancelCovered(s: State, id: nat)
    requires Covered(s)
    ensures Covered(Cancel(s, id).0)
  {
    forall k, l | At(Cancel(s, id).0, k, l)
      ensures At(s, k, l) && Quietly(BracketAt(s, k, l), BracketAt(Cancel(s, id).0, k, l))
    {
      CancelOrigin(s, id, k, l);
    }
    QuietCovered(s, Cancel(s, id).0);
  }

  lemma StepCovered(s: State, c: Command)
    requires Covered(s)
    ensures Covered(Step(s, c))
  {
    match c
    case Bar(bar) => MarketCovered(s, c);
    case Tick(q) => MarketCovered(s, c);
    case PlaceBracket(r) => PlaceCovered(s, r);
    case ModifyBracket(m) => ModifyCovered(s, m);
    case CancelBracket(id) => CancelCovered(s, id);
    case _ =>
      RestPlaces(s, c);
      QuietCovered(s, Step(s, c));
  }

  /** After a run without a refused fill no market entry waits on a ticker with a mark, and open positions have one. */
  lemma {:induction false} RunCovered(cfg: Config, cs: seq<Command>)
    requires Accepted(Run(cfg, cs))
    ensures Covered(Run(cfg, cs))
  {
    if |cs| > 0 {
      StepGrows(Run(cfg, cs[..|cs| - 1]), cs[|cs| - 1]);
      AcceptedPrefix(Run(cfg, cs[..|cs| - 1]), Run(cfg, cs));
      RunCovered(cfg, cs[..|cs| - 1]);
      StepCovered(Run(cfg, cs[..|cs| - 1]), cs[|cs| - 1]);
    }
  }
}
