/**
 Portfolios are isolated: what one strategy sees of the SIM exchange is a
 function of the market events and of its own calls.
 */
module SimIsolation {
  import opened Market
  import opened Money
  import opened SimModel
  import opened SimLedger
  import opened SimRuns
  import opened SimLifecycle
  import opened SimActual

  // ---- Calls addressed by strategy and position ---------------------------------------

  /**
   A strategy names its brackets by their position in its portfolio, so that a call
   means the same in two runs that draw different ids.
   */
  datatype Act =
    | Submit(req: Request)
    | Amend(k: nat, newStop: Option<Price>, newTarget: Option<Price>, newQty: Option<Shares>)
    | Withdraw(k: nat)
    | StartOver
    | TakeClosed
    | Look

  datatype Op = OnMarketBar(bar: Candle) | OnMarketQuote(quote: Quote) | Own(strategy: StrategyId, act: Act) | TakeAllClosed

  /** The id at a position of a strategy's portfolio; 0 is no bracket's id. */
  function IdAt(s: State, x: StrategyId, k: nat): nat
  {
    var i := PortfolioIndex(s.portfolios, x);
    if i < |s.portfolios| && k < |s.portfolios[i].brackets| then s.portfolios[i].brackets[k].id else 0
  }

  function CommandOf(s: State, op: Op): Command
  {
    match op
    case OnMarketBar(bar) => Bar(bar)
    case OnMarketQuote(q) => Tick(q)
    case TakeAllClosed => DrainClosed(None)
    case Own(x, act) =>
      match act
      case Submit(r) => PlaceBracket(r.(strategy := x))
      case Amend(k, stop, target, qty) => ModifyBracket(Modification(IdAt(s, x, k), stop, target, qty))
      case Withdraw(k) => CancelBracket(IdAt(s, x, k))
      case StartOver => ResetPortfolio(x)
      case TakeClosed => DrainClosed(Some(x))
      case Look => ReadPortfolio(x)
  }

  function Play(cfg: Config, ops: seq<Op>): State
  {
    if |ops| == 0 then Init(cfg) else
    var s := Play(cfg, ops[..|ops| - 1]);
    Step(s, CommandOf(s, ops[|ops| - 1]))
  }

  /** The script with every other strategy's calls taken out. */
  function Only(x: StrategyId, ops: seq<Op>): seq<Op>
  {
    if |ops| == 0 then [] else
    var rest, op := Only(x, ops[..|ops| - 1]), ops[|ops| - 1];
    if op.Own? && op.strategy != x then rest else rest + [op]
  }

  // ---- Ids and owners ---------------------------------------------------------------------

  ghost predicate AtHome(s: State, x: StrategyId, b: Bracket)
  {
    b.strategy == x && 1 <= b.id <= s.lastId && b.id in s.owner && s.owner[b.id] == x
  }

  ghost predicate Homes(s: State)
  {
    && (forall i, k :: 0 <= i < k < |s.portfolios| ==> s.portfolios[i].strategy != s.portfolios[k].strategy)
    && (forall i, j :: At(s, i, j) ==> AtHome(s, s.portfolios[i].strategy, BracketAt(s, i, j)))
    && (forall i, j, l :: At(s, i, j) && At(s, i, l) && j < l ==> BracketAt(s, i, j).id < BracketAt(s, i, l).id)
    && (forall id :: id in s.owner ==> 1 <= id <= s.lastId)
  }

  /** A step that adds no bracket and changes no identity. */
  lemma QuietHomes(s: State, t: State)
    requires Homes(s) && t.owner == s.owner && t.lastId == s.lastId
    requires |t.portfolios| >= |s.portfolios|
    requires forall i, k :: 0 <= i < k < |t.portfolios| ==> t.portfolios[i].strategy != t.portfolios[k].strategy
    requires forall i :: 0 <= i < |s.portfolios| ==> t.portfolios[i].strategy == s.portfolios[i].strategy
    requires forall k, l :: At(t, k, l) ==> At(s, k, l) && SameIdentity(BracketAt(s, k, l), BracketAt(t, k, l))
    ensures Homes(t)
  {
  }

  lemma RecordedHomes(s: State, r: Request)
    requires Homes(s)
    ensures Homes(Recorded(s, r))
  {
    var u, t, b := Ensured(s, r.strategy), Recorded(s, r), NewBracket(s.lastId, r);
    var i := PortfolioIndex(u.portfolios, r.strategy);
    assert Homes(u) by { EnsuredHomes(s, r.strategy); }
    forall k, l | At(t, k, l)
      ensures AtHome(t, t.portfolios[k].strategy, BracketAt(t, k, l))
      ensures k != i || l != |u.portfolios[i].brackets| ==> BracketAt(t, k, l).id < b.id
    {
      RecordedPlaces(s, r, k, l);
    }
    forall k, l, m | At(t, k, l) && At(t, k, m) && l < m
      ensures BracketAt(t, k, l).id < BracketAt(t, k, m).id
    {
      RecordedPlaces(s, r, k, l);
      RecordedPlaces(s, r, k, m);
    }
  }

  lemma EnsuredHomes(s: State, x: StrategyId)
    requires Homes(s)
    ensures Homes(Ensured(s, x))
  {
    var t := Ensured(s, x);
    forall k, l | At(t, k, l)
      ensures At(s, k, l) && BracketAt(t, k, l) == BracketAt(s, k, l)
    {
      assert At(s, k, l);
    }
    QuietHomes(s, t);
  }

  lemma ApplyHomes(s: State, i: nat, j: nat, e: Effect)
    requires Homes(s) && At(s, i, j) && SameIdentity(BracketAt(s, i, j), e.bracket)
    requires e.booking.Some? ==> SameIdentity(e.bracket, e.booking.value.bracket)
    ensures Homes(Apply(s, i, j, e))
  {
    var t := Apply(s, i, j, e);
    forall k, l | At(t, k, l)
      ensures At(s, k, l) && SameIdentity(BracketAt(s, k, l), BracketAt(t, k, l))
    {
      ApplyOrigin(s, i, j, e, k, l);
    }
    QuietHomes(s, t);
  }

  lemma MarketHomes(s: State, c: Command)
    requires Homes(s) && (c.Bar? || c.Tick?)
    ensures Homes(Step(s, c))
  {
    var t := Step(s, c);
    forall k, l | At(t, k, l)
      ensures At(s, k, l) && SameIdentity(BracketAt(s, k, l), BracketAt(t, k, l))
    {
      MarketOrigin(s, c, k, l);
    }
    if c.Bar? {
      BarFrame(s, c.bar);
    } else if Book(c.quote).Some? {
      QuoteFrame(s, c.quote);
    }
    QuietHomes(s, t);
  }

  lemma PlaceHomes(s: State, r: Request)
    requires Homes(s)
    ensures Homes(Place(s, r).0)
  {
    if r.rung != LIVE {
      RecordedHomes(s, r);
      var t := Recorded(s, r);
      var i := PortfolioIndex(t.portfolios, r.strategy);
      var j := |t.portfolios[i].brackets| - 1;
      ApplyHomes(t, i, j, PlaceEffect(t.cfg, t.marks, BracketAt(t, i, j)));
    }
  }

  lemma ModifyEffectOwn(cfg: Config, marks: map<Ticker, Mark>, b: Bracket, m: Modification)
    ensures var e := ModifyEffect(cfg, marks, b, m);
      SameIdentity(b, e.bracket) && (e.booking.Some? ==> SameIdentity(e.bracket, e.booking.value.bracket)) &&
      (e.booking.Some? && e.booking.value.trade.Some? ==> e.booking.value.trade.value.strategy == b.strategy)
  {
  }

  lemma ModifyHomes(s: State, m: Modification)
    requires Homes(s)
    ensures Homes(Modify(s, m).0)
  {
    if Lookup(s, m.id).Some? {
      var (i, j) := Lookup(s, m.id).value;
      ModifyEffectOwn(s.cfg, s.marks, BracketAt(s, i, j), m);
      ApplyHomes(s, i, j, ModifyEffect(s.cfg, s.marks, BracketAt(s, i, j), m));
    }
  }

  lemma CancelHomes(s: State, id: nat)
    requires Homes(s)
    ensures Homes(Cancel(s, id).0)
  {
    if Lookup(s, id).Some? {
      var (i, j) := Lookup(s, id).value;
      ApplyHomes(s, i, j, CancelEffect(s.cfg, s.marks, BracketAt(s, i, j)));
    }
  }

  lemma CallHomes(s: State, m: Modification, id: nat)
    requires Homes(s)
    ensures Homes(Modify(s, m).0) && Homes(Cancel(s, id).0)
  {
    ModifyHomes(s, m);
    CancelHomes(s, id);
  }

  lemma ResetHomes(s: State, x: StrategyId)
    requires Homes(s)
    ensures Homes(Reset(s, x))
  {
    var u, t := Ensured(s, x), Reset(s, x);
    EnsuredHomes(s, x);
    forall k, l | At(t, k, l)
      ensures At(u, k, l) && BracketAt(t, k, l) == BracketAt(u, k, l)
    {
      assert At(u, k, l);
    }
    QuietHomes(u, t);
  }

  lemma DrainHomes(s: State, x: Option<StrategyId>)
    requires Homes(s)
    ensures Homes(Drain(s, x).0)
  {
    var t := Drain(s, x).0;
    forall k, l | At(t, k, l)
      ensures At(s, k, l) && BracketAt(t, k, l) == BracketAt(s, k, l)
    {
      assert At(s, k, l);
    }
    QuietHomes(s, t);
  }

  lemma StepHomes(s: State, c: Command)
    requires Homes(s)
    ensures Homes(Step(s, c))
  {
    match c
    case Bar(bar) => MarketHomes(s, c);
    case Tick(q) => MarketHomes(s, c);
    case PlaceBracket(r) => PlaceHomes(s, r);
    case ModifyBracket(m) => CallHomes(s, m, 0);
    case CancelBracket(id) => CallHomes(s, Modification(0, None, None, None), id);
    case ResetPortfolio(x) => ResetHomes(s, x);
    case DrainClosed(x) => DrainHomes(s, x);
    case ReadPortfolio(x) => EnsuredHomes(s, x);
  }

  lemma {:induction false} PlayHomes(cfg: Config, ops: seq<Op>)
    ensures Homes(Play(cfg, ops)) && Play(cfg, ops).cfg == cfg
  {
    if |ops| > 0 {
      var s := Play(cfg, ops[..|ops| - 1]);
      PlayHomes(cfg, ops[..|ops| - 1]);
      StepHomes(s, CommandOf(s, ops[|ops| - 1]));
      StepGrows(s, CommandOf(s, ops[|ops| - 1]));
    }
  }

  lemma HomeLookup(s: State, i: nat, j: nat)
    requires Homes(s) && At(s, i, j)
    ensures Lookup(s, BracketAt(s, i, j).id) == Some((i, j))
  {
    var b := BracketAt(s, i, j);
    assert AtHome(s, s.portfolios[i].strategy, b);
    assert PortfolioIndex(s.portfolios, b.strategy) == i;
    forall l: nat | l < j ensures s.portfolios[i].brackets[l].id != b.id {
      RisingIds(s, i, l, j);
    }
    assert BracketIndex(s.portfolios[i].brackets, b.id) == j;
  }

  lemma RisingIds(s: State, i: nat, l: nat, j: nat)
    requires Homes(s) && At(s, i, l) && At(s, i, j) && l < j
    ensures BracketAt(s, i, l).id < BracketAt(s, i, j).id
  {
  }

  // ---- What a strategy sees -------------------------------------------------------------------

  /** A strategy's portfolio and its closed trades waiting to be drained. */
  datatype View = View(book: Option<Portfolio>, closed: seq<ClosedTrade>)

  function ViewOf(s: State, x: StrategyId): View
  {
    var i := PortfolioIndex(s.portfolios, x);
    View(if i < |s.portfolios| then Some(s.portfolios[i]) else None, Of(x, s.closed))
  }

  predicate In(v: View, j: nat)
  {
    v.book.Some? && j < |v.book.value.brackets|
  }

  function PostIn(v: View, j: nat, bk: Booking): View
    requires In(v, j)
  {
    View(Some(Absorb(v.book.value, j, bk)), if bk.trade.Some? then v.closed + [bk.trade.value] else v.closed)
  }

  function VisitIn(cfg: Config, pass: Pass, v: View, j: nat): (r: View)
    requires In(v, j)
    ensures r.book.Some? && |r.book.value.brackets| == |v.book.value.brackets|
  {
    match Visit(cfg, pass, v.book.value.brackets[j])
    case None => v
    case Some(bk) => PostIn(v, j, bk)
  }

  function SweepIn(cfg: Config, pass: Pass, v: View, j: nat): View
    decreases if v.book.Some? then |v.book.value.brackets| - j else 0
  {
    if !In(v, j) then v else SweepIn(cfg, pass, VisitIn(cfg, pass, v, j), j + 1)
  }

  function ApplyIn(v: View, j: nat, e: Effect): View
    requires In(v, j)
  {
    var p := v.book.value;
    var v1 := v.(book := Some(p.(brackets := p.brackets[j := e.bracket])));
    if e.booking.Some? then PostIn(v1, j, e.booking.value) else v1
  }

  function EnsuredIn(cfg: Config, x: StrategyId, v: View): View
  {
    if v.book.Some? then v else v.(book := Some(Portfolio(x, cfg.startingCash, cfg.startingCash, 0, [])))
  }

  lemma PostView(s: State, i: nat, j: nat, bk: Booking, x: StrategyId)
    requires Homes(s) && At(s, i, j)
    requires bk.trade.Some? ==> bk.trade.value.strategy == s.portfolios[i].strategy
    ensures ViewOf(Post(s, i, j, bk), x)
         == if s.portfolios[i].strategy == x then PostIn(ViewOf(s, x), j, bk) else ViewOf(s, x)
    ensures s.portfolios[i].strategy == x ==> PortfolioIndex(s.portfolios, x) == i
  {
    if bk.trade.Some? {
      OfAppend(x, s.closed, bk.trade.value);
    }
    var t := Post(s, i, j, bk);
    assert forall k :: 0 <= k < |s.portfolios| ==> t.portfolios[k].strategy == s.portfolios[k].strategy;
    assert PortfolioIndex(t.portfolios, x) == PortfolioIndex(s.portfolios, x);
  }

  lemma SetView(s: State, i: nat, j: nat, b: Bracket, x: StrategyId)
    requires Homes(s) && At(s, i, j)
    ensures ViewOf(SetBracket(s, i, j, b), x)
         == if s.portfolios[i].strategy == x
            then ApplyIn(ViewOf(s, x), j, Effect(b, None, Done)) else ViewOf(s, x)
    ensures s.portfolios[i].strategy == x ==> PortfolioIndex(s.portfolios, x) == i
  {
    var t := SetBracket(s, i, j, b);
    assert forall k :: 0 <= k < |s.portfolios| ==> t.portfolios[k].strategy == s.portfolios[k].strategy;
    assert PortfolioIndex(t.portfolios, x) == PortfolioIndex(s.portfolios, x);
  }

  lemma ApplyView(s: State, i: nat, j: nat, e: Effect, x: StrategyId)
    requires Homes(s) && At(s, i, j) && SameIdentity(BracketAt(s, i, j), e.bracket)
    requires e.booking.Some? && e.booking.value.trade.Some?
      ==> e.booking.value.trade.value.strategy == s.portfolios[i].strategy
    ensures s.portfolios[i].strategy == x ==> In(ViewOf(s, x), j)
    ensures ViewOf(Apply(s, i, j, e), x)
         == if s.portfolios[i].strategy == x then ApplyIn(ViewOf(s, x), j, e) else ViewOf(s, x)
  {
    SetView(s, i, j, e.bracket, x);
    ApplyHomes(s, i, j, Effect(e.bracket, None, Done));
    if e.booking.Some? {
      PostView(SetBracket(s, i, j, e.bracket), i, j, e.booking.value, x);
    }
  }

  lemma VisitView(s: State, pass: Pass, i: nat, j: nat, x: StrategyId)
    requires Homes(s) && At(s, i, j)
    ensures Homes(VisitAt(s, pass, i, j))
    ensures PortfolioIndex(VisitAt(s, pass, i, j).portfolios, x) == PortfolioIndex(s.portfolios, x)
    ensures PortfolioIndex(s.portfolios, x) == i ==> In(ViewOf(s, x), j)
    ensures ViewOf(VisitAt(s, pass, i, j), x)
         == if PortfolioIndex(s.portfolios, x) == i then VisitIn(s.cfg, pass, ViewOf(s, x), j) else ViewOf(s, x)
  {
    var b := BracketAt(s, i, j);
    match Visit(s.cfg, pass, b)
    case None =>
    case Some(bk) =>
      assert AtHome(s, s.portfolios[i].strategy, b);
      PostView(s, i, j, bk, x);
      PostHomes(s, i, j, bk);
  }

  /** What a sweep from portfolio `i`, bracket `j` on leaves of the view of the strategy at `k`. */
  function SweptFrom(cfg: Config, pass: Pass, v: View, k: nat, i: nat, j: nat): View
  {
    if k < i then v else SweepIn(cfg, pass, v, if k == i then j else 0)
  }

  lemma SweptNext(cfg: Config, pass: Pass, v: View, k: nat, i: nat, j: nat)
    requires k == i ==> !In(v, j)
    ensures SweptFrom(cfg, pass, v, k, i, j) == SweptFrom(cfg, pass, v, k, i + 1, 0)
  {
  }

  lemma SweptVisit(cfg: Config, pass: Pass, v: View, k: nat, i: nat, j: nat)
    requires k == i ==> In(v, j)
    ensures SweptFrom(cfg, pass, v, k, i, j)
         == SweptFrom(cfg, pass, if k == i then VisitIn(cfg, pass, v, j) else v, k, i, j + 1)
  {
  }

  /** Sweeping every portfolio sweeps each one on its own. */
  lemma {:induction false} SweepView(s: State, pass: Pass, i: nat, j: nat, x: StrategyId)
    requires Homes(s)
    ensures ViewOf(Sweep(s, pass, i, j), x)
         == SweptFrom(s.cfg, pass, ViewOf(s, x), PortfolioIndex(s.portfolios, x), i, j)
    decreases |s.portfolios| - i, if i < |s.portfolios| then |s.portfolios[i].brackets| - j else 0, 1
  {
    if i >= |s.portfolios| {
    } else if j >= |s.portfolios[i].brackets| {
      SweptNext(s.cfg, pass, ViewOf(s, x), PortfolioIndex(s.portfolios, x), i, j);
      SweepView(s, pass, i + 1, 0, x);
    } else {
      SweepViewVisit(s, pass, i, j, x);
    }
  }

  lemma {:induction false} SweepViewVisit(s: State, pass: Pass, i: nat, j: nat, x: StrategyId)
    requires Homes(s) && At(s, i, j)
    ensures ViewOf(Sweep(s, pass, i, j), x)
         == SweptFrom(s.cfg, pass, ViewOf(s, x), PortfolioIndex(s.portfolios, x), i, j)
    decreases |s.portfolios| - i, if i < |s.portfolios| then |s.portfolios[i].brackets| - j else 0, 0
  {
    var t := VisitAt(s, pass, i, j);
    VisitView(s, pass, i, j, x);
    SweptVisit(s.cfg, pass, ViewOf(s, x), PortfolioIndex(s.portfolios, x), i, j);
    SweepView(t, pass, i, j + 1, x);
  }

  lemma PostHomes(s: State, i: nat, j: nat, bk: Booking)
    requires Homes(s) && At(s, i, j) && SameIdentity(BracketAt(s, i, j), bk.bracket)
    ensures Homes(Post(s, i, j, bk))
    ensures forall x :: PortfolioIndex(Post(s, i, j, bk).portfolios, x) == PortfolioIndex(s.portfolios, x)
  {
    var t := Post(s, i, j, bk);
    forall k, l | At(t, k, l)
      ensures At(s, k, l) && SameIdentity(BracketAt(s, k, l), BracketAt(t, k, l))
    {
      assert At(s, k, l);
    }
    QuietHomes(s, t);
  }

  // ---- Each call, seen from one strategy -------------------------------------------------------

  function ActIn(cfg: Config, marks: map<Ticker, Mark>, lastId: nat, x: StrategyId, v: View, act: Act): View
  {
    match act
    case Submit(r) => if r.rung == LIVE then v else SubmitIn(cfg, marks, lastId, x, v, r)
    case Amend(k, stop, target, qty) =>
      if !In(v, k) then v
      else ApplyIn(v, k, ModifyEffect(cfg, marks, v.book.value.brackets[k], Modification(0, stop, target, qty)))
    case Withdraw(k) =>
      if !In(v, k) then v else ApplyIn(v, k, CancelEffect(cfg, marks, v.book.value.brackets[k]))
    case StartOver =>
      var p := EnsuredIn(cfg, x, v).book.value;
      v.(book := Some(p.(cash := p.startingCash, realized := 0, brackets := [])))
    case TakeClosed => v.(closed := [])
    case Look => EnsuredIn(cfg, x, v)
  }

  function SubmitIn(cfg: Config, marks: map<Ticker, Mark>, lastId: nat, x: StrategyId, v: View, r: Request): View
  {
    var p := EnsuredIn(cfg, x, v).book.value;
    var b := NewBracket(lastId, r.(strategy := x));
    ApplyIn(v.(book := Some(p.(brackets := p.brackets + [b]))), |p.brackets|, PlaceEffect(cfg, marks, b))
  }

  function OpIn(cfg: Config, marks: map<Ticker, Mark>, lastId: nat, x: StrategyId, v: View, op: Op): View
  {
    match op
    case OnMarketBar(bar) =>
      var entries := Entries(bar.ticker, Synthesize(bar.close, cfg.spreadBps), bar.ts, Some(bar));
      SweepIn(cfg, Exits(bar), SweepIn(cfg, entries, v, 0), 0)
    case OnMarketQuote(q) =>
      if Book(q).None? then v else SweepIn(cfg, Entries(q.ticker, Book(q).value, q.ts, None), v, 0)
    case TakeAllClosed => v.(closed := [])
    case Own(y, act) => if y != x then v else ActIn(cfg, marks, lastId, x, v, act)
  }

  lemma EnsuredView(s: State, y: StrategyId, x: StrategyId)
    ensures ViewOf(Ensured(s, y), x) == if x == y then EnsuredIn(s.cfg, x, ViewOf(s, x)) else ViewOf(s, x)
  {
    var t := Ensured(s, y);
    assert forall k :: 0 <= k < |s.portfolios| ==> t.portfolios[k] == s.portfolios[k];
    var i, j := PortfolioIndex(s.portfolios, x), PortfolioIndex(t.portfolios, x);
    if i < |s.portfolios| {
      assert t.portfolios[i].strategy == x;
    }
  }

  lemma RecordedView(s: State, r: Request, x: StrategyId)
    requires Homes(s)
    ensures ViewOf(Recorded(s, r), x)
         == if x == r.strategy then
              var v := EnsuredIn(s.cfg, x, ViewOf(s, x));
              var p := v.book.value;
              v.(book := Some(p.(brackets := p.brackets + [NewBracket(s.lastId, r)])))
            else ViewOf(s, x)
  {
    EnsuredView(s, r.strategy, x);
    var u, t := Ensured(s, r.strategy), Recorded(s, r);
    assert forall k :: 0 <= k < |u.portfolios| ==> t.portfolios[k].strategy == u.portfolios[k].strategy;
    assert PortfolioIndex(t.portfolios, x) == PortfolioIndex(u.portfolios, x);
  }

  /** The new bracket's effect, on the last bracket of the strategy's book. */
  lemma SeatedView(t: State, i: nat, j: nat, x: StrategyId)
    requires Homes(t) && At(t, i, j)
    ensures t.portfolios[i].strategy == x ==> In(ViewOf(t, x), j)
    ensures var e := PlaceEffect(t.cfg, t.marks, BracketAt(t, i, j));
      ViewOf(Apply(t, i, j, e), x) == if t.portfolios[i].strategy == x then ApplyIn(ViewOf(t, x), j, e) else ViewOf(t, x)
  {
    ApplyView(t, i, j, PlaceEffect(t.cfg, t.marks, BracketAt(t, i, j)), x);
  }

  lemma SubmitElsewhere(s: State, r: Request, x: StrategyId)
    requires Homes(s) && r.rung != LIVE && x != r.strategy
    ensures ViewOf(Place(s, r).0, x) == ViewOf(s, x)
  {
    RecordedView(s, r, x);
    RecordedHomes(s, r);
    var t := Recorded(s, r);
    var i := PortfolioIndex(t.portfolios, r.strategy);
    SeatedView(t, i, |t.portfolios[i].brackets| - 1, x);
  }

  lemma SubmitHere(s: State, r: Request)
    requires Homes(s) && r.rung != LIVE
    ensures ViewOf(Place(s, r).0, r.strategy) == SubmitIn(s.cfg, s.marks, s.lastId, r.strategy, ViewOf(s, r.strategy), r)
  {
    RecordedView(s, r, r.strategy);
    RecordedHomes(s, r);
    RecordedAtEnd(s, r);
    var t := Recorded(s, r);
    var i := PortfolioIndex(t.portfolios, r.strategy);
    SeatedView(t, i, |t.portfolios[i].brackets| - 1, r.strategy);
    assert r.(strategy := r.strategy) == r;
  }

  lemma SubmitView(s: State, r: Request, x: StrategyId)
    requires Homes(s) && r.rung != LIVE
    ensures ViewOf(Place(s, r).0, x)
         == if x == r.strategy then SubmitIn(s.cfg, s.marks, s.lastId, x, ViewOf(s, x), r) else ViewOf(s, x)
  {
    if x == r.strategy {
      SubmitHere(s, r);
    } else {
      SubmitElsewhere(s, r, x);
    }
  }

  /** Resolving a position and looking the id up again leads back to it. */
  lemma ResolvedAt(s: State, y: StrategyId, k: nat)
    requires Homes(s)
    ensures In(ViewOf(s, y), k) ==> At(s, PortfolioIndex(s.portfolios, y), k)
    ensures Lookup(s, IdAt(s, y, k))
         == if In(ViewOf(s, y), k) then Some((PortfolioIndex(s.portfolios, y), k)) else None
  {
    var i := PortfolioIndex(s.portfolios, y);
    if In(ViewOf(s, y), k) {
      HomeLookup(s, i, k);
    }
  }

  lemma AmendView(s: State, y: StrategyId, m: Modification, k: nat, x: StrategyId)
    requires Homes(s) && m.id == IdAt(s, y, k)
    ensures ViewOf(Modify(s, m).0, x)
         == if x == y && In(ViewOf(s, y), k)
            then ApplyIn(ViewOf(s, x), k, ModifyEffect(s.cfg, s.marks, ViewOf(s, y).book.value.brackets[k], m))
            else ViewOf(s, x)
  {
    ResolvedAt(s, y, k);
    if In(ViewOf(s, y), k) {
      var i := PortfolioIndex(s.portfolios, y);
      var b := BracketAt(s, i, k);
      ModifyEffectOwn(s.cfg, s.marks, b, m);
      assert AtHome(s, y, b);
      ApplyView(s, i, k, ModifyEffect(s.cfg, s.marks, b, m), x);
    }
  }

  lemma WithdrawView(s: State, y: StrategyId, k: nat, x: StrategyId)
    requires Homes(s)
    ensures ViewOf(Cancel(s, IdAt(s, y, k)).0, x)
         == if x == y && In(ViewOf(s, y), k)
            then ApplyIn(ViewOf(s, x), k, CancelEffect(s.cfg, s.marks, ViewOf(s, y).book.value.brackets[k]))
            else ViewOf(s, x)
  {
    ResolvedAt(s, y, k);
    if In(ViewOf(s, y), k) {
      var i := PortfolioIndex(s.portfolios, y);
      assert AtHome(s, y, BracketAt(s, i, k));
      ApplyView(s, i, k, CancelEffect(s.cfg, s.marks, BracketAt(s, i, k)), x);
    }
  }

  lemma ResetView(s: State, y: StrategyId, x: StrategyId)
    ensures ViewOf(Reset(s, y), x) == if x == y then ActIn(s.cfg, s.marks, s.lastId, x, ViewOf(s, x), StartOver) else ViewOf(s, x)
  {
    EnsuredView(s, y, x);
    var u, t := Ensured(s, y), Reset(s, y);
    assert forall k :: 0 <= k < |u.portfolios| ==> t.portfolios[k].strategy == u.portfolios[k].strategy;
    assert PortfolioIndex(t.portfolios, x) == PortfolioIndex(u.portfolios, x);
  }

  lemma SetMarkHomes(s: State, ticker: Ticker, mk: Mark, x: StrategyId)
    requires Homes(s)
    ensures Homes(s.(marks := s.marks[ticker := mk]))
    ensures ViewOf(s.(marks := s.marks[ticker := mk]), x) == ViewOf(s, x)
  {
    var t := s.(marks := s.marks[ticker := mk]);
    forall k, l | At(t, k, l)
      ensures At(s, k, l) && BracketAt(t, k, l) == BracketAt(s, k, l)
    {
      assert At(s, k, l);
    }
    QuietHomes(s, t);
  }

  lemma BarView(s: State, bar: Candle, x: StrategyId)
    requires Homes(s)
    ensures ViewOf(OnBar(s, bar), x) == OpIn(s.cfg, s.marks, s.lastId, x, ViewOf(s, x), OnMarketBar(bar))
  {
    var quote := Synthesize(bar.close, s.cfg.spreadBps);
    var entries := Entries(bar.ticker, quote, bar.ts, Some(bar));
    var marked := s.(marks := s.marks[bar.ticker := Mark(quote, bar.ts)]);
    SetMarkHomes(s, bar.ticker, Mark(quote, bar.ts), x);
    SweepView(marked, entries, 0, 0, x);
    SweepHomes(marked, entries);
    SweepFrame(marked, entries, 0, 0);
    SweepView(Sweep(marked, entries, 0, 0), Exits(bar), 0, 0, x);
  }

  lemma SweepHomes(s: State, pass: Pass)
    requires Homes(s)
    ensures Homes(Sweep(s, pass, 0, 0))
  {
    var t := Sweep(s, pass, 0, 0);
    SweepFrame(s, pass, 0, 0);
    forall k, l | At(t, k, l)
      ensures At(s, k, l) && SameIdentity(BracketAt(s, k, l), BracketAt(t, k, l))
    {
      assert At(s, k, l);
      SweepPointwise(s, pass, 0, 0, k, l);
      VisitAdvances(s.cfg, pass, BracketAt(s, k, l));
    }
    QuietHomes(s, t);
  }

  lemma QuoteView(s: State, q: Quote, x: StrategyId)
    requires Homes(s)
    ensures ViewOf(UpdateQuote(s, q), x) == OpIn(s.cfg, s.marks, s.lastId, x, ViewOf(s, x), OnMarketQuote(q))
  {
    if Book(q).Some? {
      var mk := Mark(Book(q).value, q.ts);
      SetMarkHomes(s, q.ticker, mk, x);
      SweepView(s.(marks := s.marks[q.ticker := mk]), Entries(q.ticker, Book(q).value, q.ts, None), 0, 0, x);
    }
  }

  lemma AmendCommand(s: State, y: StrategyId, k: nat, stop: Option<Price>, target: Option<Price>, qty: Option<Shares>)
    ensures Step(s, CommandOf(s, Own(y, Amend(k, stop, target, qty))))
         == Modify(s, Modification(IdAt(s, y, k), stop, target, qty)).0
  {
  }

  /** The id only finds the bracket. */
  lemma EffectWithoutId(cfg: Config, marks: map<Ticker, Mark>, b: Bracket, m: Modification)
    ensures ModifyEffect(cfg, marks, b, m) == ModifyEffect(cfg, marks, b, m.(id := 0))
  {
    assert Moved(b, m) == Moved(b, m.(id := 0));
  }

  lemma AmendOwn(s: State, y: StrategyId, k: nat, stop: Option<Price>, target: Option<Price>, qty: Option<Shares>, x: StrategyId)
    requires Homes(s)
    ensures var act := Amend(k, stop, target, qty);
      ViewOf(Step(s, CommandOf(s, Own(y, act))), x) == OpIn(s.cfg, s.marks, s.lastId, x, ViewOf(s, x), Own(y, act))
  {
    var m := Modification(IdAt(s, y, k), stop, target, qty);
    AmendCommand(s, y, k, stop, target, qty);
    AmendView(s, y, m, k, x);
    if In(ViewOf(s, x), k) {
      EffectWithoutId(s.cfg, s.marks, ViewOf(s, x).book.value.brackets[k], m);
    }
  }

  lemma SubmitOwn(s: State, y: StrategyId, r: Request, x: StrategyId)
    requires Homes(s)
    ensures ViewOf(Step(s, CommandOf(s, Own(y, Submit(r)))), x)
         == OpIn(s.cfg, s.marks, s.lastId, x, ViewOf(s, x), Own(y, Submit(r)))
  {
    if r.rung != LIVE {
      SubmitView(s, r.(strategy := y), x);
      assert r.(strategy := y).(strategy := y) == r.(strategy := y);
    }
  }

  lemma WithdrawOwn(s: State, y: StrategyId, k: nat, x: StrategyId)
    requires Homes(s)
    ensures ViewOf(Step(s, CommandOf(s, Own(y, Withdraw(k)))), x)
         == OpIn(s.cfg, s.marks, s.lastId, x, ViewOf(s, x), Own(y, Withdraw(k)))
  {
    WithdrawView(s, y, k, x);
  }

  lemma TakeOwn(s: State, y: StrategyId, x: StrategyId)
    ensures ViewOf(Step(s, CommandOf(s, Own(y, TakeClosed))), x)
         == OpIn(s.cfg, s.marks, s.lastId, x, ViewOf(s, x), Own(y, TakeClosed))
  {
    OfSplits(y, x, s.closed);
  }

  lemma StartOverOwn(s: State, y: StrategyId, x: StrategyId)
    ensures ViewOf(Step(s, CommandOf(s, Own(y, StartOver))), x)
         == OpIn(s.cfg, s.marks, s.lastId, x, ViewOf(s, x), Own(y, StartOver))
  {
    ResetView(s, y, x);
  }

  lemma LookOwn(s: State, y: StrategyId, x: StrategyId)
    ensures ViewOf(Step(s, CommandOf(s, Own(y, Look))), x)
         == OpIn(s.cfg, s.marks, s.lastId, x, ViewOf(s, x), Own(y, Look))
  {
    EnsuredView(s, y, x);
  }

  lemma OwnView(s: State, y: StrategyId, act: Act, x: StrategyId)
    requires Homes(s)
    ensures ViewOf(Step(s, CommandOf(s, Own(y, act))), x)
         == OpIn(s.cfg, s.marks, s.lastId, x, ViewOf(s, x), Own(y, act))
  {
    match act
    case Submit(r) => SubmitOwn(s, y, r, x);
    case Amend(k, stop, target, qty) => AmendOwn(s, y, k, stop, target, qty, x);
    case Withdraw(k) => WithdrawOwn(s, y, k, x);
    case StartOver => StartOverOwn(s, y, x);
    case TakeClosed => TakeOwn(s, y, x);
    case Look => LookOwn(s, y, x);
  }

  /** One step as one strategy sees it depends on its view, the marks and the next id alone. */
  lemma StepView(s: State, op: Op, x: StrategyId)
    requires Homes(s)
    ensures ViewOf(Step(s, CommandOf(s, op)), x) == OpIn(s.cfg, s.marks, s.lastId, x, ViewOf(s, x), op)
  {
    match op
    case OnMarketBar(bar) => BarView(s, bar, x);
    case OnMarketQuote(q) => QuoteView(s, q, x);
    case TakeAllClosed =>
    case Own(y, act) => OwnView(s, y, act, x);
  }

  lemma CallMarks(s: State, m: Modification, id: nat)
    ensures Modify(s, m).0.marks == s.marks && Cancel(s, id).0.marks == s.marks
  {
  }

  lemma PlaceMarks(s: State, r: Request)
    ensures Place(s, r).0.marks == s.marks
  {
  }

  function MarksIn(cfg: Config, marks: map<Ticker, Mark>, op: Op): map<Ticker, Mark>
  {
    match op
    case OnMarketBar(bar) => marks[bar.ticker := Mark(Synthesize(bar.close, cfg.spreadBps), bar.ts)]
    case OnMarketQuote(q) => if Book(q).Some? then marks[q.ticker := Mark(Book(q).value, q.ts)] else marks
    case TakeAllClosed => marks
    case Own(y, act) => marks
  }

  lemma ActMarks(s: State, y: StrategyId, act: Act)
    ensures Step(s, CommandOf(s, Own(y, act))).marks == s.marks
  {
    match CommandOf(s, Own(y, act))
    case PlaceBracket(r) => PlaceMarks(s, r);
    case ModifyBracket(m) => CallMarks(s, m, 0);
    case CancelBracket(id) => CallMarks(s, Modification(0, None, None, None), id);
    case _ =>
  }

  lemma StepMarks(s: State, op: Op)
    ensures Step(s, CommandOf(s, op)).marks == MarksIn(s.cfg, s.marks, op)
  {
    match op
    case OnMarketBar(bar) => BarFrame(s, bar);
    case OnMarketQuote(q) => if Book(q).Some? { QuoteFrame(s, q); }
    case TakeAllClosed =>
    case Own(y, act) => ActMarks(s, y, act);
  }

  // ---- Views equal up to the ids drawn from the shared counter ----------------------------------------

  function Anon(b: Bracket): Bracket
  {
    b.(id := 0, orders := Orders(0, 0, if b.orders.target.Some? then Some(0) else None))
  }

  ghost predicate AlikeBooks(p: Portfolio, q: Portfolio)
  {
    p.strategy == q.strategy && p.startingCash == q.startingCash && p.cash == q.cash && p.realized == q.realized &&
    |p.brackets| == |q.brackets| &&
    (forall k :: 0 <= k < |p.brackets| ==> Anon(p.brackets[k]) == Anon(q.brackets[k]))
  }

  ghost predicate AlikeTrades(ts: seq<ClosedTrade>, us: seq<ClosedTrade>)
  {
    |ts| == |us| && (forall k :: 0 <= k < |ts| ==> ts[k].(bracket := 0) == us[k].(bracket := 0))
  }

  ghost predicate Alike(v: View, w: View)
  {
    AlikeTrades(v.closed, w.closed) && (v.book.Some? <==> w.book.Some?) &&
    (v.book.Some? ==> AlikeBooks(v.book.value, w.book.value))
  }

  ghost predicate AlikeBookings(c: Booking, d: Booking)
  {
    Anon(c.bracket) == Anon(d.bracket) && c.cash == d.cash && c.realized == d.realized &&
    (c.trade.Some? <==> d.trade.Some?) &&
    (c.trade.Some? ==> c.trade.value.(bracket := 0) == d.trade.value.(bracket := 0))
  }

  ghost predicate AlikeEffects(e: Effect, f: Effect)
  {
    Anon(e.bracket) == Anon(f.bracket) && e.outcome == f.outcome && (e.booking.Some? <==> f.booking.Some?) &&
    (e.booking.Some? ==> AlikeBookings(e.booking.value, f.booking.value))
  }

  lemma VisitAlike(cfg: Config, pass: Pass, b: Bracket, c: Bracket)
    requires Anon(b) == Anon(c)
    ensures Visit(cfg, pass, b).Some? <==> Visit(cfg, pass, c).Some?
    ensures Visit(cfg, pass, b).Some? ==> AlikeBookings(Visit(cfg, pass, b).value, Visit(cfg, pass, c).value)
  {
  }

  lemma ModifyEffectsAlike(cfg: Config, marks: map<Ticker, Mark>, b: Bracket, c: Bracket, m: Modification)
    requires Anon(b) == Anon(c)
    ensures AlikeEffects(ModifyEffect(cfg, marks, b, m), ModifyEffect(cfg, marks, c, m))
  {
  }

  lemma EffectsAlike(cfg: Config, marks: map<Ticker, Mark>, b: Bracket, c: Bracket, m: Modification)
    requires Anon(b) == Anon(c)
    ensures AlikeEffects(ModifyEffect(cfg, marks, b, m), ModifyEffect(cfg, marks, c, m))
    ensures AlikeEffects(CancelEffect(cfg, marks, b), CancelEffect(cfg, marks, c))
    ensures AlikeEffects(PlaceEffect(cfg, marks, b), PlaceEffect(cfg, marks, c))
  {
    ModifyEffectsAlike(cfg, marks, b, c, m);
  }

  lemma PostAlike(v: View, w: View, j: nat, c: Booking, d: Booking)
    requires In(v, j) && Alike(v, w) && AlikeBookings(c, d)
    ensures Alike(PostIn(v, j, c), PostIn(w, j, d))
  {
  }

  lemma ApplyAlike(v: View, w: View, j: nat, e: Effect, f: Effect)
    requires In(v, j) && Alike(v, w) && AlikeEffects(e, f)
    ensures Alike(ApplyIn(v, j, e), ApplyIn(w, j, f))
  {
    var p, q := v.book.value, w.book.value;
    var v1 := v.(book := Some(p.(brackets := p.brackets[j := e.bracket])));
    var w1 := w.(book := Some(q.(brackets := q.brackets[j := f.bracket])));
    if e.booking.Some? {
      PostAlike(v1, w1, j, e.booking.value, f.booking.value);
    }
  }

  lemma {:induction false} SweepAlike(cfg: Config, pass: Pass, v: View, w: View, j: nat)
    requires Alike(v, w)
    ensures Alike(SweepIn(cfg, pass, v, j), SweepIn(cfg, pass, w, j))
    decreases if v.book.Some? then |v.book.value.brackets| - j else 0
  {
    if In(v, j) {
      var b, c := v.book.value.brackets[j], w.book.value.brackets[j];
      VisitAlike(cfg, pass, b, c);
      if Visit(cfg, pass, b).Some? {
        PostAlike(v, w, j, Visit(cfg, pass, b).value, Visit(cfg, pass, c).value);
      }
      SweepAlike(cfg, pass, VisitIn(cfg, pass, v, j), VisitIn(cfg, pass, w, j), j + 1);
    }
  }

  lemma SubmitAlike(
      cfg: Config, marks: map<Ticker, Mark>, n: nat, m: nat, x: StrategyId, v: View, w: View, r: Request)
    requires Alike(v, w)
    ensures Alike(SubmitIn(cfg, marks, n, x, v, r), SubmitIn(cfg, marks, m, x, w, r))
  {
    var p, q := EnsuredIn(cfg, x, v).book.value, EnsuredIn(cfg, x, w).book.value;
    var b, c := NewBracket(n, r.(strategy := x)), NewBracket(m, r.(strategy := x));
    EffectsAlike(cfg, marks, b, c, Modification(0, None, None, None));
    ApplyAlike(v.(book := Some(p.(brackets := p.brackets + [b]))), w.(book := Some(q.(brackets := q.brackets + [c]))),
               |p.brackets|, PlaceEffect(cfg, marks, b), PlaceEffect(cfg, marks, c));
  }

  lemma OpAlike(cfg: Config, marks: map<Ticker, Mark>, n: nat, m: nat, x: StrategyId, v: View, w: View, op: Op)
    requires Alike(v, w)
    ensures Alike(OpIn(cfg, marks, n, x, v, op), OpIn(cfg, marks, m, x, w, op))
  {
    match op
    case OnMarketBar(bar) =>
      var entries := Entries(bar.ticker, Synthesize(bar.close, cfg.spreadBps), bar.ts, Some(bar));
      SweepAlike(cfg, entries, v, w, 0);
      SweepAlike(cfg, Exits(bar), SweepIn(cfg, entries, v, 0), SweepIn(cfg, entries, w, 0), 0);
    case OnMarketQuote(q) =>
      if Book(q).Some? {
        SweepAlike(cfg, Entries(q.ticker, Book(q).value, q.ts, None), v, w, 0);
      }
    case TakeAllClosed =>
    case Own(y, act) =>
      match act
      case Submit(r) => SubmitAlike(cfg, marks, n, m, x, v, w, r);
      case Amend(k, stop, target, qty) =>
        if In(v, k) {
          var b, c, mod := v.book.value.brackets[k], w.book.value.brackets[k], Modification(0, stop, target, qty);
          EffectsAlike(cfg, marks, b, c, mod);
          ApplyAlike(v, w, k, ModifyEffect(cfg, marks, b, mod), ModifyEffect(cfg, marks, c, mod));
        }
      case Withdraw(k) =>
        if In(v, k) {
          var b, c := v.book.value.brackets[k], w.book.value.brackets[k];
          EffectsAlike(cfg, marks, b, c, Modification(0, None, None, None));
          ApplyAlike(v, w, k, CancelEffect(cfg, marks, b), CancelEffect(cfg, marks, c));
        }
      case StartOver =>
      case TakeClosed =>
      case Look =>
  }

  lemma OnlyStep(x: StrategyId, ops: seq<Op>)
    requires |ops| > 0
    ensures var op := ops[|ops| - 1];
      Only(x, ops) == if op.Own? && op.strategy != x then Only(x, ops[..|ops| - 1]) else Only(x, ops[..|ops| - 1]) + [op]
  {
  }

  lemma PlayOn(cfg: Config, ops: seq<Op>, op: Op)
    ensures Play(cfg, ops + [op]) == Step(Play(cfg, ops), CommandOf(Play(cfg, ops), op))
  {
    assert (ops + [op])[..|ops|] == ops;
  }

  /** Isolation of plays; of runs below. */
  lemma {:induction false} PlayIsolated(cfg: Config, ops: seq<Op>, x: StrategyId)
    ensures Alike(ViewOf(Play(cfg, ops), x), ViewOf(Play(cfg, Only(x, ops)), x))
    ensures Play(cfg, ops).marks == Play(cfg, Only(x, ops)).marks
  {
    if |ops| > 0 {
      var rest, op := ops[..|ops| - 1], ops[|ops| - 1];
      var s, t := Play(cfg, rest), Play(cfg, Only(x, rest));
      PlayIsolated(cfg, rest, x);
      PlayHomes(cfg, rest);
      PlayHomes(cfg, Only(x, rest));
      OnlyStep(x, ops);
      StepView(s, op, x);
      StepMarks(s, op);
      if op.Own? && op.strategy != x {
      } else {
        PlayOn(cfg, Only(x, rest), op);
        StepView(t, op, x);
        StepMarks(t, op);
        OpAlike(cfg, s.marks, s.lastId, t.lastId, x, ViewOf(s, x), ViewOf(t, x), op);
      }
    }
  }

  // ---- Runs of commands -------------------------------------------------------------------

  /** A quote without prices changes nothing. */
  const IDLE := OnMarketQuote(Quote("", None, None, None, 0))

  /** A command addressed by the strategy that owns the bracket it names. */
  function OpOf(s: State, c: Command): Op
  {
    match c
    case Bar(bar) => OnMarketBar(bar)
    case Tick(q) => OnMarketQuote(q)
    case PlaceBracket(r) => Own(r.strategy, Submit(r))
    case ModifyBracket(m) =>
      var at := Lookup(s, m.id);
      if at.None? then IDLE
      else Own(s.portfolios[at.value.0].strategy, Amend(at.value.1, m.newStop, m.newTarget, m.newQty))
    case CancelBracket(id) =>
      var at := Lookup(s, id);
      if at.None? then IDLE else Own(s.portfolios[at.value.0].strategy, Withdraw(at.value.1))
    case ResetPortfolio(x) => Own(x, StartOver)
    case DrainClosed(x) => if x.Some? then Own(x.value, TakeClosed) else TakeAllClosed
    case ReadPortfolio(x) => Own(x, Look)
  }

  lemma OpSteps(s: State, c: Command)
    requires Homes(s)
    ensures Step(s, CommandOf(s, OpOf(s, c))) == Step(s, c)
  {
    match c
    case PlaceBracket(r) => assert r.(strategy := r.strategy) == r;
    case ModifyBracket(m) => ModifySteps(s, m);
    case CancelBracket(id) => CancelSteps(s, id);
    case _ =>
  }

  lemma ModifySteps(s: State, m: Modification)
    requires Homes(s)
    ensures Step(s, CommandOf(s, OpOf(s, ModifyBracket(m)))) == Modify(s, m).0
  {
    if Lookup(s, m.id).Some? {
      HomeIndex(s, Lookup(s, m.id).value.0);
      assert CommandOf(s, OpOf(s, ModifyBracket(m))) == ModifyBracket(m);
    }
  }

  lemma CancelSteps(s: State, id: nat)
    requires Homes(s)
    ensures Step(s, CommandOf(s, OpOf(s, CancelBracket(id)))) == Cancel(s, id).0
  {
    if Lookup(s, id).Some? {
      HomeIndex(s, Lookup(s, id).value.0);
      assert CommandOf(s, OpOf(s, CancelBracket(id))) == CancelBracket(id);
    }
  }

  lemma HomeIndex(s: State, i: nat)
    requires Homes(s) && i < |s.portfolios|
    ensures PortfolioIndex(s.portfolios, s.portfolios[i].strategy) == i
  {
  }

  function OpsOf(cfg: Config, cs: seq<Command>): seq<Op>
  {
    if |cs| == 0 then [] else OpsOf(cfg, cs[..|cs| - 1]) + [OpOf(Run(cfg, cs[..|cs| - 1]), cs[|cs| - 1])]
  }

  function CommandsOf(cfg: Config, ops: seq<Op>): seq<Command>
  {
    if |ops| == 0 then [] else
    CommandsOf(cfg, ops[..|ops| - 1]) + [CommandOf(Play(cfg, ops[..|ops| - 1]), ops[|ops| - 1])]
  }

  /** Every run is a play: naming brackets by owner and position loses no command. */
  lemma {:induction false} RunIsPlay(cfg: Config, cs: seq<Command>)
    ensures Play(cfg, OpsOf(cfg, cs)) == Run(cfg, cs)
  {
    if |cs| > 0 {
      var rest := cs[..|cs| - 1];
      RunIsPlay(cfg, rest);
      PlayHomes(cfg, OpsOf(cfg, rest));
      OpSteps(Run(cfg, rest), cs[|cs| - 1]);
      PlayOn(cfg, OpsOf(cfg, rest), OpOf(Run(cfg, rest), cs[|cs| - 1]));
    }
  }

  lemma {:induction false} PlayIsRun(cfg: Config, ops: seq<Op>)
    ensures Run(cfg, CommandsOf(cfg, ops)) == Play(cfg, ops)
  {
    if |ops| > 0 {
      var rest, cs := ops[..|ops| - 1], CommandsOf(cfg, ops);
      PlayIsRun(cfg, rest);
      assert cs[..|cs| - 1] == CommandsOf(cfg, rest);
    }
  }

  /** The commands of a run with every other strategy's calls taken out; ids are drawn anew. */
  function OwnCommands(cfg: Config, cs: seq<Command>, x: StrategyId): seq<Command>
  {
    CommandsOf(cfg, Only(x, OpsOf(cfg, cs)))
  }

  // ---- A refused fill breaks it ------------------------------------------------------------------

  const SHORT_ENTRY := Request("a", SIM, "QUAL", Short, 1, MarketEntry, 1.0, None)

  const LONG_ENTRY := Request("b", SIM, "QUAL", Long, 1, MarketEntry, 1.0, None)

  /** A bid of a tenth of a cent under an ask of a dollar. */
  const THIN_QUOTE := Quote("QUAL", Some(0.1), Some(100.0), None, 0)

  const THIN_MARK := Mark(BidAsk(0.1, 100.0), 0)

  const THIN_PASS := Entries("QUAL", BidAsk(0.1, 100.0), 0, None)

  function Fresh(cfg: Config, lastId: nat, r: Request): Portfolio
  {
    Portfolio(r.strategy, cfg.startingCash, cfg.startingCash, 0, [NewBracket(lastId, r)])
  }

  /** A strategy's first bracket, waiting for a market. */
  lemma PlacesFirst(s: State, r: Request)
    requires PortfolioIndex(s.portfolios, r.strategy) == |s.portfolios|
    requires r.rung == SIM && r.target.None? && r.ticker !in s.marks
    ensures PlaceOrThrow(s, r) == (s.(portfolios := s.portfolios + [Fresh(s.cfg, s.lastId, r)],
                                      owner := s.owner[s.lastId + 1 := r.strategy], lastId := s.lastId + 3), Done)
  {
    var u, t := Ensured(s, r.strategy), Recorded(s, r);
    var n := |s.portfolios|;
    assert u.portfolios[n].strategy == r.strategy;
    assert forall k :: 0 <= k < n ==> u.portfolios[k] == s.portfolios[k];
    assert PortfolioIndex(u.portfolios, r.strategy) == n;
    assert t.portfolios[n].brackets == [NewBracket(s.lastId, r)];
    assert t.portfolios == s.portfolios + [Fresh(s.cfg, s.lastId, r)];
    assert PortfolioIndex(t.portfolios, r.strategy) == n;
    SetSame(t, n, 0);
  }

  lemma ThinPrices(cfg: Config, n: nat)
    ensures !ValidFill(Enter(cfg, NewBracket(n, SHORT_ENTRY), THIN_MARK.quote, 0).fill)
    ensures ValidFill(Enter(cfg, NewBracket(n, LONG_ENTRY), THIN_MARK.quote, 0).fill)
  {
    var slip := cfg.slippageBps / 10000.0;
    assert 0.1 * (1.0 - slip) <= 0.1;
    assert 100.0 * (1.0 + slip) >= 100.0;
  }

  function SharedRun(): seq<Command>
  {
    [PlaceBracket(SHORT_ENTRY), PlaceBracket(LONG_ENTRY), Tick(THIN_QUOTE)]
  }

  function LoneRun(): seq<Command>
  {
    [PlaceBracket(LONG_ENTRY), Tick(THIN_QUOTE)]
  }

  lemma OrThrowOn(cfg: Config, cs: seq<Command>, c: Command)
    ensures var before := RunOrThrow(cfg, cs); var r := StepOrThrow(before.state, c);
      RunOrThrow(cfg, cs + [c]) == Result(r.state, before.threw || r.threw)
  {
    assert (cs + [c])[..|cs|] == cs;
  }

  lemma OpsOn(cfg: Config, cs: seq<Command>, c: Command)
    ensures OpsOf(cfg, cs + [c]) == OpsOf(cfg, cs) + [OpOf(Run(cfg, cs), c)]
  {
    assert (cs + [c])[..|cs|] == cs;
  }

  lemma SharedPlaces(cfg: Config)
    ensures var r := RunOrThrow(cfg, [PlaceBracket(SHORT_ENTRY), PlaceBracket(LONG_ENTRY)]);
      r.state.cfg == cfg && r.state.portfolios == [Fresh(cfg, 0, SHORT_ENTRY), Fresh(cfg, 3, LONG_ENTRY)]
  {
    var s0, one := Init(cfg), [PlaceBracket(SHORT_ENTRY)];
    PlacesFirst(s0, SHORT_ENTRY);
    OrThrowOn(cfg, [], PlaceBracket(SHORT_ENTRY));
    assert [] + one == one;
    var s1 := RunOrThrow(cfg, one).state;
    assert s1.portfolios == [Fresh(cfg, 0, SHORT_ENTRY)];
    PlacesFirst(s1, LONG_ENTRY);
    OrThrowOn(cfg, one, PlaceBracket(LONG_ENTRY));
    assert one + [PlaceBracket(LONG_ENTRY)] == [PlaceBracket(SHORT_ENTRY), PlaceBracket(LONG_ENTRY)];
  }

  lemma ThinThrows(s: State)
    requires |s.portfolios| == 2 && s.portfolios[0] == Fresh(s.cfg, 0, SHORT_ENTRY)
    ensures var r := QuoteOrThrow(s, THIN_QUOTE);
      r.threw && |r.state.portfolios| == 2 && r.state.portfolios[1] == s.portfolios[1] && "QUAL" in r.state.marks &&
      r.state.portfolios[0].strategy == "a"
  {
    var marked := s.(marks := s.marks["QUAL" := THIN_MARK]);
    ThinPrices(s.cfg, 0);
    assert VisitOrThrow(marked, THIN_PASS, 0, 0).threw;
    assert SweepOrThrow(marked, THIN_PASS, 0, 0) == VisitOrThrow(marked, THIN_PASS, 0, 0);
  }

  /** With the other strategy's sell refused, the buy is never looked at. */
  lemma SharedThrows(cfg: Config)
    ensures var r := RunOrThrow(cfg, SharedRun());
      r.threw && PortfolioIndex(r.state.portfolios, "b") == 1 && |r.state.portfolios| == 2 &&
      r.state.portfolios[1] == Fresh(cfg, 3, LONG_ENTRY) && "QUAL" in r.state.marks
  {
    var two := [PlaceBracket(SHORT_ENTRY), PlaceBracket(LONG_ENTRY)];
    SharedPlaces(cfg);
    OrThrowOn(cfg, two, Tick(THIN_QUOTE));
    assert two + [Tick(THIN_QUOTE)] == SharedRun();
    ThinThrows(RunOrThrow(cfg, two).state);
  }

  /** Alone, it fills. */
  lemma LoneFills(cfg: Config)
    ensures var r := RunOrThrow(cfg, LoneRun());
      !r.threw && PortfolioIndex(r.state.portfolios, "b") == 0 && |r.state.portfolios| == 1 &&
      |r.state.portfolios[0].brackets| == 1 && r.state.portfolios[0].brackets[0].status == Open
  {
    var s0, one := Init(cfg), [PlaceBracket(LONG_ENTRY)];
    PlacesFirst(s0, LONG_ENTRY);
    var s1 := PlaceOrThrow(s0, LONG_ENTRY).0;
    assert s1.portfolios == [Fresh(cfg, 0, LONG_ENTRY)];
    OrThrowOn(cfg, [], PlaceBracket(LONG_ENTRY));
    assert [] + one == one;
    OrThrowOn(cfg, one, Tick(THIN_QUOTE));
    assert one + [Tick(THIN_QUOTE)] == LoneRun();
    var marked := s1.(marks := s1.marks["QUAL" := THIN_MARK]);
    ThinPrices(cfg, 0);
    var v := VisitOrThrow(marked, THIN_PASS, 0, 0);
    assert !v.threw && |v.state.portfolios| == 1 && |v.state.portfolios[0].brackets| == 1;
    assert SweepOrThrow(v.state, THIN_PASS, 0, 1) == SweepOrThrow(v.state, THIN_PASS, 1, 0) == Result(v.state, false);
    assert SweepOrThrow(marked, THIN_PASS, 0, 0) == SweepOrThrow(v.state, THIN_PASS, 0, 1);
  }

  const SHORT_OP := Own("a", Submit(SHORT_ENTRY))

  const LONG_OP := Own("b", Submit(LONG_ENTRY))

  lemma SharedOps(cfg: Config)
    ensures OpsOf(cfg, SharedRun()) == [SHORT_OP, LONG_OP, OnMarketQuote(THIN_QUOTE)]
  {
    var one, two := [PlaceBracket(SHORT_ENTRY)], [PlaceBracket(SHORT_ENTRY), PlaceBracket(LONG_ENTRY)];
    OpsOn(cfg, [], PlaceBracket(SHORT_ENTRY));
    assert [] + one == one;
    OpsOn(cfg, one, PlaceBracket(LONG_ENTRY));
    assert one + [PlaceBracket(LONG_ENTRY)] == two;
    OpsOn(cfg, two, Tick(THIN_QUOTE));
    assert two + [Tick(THIN_QUOTE)] == SharedRun();
  }

  lemma OnlyOn(x: StrategyId, ops: seq<Op>, op: Op)
    ensures Only(x, ops + [op]) == if op.Own? && op.strategy != x then Only(x, ops) else Only(x, ops) + [op]
  {
    assert (ops + [op])[..|ops|] == ops;
  }

  lemma CommandsOn(cfg: Config, ops: seq<Op>, op: Op)
    ensures CommandsOf(cfg, ops + [op]) == CommandsOf(cfg, ops) + [CommandOf(Play(cfg, ops), op)]
  {
    assert (ops + [op])[..|ops|] == ops;
  }

  lemma OnlyOthersOut(x: StrategyId, a: Op, b: Op, c: Op)
    requires a.Own? && a.strategy != x && b.Own? && b.strategy == x && !c.Own?
    ensures Only(x, [a, b, c]) == [b, c]
  {
    OnlyOn(x, [], a);
    OnlyOn(x, [] + [a], b);
    OnlyOn(x, [] + [a] + [b], c);
    assert [] + [a] + [b] + [c] == [a, b, c];
  }

  lemma OnlyShared(cfg: Config)
    ensures Only("b", OpsOf(cfg, SharedRun())) == [LONG_OP, OnMarketQuote(THIN_QUOTE)]
  {
    SharedOps(cfg);
    OnlyOthersOut("b", SHORT_OP, LONG_OP, OnMarketQuote(THIN_QUOTE));
  }

  lemma LoneIsOwn(cfg: Config)
    ensures OwnCommands(cfg, SharedRun(), "b") == LoneRun()
  {
    var q := OnMarketQuote(THIN_QUOTE);
    OnlyShared(cfg);
    CommandsOn(cfg, [], LONG_OP);
    CommandsOn(cfg, [] + [LONG_OP], q);
    assert [] + [LONG_OP] + [q] == [LONG_OP, q];
    assert LONG_ENTRY.(strategy := "b") == LONG_ENTRY;
  }

  /**
   For every configuration: another strategy's refused entry leaves a market entry
   pending on a ticker with a mark, which fills once that strategy is taken out.
   */
  lemma RefusalBreaksIsolation(cfg: Config)
    ensures var s, t := RunOrThrow(cfg, SharedRun()), RunOrThrow(cfg, OwnCommands(cfg, SharedRun(), "b"));
      s.threw && !t.threw && !Alike(ViewOf(s.state, "b"), ViewOf(t.state, "b")) && !Covered(s.state)
  {
    SharedThrows(cfg);
    LoneFills(cfg);
    LoneIsOwn(cfg);
    var s := RunOrThrow(cfg, SharedRun()).state;
    assert At(s, 1, 0) && !CoveredBracket(s, BracketAt(s, 1, 0));
  }
}
