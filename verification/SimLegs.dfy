/** A bracket realizes at most one of its legs, in every run, throws included. */
module SimLegs {
  import opened Market
  import opened Money
  import opened SimModel
  import opened SimLedger
  import opened SimRuns
  import opened SimLifecycle
  import opened SimActual

  /** Nothing on the legs before a bracket is closed, at most one fill after. */
  ghost predicate LegsOf(b: Bracket, fs: seq<Fill>)
  {
    LegFills(b.orders, fs) <= if b.status == Closed then 1 else 0
  }

  ghost predicate Legs(s: State)
  {
    Layout(s) && OneLegEach(s) && forall i, j :: At(s, i, j) ==> LegsOf(BracketAt(s, i, j), s.fills)
  }

  /** A booking of a bracket's own: on a leg only if it closes. */
  ghost predicate OnOwnLeg(b: Bracket, bk: Booking)
  {
    SameIdentity(b, bk.bracket) && b.status != Closed && (ValidFill(bk.fill) ==> Owns(b.orders, bk.fill)) &&
    (OnLeg(b.orders, bk.fill) ==> bk.bracket.status == Closed)
  }

  lemma PlacedDistinct(s: State, i: nat, j: nat)
    requires Layout(s) && At(s, i, j)
    ensures Distinct(BracketAt(s, i, j).orders)
  {
    assert Placed(s, s.portfolios[i].strategy, BracketAt(s, i, j));
  }

  lemma OthersLegs(s: State, i: nat, j: nat, k: nat, l: nat, f: Fill)
    requires Legs(s) && At(s, i, j) && At(s, k, l) && (k != i || l != j) && Owns(BracketAt(s, i, j).orders, f)
    ensures LegsOf(BracketAt(s, k, l), s.fills + [f])
  {
    OthersFillUnowned(s, i, j, k, l, f);
    LegAppend(BracketAt(s, k, l).orders, s.fills, f);
    assert LegsOf(BracketAt(s, k, l), s.fills);
  }

  lemma PostRecordedLegs(s: State, i: nat, j: nat, bk: Booking)
    requires Legs(s) && At(s, i, j) && OnOwnLeg(BracketAt(s, i, j), bk) && ValidFill(bk.fill)
    ensures Legs(Post(s, i, j, bk))
  {
    var t := Post(s, i, j, bk);
    assert LegsOf(BracketAt(s, i, j), s.fills);
    LegAppend(bk.bracket.orders, s.fills, bk.fill);
    PostLayout(s, i, j, bk);
    PostOneLegEach(s, i, j, bk);
    forall k, l | At(t, k, l) ensures LegsOf(BracketAt(t, k, l), t.fills) {
      assert At(s, k, l);
      if k != i || l != j {
        OthersLegs(s, i, j, k, l, bk.fill);
      }
    }
  }

  lemma SetLegs(s: State, t: State, i: nat, j: nat, b: Bracket)
    requires Legs(s) && At(s, i, j) && SameIdentity(BracketAt(s, i, j), b)
    requires BracketAt(s, i, j).status == Closed ==> b.status == Closed
    requires t.fills == s.fills && t.owner == s.owner && t.lastId == s.lastId && |t.portfolios| == |s.portfolios|
    requires forall k :: 0 <= k < |s.portfolios| && k != i ==> t.portfolios[k] == s.portfolios[k]
    requires t.portfolios[i].strategy == s.portfolios[i].strategy
    requires t.portfolios[i].brackets == s.portfolios[i].brackets[j := b]
    ensures Legs(t)
  {
    SamePlaces(s, t, i, j, b);
    forall k, l | At(t, k, l) ensures LegsOf(BracketAt(t, k, l), t.fills) {
      assert At(s, k, l) && LegsOf(BracketAt(s, k, l), s.fills);
    }
  }

  lemma PostLegs(s: State, i: nat, j: nat, bk: Booking)
    requires Legs(s) && At(s, i, j) && OnOwnLeg(BracketAt(s, i, j), bk)
    ensures Legs(PostOrThrow(s, i, j, bk).state)
  {
    if ValidFill(bk.fill) {
      PostRecordedLegs(s, i, j, bk);
    } else {
      SetLegs(s, PostOrThrow(s, i, j, bk).state, i, j, bk.bracket);
    }
  }

  lemma VisitLegs(s: State, pass: Pass, i: nat, j: nat)
    requires Legs(s) && At(s, i, j)
    ensures Legs(VisitOrThrow(s, pass, i, j).state)
  {
    var b := BracketAt(s, i, j);
    PlacedDistinct(s, i, j);
    if Visit(s.cfg, pass, b).Some? {
      VisitOnOwnLeg(s.cfg, pass, b);
      PostLegs(s, i, j, Visit(s.cfg, pass, b).value);
    }
  }

  lemma VisitOnOwnLeg(cfg: Config, pass: Pass, b: Bracket)
    requires Distinct(b.orders) && Visit(cfg, pass, b).Some?
    ensures OnOwnLeg(b, Visit(cfg, pass, b).value)
  {
  }

  ghost predicate LegEffect(b: Bracket, e: Effect)
  {
    SameIdentity(b, e.bracket) && (b.status == Closed ==> e.bracket.status == Closed) &&
    (e.booking.Some? ==> OnOwnLeg(e.bracket, e.booking.value))
  }

  lemma ModifyLegEffect(cfg: Config, marks: map<Ticker, Mark>, b: Bracket, m: Modification)
    requires Distinct(b.orders)
    ensures LegEffect(b, ModifyEffect(cfg, marks, b, m))
  {
  }

  lemma CallLegEffect(cfg: Config, marks: map<Ticker, Mark>, b: Bracket)
    requires Distinct(b.orders)
    ensures LegEffect(b, CancelEffect(cfg, marks, b))
    ensures b.status == Pending ==> LegEffect(b, PlaceEffect(cfg, marks, b))
  {
  }

  lemma ApplyLegs(s: State, i: nat, j: nat, e: Effect)
    requires Legs(s) && At(s, i, j) && LegEffect(BracketAt(s, i, j), e)
    ensures Legs(ApplyOrThrow(s, i, j, e).state)
  {
    SetLegs(s, SetBracket(s, i, j, e.bracket), i, j, e.bracket);
    if e.booking.Some? {
      PostLegs(SetBracket(s, i, j, e.bracket), i, j, e.booking.value);
    }
  }

  /** A state with no other brackets than before. */
  lemma SameBracketsLegs(s: State, t: State)
    requires Legs(s) && Layout(t) && t.fills == s.fills && t.owner == s.owner
    requires forall i, j :: At(t, i, j) ==> At(s, i, j) && BracketAt(t, i, j) == BracketAt(s, i, j)
    ensures Legs(t)
  {
    forall k, l | At(t, k, l) ensures LegsOf(BracketAt(t, k, l), t.fills) {
      assert LegsOf(BracketAt(s, k, l), s.fills);
    }
  }

  lemma EnsuredLegs(s: State, x: StrategyId)
    requires Legs(s)
    ensures Legs(Ensured(s, x))
  {
    EnsuredPlaces(s, x);
    SameBracketsLayout(s, Ensured(s, x));
    SameBracketsLegs(s, Ensured(s, x));
  }

  lemma RecordedLegs(s: State, r: Request)
    requires Legs(s)
    ensures Legs(Recorded(s, r))
  {
    EnsuredLegs(s, r.strategy);
    RecordedLayout(s, r);
    NewIdUnused(s);
    NewBracketUntouched(s, r);
    UntouchedLegs(NewBracket(s.lastId, r).orders, s.fills);
    var u, t := Ensured(s, r.strategy), Recorded(s, r);
    forall k, l | At(t, k, l) ensures LegsOf(BracketAt(t, k, l), t.fills) {
      RecordedPlaces(s, r, k, l);
      assert At(u, k, l) ==> LegsOf(BracketAt(u, k, l), u.fills);
    }
  }

  lemma ResetLegs(s: State, x: StrategyId)
    requires Legs(s)
    ensures Legs(Reset(s, x))
  {
    EnsuredLegs(s, x);
    ResetPlaces(s, x);
    SameBracketsLayout(Ensured(s, x), Reset(s, x));
    SameBracketsLegs(Ensured(s, x), Reset(s, x));
  }

  lemma MarkedLegs(s: State, ticker: Ticker, mk: Mark)
    requires Legs(s)
    ensures Legs(Marked(s, ticker, mk))
  {
    var t := Marked(s, ticker, mk);
    SameEverywhere(s, t);
    SameBracketsLayout(s, t);
    SameBracketsLegs(s, t);
  }

  lemma SameEverywhere(s: State, t: State)
    requires t.portfolios == s.portfolios
    ensures forall i, j :: At(t, i, j) ==> At(s, i, j) && BracketAt(t, i, j) == BracketAt(s, i, j)
  {
  }

  lemma DrainLegs(s: State, x: Option<StrategyId>)
    requires Legs(s)
    ensures Legs(Drain(s, x).0)
  {
    SameEverywhere(s, Drain(s, x).0);
    SameBracketsLayout(s, Drain(s, x).0);
    SameBracketsLegs(s, Drain(s, x).0);
  }

  lemma PlaceLegs(s: State, r: Request)
    requires Legs(s)
    ensures Legs(PlaceOrThrow(s, r).0)
  {
    if r.rung != LIVE {
      RecordedLegs(s, r);
      var t := Recorded(s, r);
      var i := PortfolioIndex(t.portfolios, r.strategy);
      var j := |t.portfolios[i].brackets| - 1;
      RecordedPlaces(s, r, i, j);
      PlacedDistinct(t, i, j);
      CallLegEffect(t.cfg, t.marks, BracketAt(t, i, j));
      ApplyLegs(t, i, j, PlaceEffect(t.cfg, t.marks, BracketAt(t, i, j)));
    }
  }

  lemma ModifyLegs(s: State, m: Modification)
    requires Legs(s)
    ensures Legs(ModifyOrThrow(s, m).0)
  {
    if Lookup(s, m.id).Some? {
      var (i, j) := Lookup(s, m.id).value;
      PlacedDistinct(s, i, j);
      ModifyLegEffect(s.cfg, s.marks, BracketAt(s, i, j), m);
      ApplyLegs(s, i, j, ModifyEffect(s.cfg, s.marks, BracketAt(s, i, j), m));
    }
  }

  lemma CancelLegs(s: State, id: nat)
    requires Legs(s)
    ensures Legs(CancelOrThrow(s, id).0)
  {
    if Lookup(s, id).Some? {
      var (i, j) := Lookup(s, id).value;
      PlacedDistinct(s, i, j);
      CallLegEffect(s.cfg, s.marks, BracketAt(s, i, j));
      ApplyLegs(s, i, j, CancelEffect(s.cfg, s.marks, BracketAt(s, i, j)));
    }
  }

  lemma MarketLegs(s: State, c: Command)
    requires Legs(s) && (c.Bar? || c.Tick?)
    ensures Legs(StepOrThrow(s, c).state)
  {
    forall t: State, ticker: Ticker, mk: Mark | Legs(t) ensures Legs(Marked(t, ticker, mk)) {
      MarkedLegs(t, ticker, mk);
    }
    forall t: State, pass: Pass, k: nat, l: nat | At(t, k, l) && Legs(t)
      ensures Legs(VisitOrThrow(t, pass, k, l).state) {
      VisitLegs(t, pass, k, l);
    }
    MarketKeeps(t => Legs(t), s, c);
  }

  lemma StepLegs(s: State, c: Command)
    requires Legs(s)
    ensures Legs(StepOrThrow(s, c).state)
  {
    match c
    case Bar(bar) => MarketLegs(s, c);
    case Tick(q) => MarketLegs(s, c);
    case PlaceBracket(r) => PlaceLegs(s, r);
    case ModifyBracket(m) => ModifyLegs(s, m);
    case CancelBracket(id) => CancelLegs(s, id);
    case ResetPortfolio(x) => ResetLegs(s, x);
    case DrainClosed(x) => DrainLegs(s, x);
    case ReadPortfolio(x) => EnsuredLegs(s, x);
  }

  lemma {:induction false} RunLegs(cfg: Config, cs: seq<Command>)
    ensures Legs(RunOrThrow(cfg, cs).state)
  {
    if |cs| > 0 {
      RunLegs(cfg, cs[..|cs| - 1]);
      StepLegs(RunOrThrow(cfg, cs[..|cs| - 1]).state, cs[|cs| - 1]);
    }
  }

  lemma OwnerGrows(s: State, c: Command)
    ensures s.owner.Keys <= StepOrThrow(s, c).state.owner.Keys
  {
    if c.Bar? || c.Tick? {
      var ids := s.owner.Keys;
      MarketKeeps((t: State) => ids <= t.owner.Keys, s, c);
    } else {
      CallBooks(s, c);
    }
  }

  lemma {:induction false} OwnersStay(cfg: Config, cs: seq<Command>, n: nat)
    requires n <= |cs|
    ensures RunOrThrow(cfg, cs[..n]).state.owner.Keys <= RunOrThrow(cfg, cs).state.owner.Keys
  {
    if n == |cs| {
      assert cs[..n] == cs;
    } else {
      var ds := cs[..|cs| - 1];
      assert ds[..n] == cs[..n];
      OwnersStay(cfg, ds, n);
      OwnerGrows(RunOrThrow(cfg, ds).state, cs[|cs| - 1]);
    }
  }

  lemma {:induction false} TwoLegs(o: Orders, fs: seq<Fill>, p: nat, q: nat)
    requires p < q < |fs| && OnLeg(o, fs[p]) && OnLeg(o, fs[q])
    ensures LegFills(o, fs) >= 2
  {
    if q < |fs| - 1 {
      TwoLegs(o, fs[..|fs| - 1], p, q);
    } else {
      OneLeg(o, fs[..|fs| - 1], p);
    }
  }

  lemma {:induction false} OneLeg(o: Orders, fs: seq<Fill>, p: nat)
    requires p < |fs| && OnLeg(o, fs[p])
    ensures LegFills(o, fs) >= 1
  {
    if p < |fs| - 1 {
      OneLeg(o, fs[..|fs| - 1], p);
    }
  }

  lemma LegsById(s: State, i: nat, j: nat, f: Fill)
    requires Layout(s) && At(s, i, j)
    ensures var b := BracketAt(s, i, j); b.id in s.owner.Keys && (OnLeg(b.orders, f) ==> OnLeg(IdOrders(b.id), f))
  {
    assert Placed(s, s.portfolios[i].strategy, BracketAt(s, i, j));
  }

  /**
   A bracket never realizes both legs, nor one of them twice: of all the fills a run
   records, throws or not, at most one is on the stop or the target of a bracket that
   was ever placed, also if its portfolio has been reset since.
   */
  lemma NeverBothLegs(cfg: Config, cs: seq<Command>, n: nat, i: nat, j: nat, p: nat, q: nat)
    requires n <= |cs| && At(RunOrThrow(cfg, cs[..n]).state, i, j)
    requires p < q < |RunOrThrow(cfg, cs).state.fills|
    ensures var b, fs := BracketAt(RunOrThrow(cfg, cs[..n]).state, i, j), RunOrThrow(cfg, cs).state.fills;
      !OnLeg(b.orders, fs[p]) || !OnLeg(b.orders, fs[q])
  {
    var s, fs := RunOrThrow(cfg, cs[..n]).state, RunOrThrow(cfg, cs).state.fills;
    var b := BracketAt(s, i, j);
    RunLegs(cfg, cs[..n]);
    RunLegs(cfg, cs);
    OwnersStay(cfg, cs, n);
    LegsById(s, i, j, fs[p]);
    LegsById(s, i, j, fs[q]);
    if OnLeg(b.orders, fs[p]) && OnLeg(b.orders, fs[q]) {
      TwoLegs(IdOrders(b.id), fs, p, q);
    }
  }
}
