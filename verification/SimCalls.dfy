/** What a strategy's calls do to its brackets, in the caller's terms. */
module SimCalls {
  import opened Market
  import opened Money
  import opened SimModel
  import opened SimLedger
  import opened SimRuns
  import opened SimLifecycle
  import opened SimActual
  import opened SimEvents

  // ---- One effect on one bracket ----------------------------------------------------------------------

  /** What an effect, thrown or not, leaves of the bracket it is for, and of every other. */
  lemma EffectLands(s: State, i: nat, j: nat, e: Effect)
    requires At(s, i, j)
    ensures var t := ApplyOrThrow(s, i, j, e).state;
      At(t, i, j) && BracketAt(t, i, j) == (if e.booking.Some? then e.booking.value.bracket else e.bracket) &&
      t.marks == s.marks && OthersStay(s, t, i, j)
    ensures ApplyOrThrow(s, i, j, e).threw <==> e.booking.Some? && !ValidFill(e.booking.value.fill)
    ensures e.booking.Some? && ValidFill(e.booking.value.fill) ==>
      Written(s, ApplyOrThrow(s, i, j, e).state, e.booking.value.fill)
  {
    var t := ApplyOrThrow(s, i, j, e).state;
    if e.booking.Some? && ValidFill(e.booking.value.fill) {
      assert t.fills[|s.fills|] == e.booking.value.fill;
    }
  }

  ghost predicate OthersStay(s: State, t: State, i: nat, j: nat)
  {
    forall k: nat, l: nat :: At(s, k, l) && (k != i || l != j) ==> At(t, k, l) && BracketAt(t, k, l) == BracketAt(s, k, l)
  }

  /** An execution of part or all of a bracket on its parent order: recorded, or refused for its price. */
  ghost predicate Executed(s: State, t: State, o: Outcome, f: Fill)
  {
    o == (if f.price >= 1 then Done else Refused) && (o == Done ==> Written(s, t, f))
  }

  // ---- Modify ----------------------------------------------------------------------------------------

  /** The levels a modification names, at the prices it names; any other level stays. */
  ghost predicate Relevelled(b: Bracket, m: Modification, c: Bracket)
  {
    c.stop == (match m.newStop case Some(stop) => stop case None => b.stop) &&
    c.target == (match m.newTarget case Some(_) => m.newTarget case None => b.target)
  }

  /** Beside its levels a bracket stays as it is. */
  ghost predicate SameButLevels(b: Bracket, c: Bracket)
  {
    c == b.(stop := c.stop, target := c.target)
  }

  /** Part of an open bracket is sold or bought back at its ticker's mark, its P&L booked. */
  ghost predicate CutDown(s: State, t: State, o: Outcome, b: Bracket, c: Bracket, qty: Shares, mk: Mark)
    requires b.entryPrice.Some? && qty < b.qty
  {
    var price, out := ExitCents(s.cfg, b.side, mk.quote), b.qty - qty;
    c == b.(stop := c.stop, target := c.target, qty := qty,
            realized := b.realized + Gain(s.cfg, b.side, out, b.entryPrice.value, price)) &&
    Executed(s, t, o, ExitFill(s.cfg, b.(qty := out), Some(b.orders.parent), price, mk.ts))
  }

  lemma ModifyLands(s: State, m: Modification)
    requires Lookup(s, m.id).Some?
    ensures var (i, j) := Lookup(s, m.id).value;
      var e := ModifyEffect(s.cfg, s.marks, BracketAt(s, i, j), m);
      var r := ApplyOrThrow(s, i, j, e);
      ModifyOrThrow(s, m) == (r.state, if r.threw then Refused else e.outcome)
  {
  }

  lemma PartIs(cfg: Config, b: Bracket, qty: Shares, book: BidAsk, ts: int)
    requires b.status == Open && qty < b.qty
    ensures var price := ExitCents(cfg, b.side, book);
      ExitPart(cfg, b, qty, book, ts).bracket ==
        b.(qty := b.qty - qty, realized := b.realized + Gain(cfg, b.side, qty, b.entryPrice.value, price)) &&
      ExitPart(cfg, b, qty, book, ts).fill == ExitFill(cfg, b.(qty := qty), Some(b.orders.parent), price, ts)
  {
    ExitPriceIs(cfg, b.side, book);
    GainIs(cfg, b.side, qty, b.entryPrice.value, ExitCents(cfg, b.side, book));
  }

  /**
   A modification of a working bracket sets exactly the levels it names, whatever becomes
   of the quantity; a smaller quantity resizes a pending bracket and scales out of an open
   one; an equal or larger one is refused.  Brackets that are not working stay.
   */
  lemma ModifyExactly(s: State, m: Modification)
    requires Lookup(s, m.id).Some?
    ensures var (i, j) := Lookup(s, m.id).value;
      var (t, o) := ModifyOrThrow(s, m);
      At(t, i, j) && OthersStay(s, t, i, j) &&
      var b, c := BracketAt(s, i, j), BracketAt(t, i, j);
      if b.status == Closed || b.status == Cancelled then c == b && o == NotWorking
      else
        Relevelled(b, m, c) &&
        if m.newQty.None? then SameButLevels(b, c) && o == Done
        else if m.newQty.value >= b.qty then SameButLevels(b, c) && o == NotDownward
        else if b.status == Pending then c == b.(stop := c.stop, target := c.target, qty := m.newQty.value) && o == Done
        else if b.ticker !in s.marks then SameButLevels(b, c) && o == NoMarket
        else CutDown(s, t, o, b, c, m.newQty.value, s.marks[b.ticker])
  {
    var (i, j) := Lookup(s, m.id).value;
    var b := BracketAt(s, i, j);
    ModifyLands(s, m);
    EffectLands(s, i, j, ModifyEffect(s.cfg, s.marks, b, m));
    if b.status == Open && m.newQty.Some? && m.newQty.value < b.qty && b.ticker in s.marks {
      PartIs(s.cfg, Moved(b, m), b.qty - m.newQty.value, s.marks[b.ticker].quote, s.marks[b.ticker].ts);
    }
  }

  // ---- Cancel ----------------------------------------------------------------------------------------

  /** A pending bracket is cancelled, an open one leaves in full at its ticker's mark, any other stays. */
  lemma CancelExactly(s: State, id: nat)
    requires Lookup(s, id).Some?
    ensures var (i, j) := Lookup(s, id).value;
      var (t, o) := CancelOrThrow(s, id);
      At(t, i, j) && OthersStay(s, t, i, j) &&
      var b, c := BracketAt(s, i, j), BracketAt(t, i, j);
      match b.status
      case Pending => c == b.(status := Cancelled) && o == Done
      case Open =>
        if b.ticker !in s.marks then c == b && o == NoMarket
        else
          var mk := s.marks[b.ticker];
          var price := ExitCents(s.cfg, b.side, mk.quote);
          c == OutAt(s.cfg, b, price, mk.ts) &&
          Executed(s, t, o, ExitFill(s.cfg, b, Some(b.orders.parent), price, mk.ts))
      case Closed => c == b && o == Done
      case Cancelled => c == b && o == Done
  {
    var (i, j) := Lookup(s, id).value;
    var b := BracketAt(s, i, j);
    EffectLands(s, i, j, CancelEffect(s.cfg, s.marks, b));
    if b.status == Open && b.ticker in s.marks {
      ExitAllIs(s.cfg, b, Some(b.orders.parent), s.marks[b.ticker].quote, s.marks[b.ticker].ts);
    }
  }

  /** No call on an unknown bracket changes anything. */
  lemma UnknownUntouched(s: State, m: Modification, id: nat)
    requires Lookup(s, m.id).None? && Lookup(s, id).None?
    ensures ModifyOrThrow(s, m) == (s, UnknownBracket) && CancelOrThrow(s, id) == (s, UnknownBracket)
  {
  }

  // ---- Place -----------------------------------------------------------------------------------------

  /** A bracket on a request's terms that nothing has happened to. */
  ghost predicate OnTerms(b: Bracket, r: Request)
  {
    b.strategy == r.strategy && b.ticker == r.ticker && b.side == r.side && b.qty == r.qty &&
    b.entry == r.entry && b.stop == r.stop && b.target == r.target &&
    (b.orders.target.Some? <==> r.target.Some?) &&
    b.status == Pending && b.realized == 0 &&
    b.entryPrice.None? && b.openedAt.None? && b.exitPrice.None? && b.closedAt.None?
  }

  /** The new bracket comes last in its strategy's book. */
  function LastPlace(s: State, x: StrategyId): (int, int)
  {
    var i := PortfolioIndex(s.portfolios, x);
    (i, if i < |s.portfolios| then |s.portfolios[i].brackets| - 1 else -1)
  }

  /**
   Placing on the LIVE rung is refused and changes nothing.  On any other rung every
   bracket stays and one on the request's terms comes last in the strategy's book; a market
   entry on a ticker with a mark enters there and then.
   */
  lemma PlaceExactly(s: State, r: Request)
    ensures r.rung == LIVE ==> PlaceOrThrow(s, r) == (s, LiveLocked)
    ensures var (t, o) := PlaceOrThrow(s, r);
      var (i, j) := LastPlace(t, r.strategy);
      r.rung != LIVE ==>
        At(t, i, j) && !At(s, i, j) &&
        exists b: Bracket :: OnTerms(b, r) && Placement(s, t, o, b, BracketAt(t, i, j))
  {
    if r.rung != LIVE {
      PlacesLast(s, r);
      var u, b := Recorded(s, r), NewBracket(s.lastId, r);
      var i := PortfolioIndex(u.portfolios, r.strategy);
      var j := |u.portfolios[i].brackets| - 1;
      EffectLands(u, i, j, PlaceEffect(u.cfg, u.marks, b));
      PlacementOf(s, u, i, j, b);
      assert OnTerms(b, r);
    }
  }

  ghost predicate Placement(s: State, t: State, o: Outcome, b: Bracket, c: Bracket)
  {
    if b.entry.MarketEntry? && b.ticker in s.marks then
      var mk := s.marks[b.ticker];
      var price := EntryCents(s.cfg, b.side, mk.quote);
      c == InAt(b, price, mk.ts) && Executed(s, t, o, EntryFill(s.cfg, b, price, mk.ts))
    else c == b && o == Done
  }

  lemma PlacesLast(s: State, r: Request)
    requires r.rung != LIVE
    ensures var u := Recorded(s, r);
      var i := PortfolioIndex(u.portfolios, r.strategy);
      var j := |u.portfolios[i].brackets| - 1;
      At(u, i, j) && !At(s, i, j) && BracketAt(u, i, j) == NewBracket(s.lastId, r) &&
      LastPlace(PlaceOrThrow(s, r).0, r.strategy) == (i, j) &&
      u.cfg == s.cfg && u.marks == s.marks && u.fills == s.fills
  {
    RecordedAtEnd(s, r);
    var u, t := Recorded(s, r), PlaceOrThrow(s, r).0;
    assert forall k :: 0 <= k < |u.portfolios| ==> t.portfolios[k].strategy == u.portfolios[k].strategy;
    assert PortfolioIndex(t.portfolios, r.strategy) == PortfolioIndex(u.portfolios, r.strategy);
  }

  lemma PlacementOf(s: State, u: State, i: nat, j: nat, b: Bracket)
    requires At(u, i, j) && b.status == Pending && u.cfg == s.cfg && u.marks == s.marks && u.fills == s.fills
    ensures var r := ApplyOrThrow(u, i, j, PlaceEffect(u.cfg, u.marks, b));
      At(r.state, i, j) && Placement(s, r.state, if r.threw then Refused else Done, b, BracketAt(r.state, i, j))
  {
    EffectLands(u, i, j, PlaceEffect(u.cfg, u.marks, b));
    if b.entry.MarketEntry? && b.ticker in s.marks {
      EnterIs(s.cfg, b, s.marks[b.ticker].quote, s.marks[b.ticker].ts);
    }
  }

  /** Placing leaves every bracket there was in its place. */
  lemma PlaceKeepsOthers(s: State, r: Request, k: nat, l: nat)
    requires At(s, k, l)
    ensures At(PlaceOrThrow(s, r).0, k, l) && BracketAt(PlaceOrThrow(s, r).0, k, l) == BracketAt(s, k, l)
  {
    PlaceBooks(s, r);
    if r.rung != LIVE {
      StillAt(s, r, k, l);
      RecordedOrigin(s, r, k, l);
    }
  }

  lemma StillAt(s: State, r: Request, k: nat, l: nat)
    requires At(s, k, l) && r.rung != LIVE
    ensures At(Place(s, r).0, k, l)
  {
    assert Ensured(s, r.strategy).portfolios[k] == s.portfolios[k];
    assert At(Recorded(s, r), k, l);
  }

  // ---- Reset -----------------------------------------------------------------------------------------

  /** A reset leaves one portfolio with its starting cash and nothing else, and nothing else changed. */
  lemma ResetExactly(s: State, x: StrategyId)
    ensures var t := Reset(s, x); var i := PortfolioIndex(t.portfolios, x);
      i < |t.portfolios| && t.portfolios[i].cash == t.portfolios[i].startingCash && t.portfolios[i].realized == 0 &&
      t.portfolios[i].brackets == [] &&
      (forall k :: 0 <= k < |s.portfolios| && s.portfolios[k].strategy != x ==>
        k < |t.portfolios| && t.portfolios[k] == s.portfolios[k]) &&
      t == s.(portfolios := t.portfolios)
  {
    var u, t := Ensured(s, x), Reset(s, x);
    assert forall k :: 0 <= k < |u.portfolios| ==> t.portfolios[k].strategy == u.portfolios[k].strategy;
    assert PortfolioIndex(t.portfolios, x) == PortfolioIndex(u.portfolios, x);
  }

  // ---- Starting cash -----------------------------------------------------------------------------------

  ghost predicate StartsWith(s: State, cash: int)
  {
    s.cfg.startingCash == cash && forall i :: 0 <= i < |s.portfolios| ==> s.portfolios[i].startingCash == cash
  }

  lemma StepStarts(s: State, c: Command, cash: int)
    requires StartsWith(s, cash)
    ensures StartsWith(StepOrThrow(s, c).state, cash)
  {
    if c.Bar? || c.Tick? {
      MarketKeeps((t: State) => StartsWith(t, cash), s, c);
    } else {
      CallBooks(s, c);
      CallStarts(s, c, cash);
    }
  }

  lemma EnsuredStarts(s: State, x: StrategyId, cash: int)
    requires StartsWith(s, cash)
    ensures StartsWith(Ensured(s, x), cash)
  {
  }

  lemma ApplyStarts(s: State, i: nat, j: nat, e: Effect, cash: int)
    requires StartsWith(s, cash) && At(s, i, j)
    ensures StartsWith(Apply(s, i, j, e), cash)
  {
  }

  lemma PlaceStarts(s: State, r: Request, cash: int)
    requires StartsWith(s, cash)
    ensures StartsWith(Place(s, r).0, cash)
  {
    if r.rung != LIVE {
      EnsuredStarts(s, r.strategy, cash);
      var t := Recorded(s, r);
      var i := PortfolioIndex(t.portfolios, r.strategy);
      var j := |t.portfolios[i].brackets| - 1;
      ApplyStarts(t, i, j, PlaceEffect(t.cfg, t.marks, BracketAt(t, i, j)), cash);
    }
  }

  lemma CallStarts(s: State, c: Command, cash: int)
    requires StartsWith(s, cash) && !c.Bar? && !c.Tick?
    ensures StartsWith(Step(s, c), cash)
  {
    match c
    case PlaceBracket(r) => PlaceStarts(s, r, cash);
    case ModifyBracket(m) =>
      if Lookup(s, m.id).Some? {
        var (i, j) := Lookup(s, m.id).value;
        ApplyStarts(s, i, j, ModifyEffect(s.cfg, s.marks, BracketAt(s, i, j), m), cash);
      }
    case CancelBracket(id) =>
      if Lookup(s, id).Some? {
        var (i, j) := Lookup(s, id).value;
        ApplyStarts(s, i, j, CancelEffect(s.cfg, s.marks, BracketAt(s, i, j)), cash);
      }
    case ResetPortfolio(x) => EnsuredStarts(s, x, cash);
    case DrainClosed(x) =>
    case ReadPortfolio(x) => EnsuredStarts(s, x, cash);
  }

  /** Every portfolio starts, and restarts, with the configured cash. */
  lemma {:induction false} RunStarts(cfg: Config, cs: seq<Command>)
    ensures StartsWith(RunOrThrow(cfg, cs).state, cfg.startingCash)
  {
    if |cs| > 0 {
      RunStarts(cfg, cs[..|cs| - 1]);
      StepStarts(RunOrThrow(cfg, cs[..|cs| - 1]).state, cs[|cs| - 1], cfg.startingCash);
    }
  }
}
