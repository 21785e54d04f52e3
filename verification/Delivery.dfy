/** The exchange and the governor together: what brackets close is what the governor is told. */
module Delivery {
  import opened Market
  import opened Money
  import M = SimModel
  import A = SimActual
  import T = SimTrades
  import G = Governor
  import H = HandOff

  // ---- Closed trades are only appended ------------------------------------------------------

  function Cleared(s: M.State): M.State
  {
    s.(closed := [])
  }

  /** What a command adds to the closed trades. */
  function Added(s: M.State, c: M.Command): seq<M.ClosedTrade>
  {
    A.StepOrThrow(Cleared(s), c).state.closed
  }

  /** A state with more closed trades before its own. */
  function After(ts: seq<M.ClosedTrade>, s: M.State): M.State
  {
    s.(closed := ts + s.closed)
  }

  function AfterAll(ts: seq<M.ClosedTrade>, r: A.Result): A.Result
  {
    A.Result(After(ts, r.state), r.threw)
  }

  lemma {:induction false} SweepAppends(ts: seq<M.ClosedTrade>, s: M.State, pass: M.Pass, i: nat, j: nat)
    ensures A.SweepOrThrow(After(ts, s), pass, i, j) == AfterAll(ts, A.SweepOrThrow(s, pass, i, j))
    decreases |s.portfolios| - i, if i < |s.portfolios| then |s.portfolios[i].brackets| - j else 0
  {
    if i >= |s.portfolios| {
    } else if j >= |s.portfolios[i].brackets| {
      SweepAppends(ts, s, pass, i + 1, 0);
    } else {
      VisitAppends(ts, s, pass, i, j);
      var v := A.VisitOrThrow(s, pass, i, j);
      if !v.threw {
        SweepAppends(ts, v.state, pass, i, j + 1);
      }
    }
  }

  lemma PostAppends(ts: seq<M.ClosedTrade>, s: M.State, i: nat, j: nat, bk: M.Booking)
    requires M.At(s, i, j)
    ensures A.PostOrThrow(After(ts, s), i, j, bk) == AfterAll(ts, A.PostOrThrow(s, i, j, bk))
  {
    if bk.trade.Some? {
      assert ts + s.closed + [bk.trade.value] == ts + (s.closed + [bk.trade.value]);
    }
  }

  lemma VisitAppends(ts: seq<M.ClosedTrade>, s: M.State, pass: M.Pass, i: nat, j: nat)
    requires M.At(s, i, j)
    ensures A.VisitOrThrow(After(ts, s), pass, i, j) == AfterAll(ts, A.VisitOrThrow(s, pass, i, j))
  {
    match M.Visit(s.cfg, pass, M.BracketAt(s, i, j))
    case None =>
    case Some(bk) => PostAppends(ts, s, i, j, bk);
  }

  lemma ApplyAppends(ts: seq<M.ClosedTrade>, s: M.State, i: nat, j: nat, e: M.Effect)
    requires M.At(s, i, j)
    ensures A.ApplyOrThrow(After(ts, s), i, j, e) == AfterAll(ts, A.ApplyOrThrow(s, i, j, e))
  {
    if e.booking.Some? {
      PostAppends(ts, M.SetBracket(s, i, j, e.bracket), i, j, e.booking.value);
    }
  }

  lemma BarAppends(ts: seq<M.ClosedTrade>, s: M.State, bar: Candle)
    ensures A.BarOrThrow(After(ts, s), bar) == AfterAll(ts, A.BarOrThrow(s, bar))
  {
    var quote := Synthesize(bar.close, s.cfg.spreadBps);
    var marked := A.Marked(s, bar.ticker, M.Mark(quote, bar.ts));
    var entries := M.Entries(bar.ticker, quote, bar.ts, Some(bar));
    SweepAppends(ts, marked, entries, 0, 0);
    SweepAppends(ts, A.SweepOrThrow(marked, entries, 0, 0).state, M.Exits(bar), 0, 0);
  }

  lemma QuoteAppends(ts: seq<M.ClosedTrade>, s: M.State, q: Quote)
    ensures A.QuoteOrThrow(After(ts, s), q) == AfterAll(ts, A.QuoteOrThrow(s, q))
  {
    if M.Book(q).Some? {
      var book := M.Book(q).value;
      SweepAppends(ts, A.Marked(s, q.ticker, M.Mark(book, q.ts)), M.Entries(q.ticker, book, q.ts, None), 0, 0);
    }
  }

  lemma RecordedAppends(ts: seq<M.ClosedTrade>, s: M.State, r: M.Request)
    ensures M.Recorded(After(ts, s), r) == After(ts, M.Recorded(s, r))
  {
  }

  lemma PlaceAppends(ts: seq<M.ClosedTrade>, s: M.State, r: M.Request)
    ensures A.PlaceOrThrow(After(ts, s), r).0 == After(ts, A.PlaceOrThrow(s, r).0)
  {
    if r.rung != M.LIVE {
      RecordedAppends(ts, s, r);
      var t := M.Recorded(s, r);
      var i := M.PortfolioIndex(t.portfolios, r.strategy);
      var j := |t.portfolios[i].brackets| - 1;
      ApplyAppends(ts, t, i, j, M.PlaceEffect(t.cfg, t.marks, M.BracketAt(t, i, j)));
    }
  }

  lemma ModifyAppends(ts: seq<M.ClosedTrade>, s: M.State, m: M.Modification)
    ensures A.ModifyOrThrow(After(ts, s), m).0 == After(ts, A.ModifyOrThrow(s, m).0)
  {
    if M.Lookup(s, m.id).Some? {
      var (i, j) := M.Lookup(s, m.id).value;
      ApplyAppends(ts, s, i, j, M.ModifyEffect(s.cfg, s.marks, M.BracketAt(s, i, j), m));
    }
  }

  lemma CancelAppends(ts: seq<M.ClosedTrade>, s: M.State, id: nat)
    ensures A.CancelOrThrow(After(ts, s), id).0 == After(ts, A.CancelOrThrow(s, id).0)
  {
    if M.Lookup(s, id).Some? {
      var (i, j) := M.Lookup(s, id).value;
      ApplyAppends(ts, s, i, j, M.CancelEffect(s.cfg, s.marks, M.BracketAt(s, i, j)));
    }
  }

  /** Any command but a drain appends to the closed trades, and never looks at those already there. */
  lemma StepAppends(s: M.State, c: M.Command)
    requires !c.DrainClosed?
    ensures A.StepOrThrow(s, c).state.closed == s.closed + Added(s, c)
    ensures Cleared(A.StepOrThrow(s, c).state) == Cleared(A.StepOrThrow(Cleared(s), c).state)
  {
    assert After(s.closed, Cleared(s)) == s;
    match c
    case Bar(bar) => BarAppends(s.closed, Cleared(s), bar);
    case Tick(q) => QuoteAppends(s.closed, Cleared(s), q);
    case PlaceBracket(r) => PlaceAppends(s.closed, Cleared(s), r);
    case ModifyBracket(m) => ModifyAppends(s.closed, Cleared(s), m);
    case CancelBracket(id) => CancelAppends(s.closed, Cleared(s), id);
    case ResetPortfolio(x) =>
    case ReadPortfolio(x) =>
  }

  // ---- Both together ----------------------------------------------------------------------------

  /** A command to the exchange, or an event of the governor; a monitor tick drains its strategy. */
  datatype Event = Exchange(c: M.Command) | Governor(e: H.Event)

  datatype World = World(sim: M.State, counts: G.Counts, notes: seq<H.Note>)

  /** Nobody but the monitor drains, and trades close in the exchange only. */
  ghost predicate Proper(es: seq<Event>)
  {
    forall n :: 0 <= n < |es| ==> match es[n] case Exchange(c) => !c.DrainClosed? case Governor(e) => !e.Close?
  }

  function Told(w: World): H.World
  {
    H.World(w.counts, w.sim.closed, w.notes)
  }

  function Step(p: G.Params, w: World, e: Event): World
  {
    match e
    case Exchange(c) => w.(sim := A.StepOrThrow(w.sim, c).state)
    case Governor(g) =>
      var h := H.Step(p, Told(w), g);
      World(w.sim.(closed := h.buffer), h.counts, h.notes)
  }

  function Run(cfg: M.Config, p: G.Params, es: seq<Event>): World
  {
    if |es| == 0 then World(M.Init(cfg), map[], []) else Step(p, Run(cfg, p, es[..|es| - 1]), es[|es| - 1])
  }

  /** The commands alone. */
  function Commands(es: seq<Event>): seq<M.Command>
  {
    if |es| == 0 then [] else
    Commands(es[..|es| - 1]) + if es[|es| - 1].Exchange? then [es[|es| - 1].c] else []
  }

  /** The exchange as the commands alone leave it. */
  function Undrained(cfg: M.Config, es: seq<Event>): M.State
  {
    A.RunOrThrow(cfg, Commands(es)).state
  }

  function Closings(ts: seq<M.ClosedTrade>): seq<H.Event>
  {
    seq(|ts|, i requires 0 <= i < |ts| => H.Close(ts[i]))
  }

  /** The run as the governor's side sees it. */
  function Seen(cfg: M.Config, p: G.Params, es: seq<Event>): seq<H.Event>
  {
    if |es| == 0 then [] else
    Seen(cfg, p, es[..|es| - 1]) +
    match es[|es| - 1]
    case Exchange(c) => Closings(Added(Run(cfg, p, es[..|es| - 1]).sim, c))
    case Governor(g) => [g]
  }

  lemma {:induction false} ClosingsOn(p: G.Params, hs: seq<H.Event>, ts: seq<M.ClosedTrade>)
    ensures H.Run(p, hs + Closings(ts)) == H.Run(p, hs).(buffer := H.Run(p, hs).buffer + ts)
    ensures H.Closes(hs + Closings(ts)) == H.Closes(hs) + ts
  {
    if |ts| == 0 {
      assert hs + Closings(ts) == hs;
    } else {
      var init, last := ts[..|ts| - 1], ts[|ts| - 1];
      ClosingsOn(p, hs, init);
      LastClosing(hs, ts);
      OneMore(p, hs + Closings(init), H.Close(last));
      assert ts == init + [last];
    }
  }

  lemma LastClosing(hs: seq<H.Event>, ts: seq<M.ClosedTrade>)
    requires |ts| > 0
    ensures hs + Closings(ts) == hs + Closings(ts[..|ts| - 1]) + [H.Close(ts[|ts| - 1])]
  {
    assert Closings(ts) == Closings(ts[..|ts| - 1]) + [H.Close(ts[|ts| - 1])];
  }

  lemma OneMore(p: G.Params, hs: seq<H.Event>, e: H.Event)
    ensures H.Run(p, hs + [e]) == H.Step(p, H.Run(p, hs), e)
    ensures H.Closes(hs + [e]) == H.Closes(hs) + if e.Close? then [e.trade] else []
  {
    assert (hs + [e])[..|hs|] == hs;
  }

  /** The exchange runs as it would undrained, and the governor as it would on what closes. */
  ghost predicate Joined(cfg: M.Config, p: G.Params, es: seq<Event>)
  {
    var w := Run(cfg, p, es);
    Told(w) == H.Run(p, Seen(cfg, p, es)) &&
    Cleared(w.sim) == Cleared(Undrained(cfg, es)) &&
    H.Closes(Seen(cfg, p, es)) == Undrained(cfg, es).closed
  }

  lemma ExchangeJoins(cfg: M.Config, p: G.Params, es: seq<Event>, c: M.Command)
    requires Joined(cfg, p, es) && !c.DrainClosed?
    ensures Joined(cfg, p, es + [Exchange(c)])
  {
    var w, cs := Run(cfg, p, es), Commands(es);
    assert (es + [Exchange(c)])[..|es|] == es;
    assert (cs + [c])[..|cs|] == cs;
    StepAppends(w.sim, c);
    StepAppends(A.RunOrThrow(cfg, cs).state, c);
    ClosingsOn(p, Seen(cfg, p, es), Added(w.sim, c));
  }

  lemma GovernorJoins(cfg: M.Config, p: G.Params, es: seq<Event>, e: H.Event)
    requires Joined(cfg, p, es) && !e.Close?
    ensures Joined(cfg, p, es + [Governor(e)])
  {
    GovernorOn(cfg, p, es, e);
    OneMore(p, Seen(cfg, p, es), e);
    GovernorKeepsSim(p, Run(cfg, p, es), e);
  }

  lemma GovernorOn(cfg: M.Config, p: G.Params, es: seq<Event>, e: H.Event)
    ensures Run(cfg, p, es + [Governor(e)]) == Step(p, Run(cfg, p, es), Governor(e))
    ensures Seen(cfg, p, es + [Governor(e)]) == Seen(cfg, p, es) + [e]
    ensures Commands(es + [Governor(e)]) == Commands(es)
  {
    assert (es + [Governor(e)])[..|es|] == es;
  }

  lemma GovernorKeepsSim(p: G.Params, w: World, e: H.Event)
    ensures Told(Step(p, w, Governor(e))) == H.Step(p, Told(w), e)
    ensures Cleared(Step(p, w, Governor(e)).sim) == Cleared(w.sim)
  {
  }

  lemma {:induction false} RunJoins(cfg: M.Config, p: G.Params, es: seq<Event>)
    requires Proper(es)
    ensures Joined(cfg, p, es)
  {
    if |es| > 0 {
      var rest := es[..|es| - 1];
      RunJoins(cfg, p, rest);
      assert es == rest + [es[|es| - 1]];
      match es[|es| - 1]
      case Exchange(c) => ExchangeJoins(cfg, p, rest, c);
      case Governor(e) => GovernorJoins(cfg, p, rest, e);
    }
  }

  // ---- Each bracket's trade, once ---------------------------------------------------------------

  /** What the governor knows of a strategy, and what still waits for it. */
  function Reaching(w: World, x: StrategyId): seq<M.ClosedTrade>
  {
    H.Delivered(x, w.notes) + M.Of(x, w.sim.closed)
  }

  lemma ReachingIsClosed(cfg: M.Config, p: G.Params, es: seq<Event>, x: StrategyId)
    requires Proper(es)
    ensures Reaching(Run(cfg, p, es), x) == M.Of(x, Undrained(cfg, es).closed)
  {
    RunJoins(cfg, p, es);
    H.DeliveredExactlyOnce(p, Seen(cfg, p, es), x);
  }

  lemma {:induction false} InByBracket(id: nat, ts: seq<M.ClosedTrade>, n: nat)
    requires n < |ts| && ts[n].bracket == id
    ensures ts[n] in T.ByBracket(id, ts)
  {
    if n < |ts| - 1 {
      InByBracket(id, ts[..|ts| - 1], n);
    }
  }

  lemma {:induction false} OfByBracket(x: StrategyId, id: nat, ts: seq<M.ClosedTrade>)
    ensures |T.ByBracket(id, M.Of(x, ts))| <= |T.ByBracket(id, ts)|
    ensures (forall n :: 0 <= n < |ts| && ts[n].bracket == id ==> ts[n].strategy == x) ==>
      T.ByBracket(id, M.Of(x, ts)) == T.ByBracket(id, ts)
  {
    if |ts| > 0 {
      var init, t := ts[..|ts| - 1], ts[|ts| - 1];
      OfByBracket(x, id, init);
      if t.strategy == x {
        T.ByBracketAppend(id, M.Of(x, init), t);
      }
    }
  }

  lemma {:induction false} CommandsProper(es: seq<Event>)
    requires Proper(es)
    ensures T.NeverDrained(Commands(es))
  {
    if |es| > 0 {
      CommandsProper(es[..|es| - 1]);
    }
  }

  /**
   Whatever the interleaving of commands, monitor ticks, entries, clears and questions,
   and whatever throws: a closed bracket's trade is among what the governor knows or
   what waits for it, exactly once; a bracket that is not closed has none there; and no
   bracket has two.
   */
  lemma EachBracketOnce(cfg: M.Config, p: G.Params, es: seq<Event>, i: nat, j: nat, id: nat, x: StrategyId)
    requires Proper(es) && M.At(Run(cfg, p, es).sim, i, j)
    ensures var w := Run(cfg, p, es); var b := M.BracketAt(w.sim, i, j);
      T.ByBracket(b.id, Reaching(w, b.strategy)) == (if b.status == M.Closed then [T.TradeOf(b)] else []) &&
      |T.ByBracket(id, Reaching(w, x))| <= 1
  {
    var s, b := Undrained(cfg, es), M.BracketAt(Run(cfg, p, es).sim, i, j);
    RunJoins(cfg, p, es);
    CommandsProper(es);
    assert s.portfolios == Run(cfg, p, es).sim.portfolios;
    T.OneTradeEach(cfg, Commands(es), i, j, id);
    ReachingIsClosed(cfg, p, es, b.strategy);
    ReachingIsClosed(cfg, p, es, x);
    OfByBracket(x, id, s.closed);
    forall n | 0 <= n < |s.closed| && s.closed[n].bracket == b.id ensures s.closed[n].strategy == b.strategy {
      InByBracket(b.id, s.closed, n);
    }
    OfByBracket(b.strategy, b.id, s.closed);
  }

  /** And once its strategy is monitored, the governor knows it. */
  lemma MonitoredOnce(cfg: M.Config, p: G.Params, es: seq<Event>, i: nat, j: nat)
    requires Proper(es) && M.At(Run(cfg, p, es).sim, i, j)
    ensures var b := M.BracketAt(Run(cfg, p, es).sim, i, j);
      T.ByBracket(b.id, H.Delivered(b.strategy, Run(cfg, p, es + [Governor(H.Monitor(b.strategy))]).notes))
      == if b.status == M.Closed then [T.TradeOf(b)] else []
  {
    var b := M.BracketAt(Run(cfg, p, es).sim, i, j);
    var more := es + [Governor(H.Monitor(b.strategy))];
    assert more[..|es|] == es;
    RunJoins(cfg, p, es);
    RunJoins(cfg, p, more);
    H.MonitorCatchesUp(p, Seen(cfg, p, es), b.strategy);
    EachBracketOnce(cfg, p, es, i, j, b.id, b.strategy);
    ReachingIsClosed(cfg, p, es, b.strategy);
  }
}
