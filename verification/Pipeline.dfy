/** The two pipeline steps between the execution ports and the governor. */
module Pipeline {
  import opened Market
  import M = SimModel
  import A = SimActual
  import S = SimulatorPort
  import P = IbPort
  import G = Governor
  import H = HandOff

  /** Whether some result noted from a place on demoted its strategy. */
  ghost predicate SomeDemote(ns: seq<H.Note>, from: nat)
  {
    exists i :: from <= i < |ns| && ns[i].Result? && ns[i].demote
  }

  lemma SomeDemoteOn(ns: seq<H.Note>, from: nat, n: H.Note)
    requires from <= |ns|
    ensures SomeDemote(ns + [n], from) <==> SomeDemote(ns, from) || (n.Result? && n.demote)
  {
    var more := ns + [n];
    if SomeDemote(ns, from) {
      var i :| from <= i < |ns| && ns[i].Result? && ns[i].demote;
      assert more[i] == ns[i];
    }
    if n.Result? && n.demote {
      assert more[|ns|] == n;
    }
  }

  class AutoPipeline {
    const sim: S.Simulator
    const paper: P.IbExecutionPort
    const governor: G.AutoGovernor
    /** What the governor has been told so far. */
    ghost var notes: seq<H.Note>

    constructor (sim: S.Simulator, paper: P.IbExecutionPort, governor: G.AutoGovernor)
      ensures this.sim == sim && this.paper == paper && this.governor == governor && notes == []
    {
      this.sim, this.paper, this.governor, this.notes := sim, paper, governor, [];
    }

    ghost function World(): H.World
      reads this, sim, governor
    {
      H.World(governor.state, sim.closed, notes)
    }

    /** Tell the governor how a strategy's trades ended; only the SIM rung reports them. */
    method ReconcileAutoResults(x: StrategyId, rung: M.Rung) returns (closed: nat, demoted: bool)
      modifies this, sim`closed, governor
      ensures World() == if rung == M.SIM then H.Step(governor.params, old(World()), H.Monitor(x)) else old(World())
      ensures closed == if rung == M.SIM then |M.Of(x, old(sim.closed))| else 0
      ensures demoted <==> SomeDemote(notes, |old(notes)|)
    {
      if rung != M.SIM {
        return 0, false;
      }
      var trades := sim.DrainClosedTrades(Some(x));
      H.OfOwn(x, old(sim.closed));
      demoted := RecordTrades(x, trades);
      closed := |trades|;
    }

    method RecordTrades(x: StrategyId, trades: seq<M.ClosedTrade>) returns (demoted: bool)
      requires forall n :: 0 <= n < |trades| ==> trades[n].strategy == x
      modifies this, governor
      ensures World() == H.FeedAll(governor.params, old(World()), trades)
      ensures demoted <==> SomeDemote(notes, |old(notes)|)
    {
      ghost var w0 := World();
      demoted := false;
      for n := 0 to |trades|
        invariant World() == H.FeedAll(governor.params, w0, trades[..n])
        invariant |w0.notes| <= |notes| && (demoted <==> SomeDemote(notes, |w0.notes|))
      {
        assert trades[..n + 1][..n] == trades[..n];
        SomeDemoteOn(notes, |w0.notes|, H.Result(trades[n], false));
        SomeDemoteOn(notes, |w0.notes|, H.Result(trades[n], true));
        var demote := RecordTrade(x, trades[n]);
        demoted := demoted || demote;
      }
      assert trades[..|trades|] == trades;
    }

    /** Tell the governor of one closed trade of a strategy. */
    method RecordTrade(x: StrategyId, t: M.ClosedTrade) returns (demote: bool)
      requires t.strategy == x
      modifies this`notes, governor
      ensures World() == H.Feed(governor.params, old(World()), t)
      ensures notes == old(notes) + [H.Result(t, demote)]
    {
      var outcome := governor.RecordResult(x, t.realized, t.at);
      demote := outcome.demote;
      notes := notes + [H.Result(t, demote)];
    }

    /**
     AUTO mode: ask the governor, place the bracket on the strategy's rung, count the
     entry.  A placement that throws leaves the entry uncounted.
     */
    method ExecuteAuto(x: StrategyId, r: M.Request, now: int) returns (admission: G.Admission, placed: bool)
      requires paper.Valid()
      modifies this, sim, governor, paper, paper.gateway
      ensures paper.Valid()
      ensures admission == G.Admit(governor.params, G.StateFor(old(governor.state), x, now))
      ensures var c := G.StateFor(old(governor.state), x, now);
        (admission == G.Demoted <==> c.demoted) &&
        (admission == G.CapReached <==> !c.demoted && governor.params.maxTradesPerDay <= c.tradesToday)
      ensures placed <==> admission == G.Allowed && Accepts(r, old(sim.State()), old(paper.TheWorld()))
      ensures World() == H.Step(governor.params, old(World()),
        if admission == G.Allowed && !placed then H.Ask(x, now) else H.AutoEntry(x, now))
      ensures sim.State() ==
        if admission == G.Allowed && r.rung == M.SIM then A.PlaceOrThrow(old(sim.State()), r).0 else old(sim.State())
      ensures paper.TheWorld() ==
        if admission == G.Allowed && r.rung == M.PAPER then P.Place(old(paper.TheWorld()), r).0 else old(paper.TheWorld())
    {
      ghost var w0 := World();
      admission := governor.AdmitEntry(x, now);
      placed := false;
      if admission == G.Allowed {
        placed := Place(r);
      }
      assert sim.closed == w0.buffer && notes == w0.notes;
      Count(x, now, admission, placed, w0);
    }

    /** Count an entry that was placed; note any other. */
    method Count(x: StrategyId, now: int, admission: G.Admission, placed: bool, ghost w0: H.World)
      requires governor.state == w0.counts[x := G.StateFor(w0.counts, x, now)]
      requires admission == G.Admit(governor.params, G.StateFor(w0.counts, x, now)) && (placed ==> admission == G.Allowed)
      requires notes == w0.notes && sim.closed == w0.buffer
      modifies this`notes, governor
      ensures World() == H.Step(governor.params, w0,
        if admission == G.Allowed && !placed then H.Ask(x, now) else H.AutoEntry(x, now))
    {
      if placed {
        governor.RecordEntry(x, now);
        notes := notes + [H.Entered(x, now)];
      } else if admission == G.Allowed {
        notes := notes + [H.Asked(x, now)];
      } else {
        notes := notes + [H.Denied(x, now)];
      }
    }

    /** Place on the port of the request's rung; the LIVE rung has none. */
    method Place(r: M.Request) returns (placed: bool)
      requires paper.Valid()
      modifies sim, paper, paper.gateway
      ensures paper.Valid()
      ensures placed <==> Accepts(r, old(sim.State()), old(paper.TheWorld()))
      ensures sim.State() == if r.rung == M.SIM then A.PlaceOrThrow(old(sim.State()), r).0 else old(sim.State())
      ensures sim.closed == old(sim.closed)
      ensures paper.TheWorld() ==
        if r.rung == M.PAPER then P.Place(old(paper.TheWorld()), r).0 else old(paper.TheWorld())
    {
      match r.rung
      case SIM =>
        EntriesCloseNothing(sim.State(), r);
        var outcome, bracketId := sim.PlaceBracket(r);
        placed := outcome == M.Done;
      case PAPER =>
        var outcome := paper.PlaceBracket(r);
        placed := outcome.Placed?;
      case LIVE =>
        placed := false;
    }
  }

  /** Whether the port of its rung takes a request without throwing. */
  ghost predicate Accepts(r: M.Request, sim: M.State, paper: P.World)
  {
    match r.rung
    case SIM => A.PlaceOrThrow(sim, r).1 == M.Done
    case PAPER => P.Place(paper, r).1.Placed?
    case LIVE => false
  }

  lemma EntriesCloseNothing(s: M.State, r: M.Request)
    ensures A.PlaceOrThrow(s, r).0.closed == s.closed
  {
  }
}
