/** The backtest report, and its agreement with the SIM exchange it reports on. */
module BacktestReport {
  import opened Market
  import opened Money
  import M = SimModel
  import A = SimAccounting
  import X = SimActual
  import I = SimIsolation
  import T = SimTotals
  import S = SimPlain
  import P = Performance

  datatype Kind = Executed | Proposed | Watched | Vetoed | Crowded | RiskRejected | AutoCapped | Other

  datatype VetoStats = VetoStats(
    signals: nat, executed: nat, proposed: nat, watched: nat, vetoedByLlm: nat, vetoedByCrowding: nat,
    riskRejected: nat, autoCapped: nat)

  datatype Stubbing = Stubbing(analyses: int, stubbed: int, fraction: real)

  datatype Report = Report(performance: P.Stats, vetoStats: VetoStats, stubbing: Stubbing, replayStubbed: bool)

  // ---- From the exchange's trades to the report's ---------------------------------------

  /** The filled trades, in order. */
  function Filled(ts: seq<M.ClosedTrade>): seq<P.Trade>
  {
    if |ts| == 0 then [] else
    var rest, t := Filled(ts[..|ts| - 1]), ts[|ts| - 1];
    if t.entryPrice.None? then rest
    else rest + [P.Trade(t.realized, t.qty, t.entryPrice.value as real, Some(t.stop), t.at)]
  }

  method SimTradesToClosedTrades(ts: seq<M.ClosedTrade>) returns (out: seq<P.Trade>)
    ensures out == Filled(ts)
  {
    out := [];
    for n := 0 to |ts|
      invariant out == Filled(ts[..n])
    {
      assert ts[..n + 1][..n] == ts[..n];
      if ts[n].entryPrice.Some? {
        out := out + [P.Trade(ts[n].realized, ts[n].qty, ts[n].entryPrice.value as real, Some(ts[n].stop), ts[n].at)];
      }
    }
    assert ts[..|ts|] == ts;
  }

  /** Where every trade was filled, none is dropped and none changes its P&L. */
  lemma {:induction false} NoneDropped(ts: seq<M.ClosedTrade>)
    requires forall n :: 0 <= n < |ts| ==> ts[n].entryPrice.Some?
    ensures |Filled(ts)| == |ts| && P.Total(Filled(ts)) == T.Total(ts)
  {
    if |ts| > 0 {
      NoneDropped(ts[..|ts| - 1]);
      var rest := Filled(ts[..|ts| - 1]);
      assert Filled(ts)[..|rest|] == rest;
    }
  }

  // ---- Where the signals went -----------------------------------------------------------------

  function Tally(kind: Kind, outcomes: seq<Kind>): nat
  {
    if |outcomes| == 0 then 0
    else Tally(kind, outcomes[..|outcomes| - 1]) + if outcomes[|outcomes| - 1] == kind then 1 else 0
  }

  /** Each bucket counts the signals of its kind. */
  predicate Tallied(v: VetoStats, outcomes: seq<Kind>)
  {
    v.signals == |outcomes| &&
    v.executed == Tally(Executed, outcomes) && v.proposed == Tally(Proposed, outcomes) &&
    v.watched == Tally(Watched, outcomes) && v.vetoedByLlm == Tally(Vetoed, outcomes) &&
    v.vetoedByCrowding == Tally(Crowded, outcomes) && v.riskRejected == Tally(RiskRejected, outcomes) &&
    v.autoCapped == Tally(AutoCapped, outcomes)
  }

  method TallyOutcomes(outcomes: seq<Kind>) returns (v: VetoStats)
    ensures Tallied(v, outcomes)
  {
    var executed, proposed, watched, vetoedByLlm, vetoedByCrowding, riskRejected, autoCapped := 0, 0, 0, 0, 0, 0, 0;
    for n := 0 to |outcomes|
      invariant executed == Tally(Executed, outcomes[..n]) && proposed == Tally(Proposed, outcomes[..n])
      invariant watched == Tally(Watched, outcomes[..n]) && vetoedByLlm == Tally(Vetoed, outcomes[..n])
      invariant vetoedByCrowding == Tally(Crowded, outcomes[..n]) && riskRejected == Tally(RiskRejected, outcomes[..n])
      invariant autoCapped == Tally(AutoCapped, outcomes[..n])
    {
      assert outcomes[..n + 1][..n] == outcomes[..n];
      match outcomes[n] {
        case Executed => executed := executed + 1;
        case Proposed => proposed := proposed + 1;
        case Watched => watched := watched + 1;
        case Vetoed => vetoedByLlm := vetoedByLlm + 1;
        case Crowded => vetoedByCrowding := vetoedByCrowding + 1;
        case RiskRejected => riskRejected := riskRejected + 1;
        case AutoCapped => autoCapped := autoCapped + 1;
        case Other =>
      }
    }
    assert outcomes[..|outcomes|] == outcomes;
    v := VetoStats(|outcomes|, executed, proposed, watched, vetoedByLlm, vetoedByCrowding, riskRejected, autoCapped);
  }

  /** The buckets and the unknown kind split the signals. */
  lemma {:induction false} EverySignalOnce(outcomes: seq<Kind>)
    ensures |outcomes| == Tally(Executed, outcomes) + Tally(Proposed, outcomes) + Tally(Watched, outcomes)
      + Tally(Vetoed, outcomes) + Tally(Crowded, outcomes) + Tally(RiskRejected, outcomes)
      + Tally(AutoCapped, outcomes) + Tally(Other, outcomes)
  {
    if |outcomes| > 0 {
      EverySignalOnce(outcomes[..|outcomes| - 1]);
    }
  }

  method BuildBacktestReport(trades: seq<P.Trade>, outcomes: seq<Kind>, analyses: int, stubbed: int)
      returns (r: Report)
    ensures P.Describes(r.performance, trades)
    ensures Tallied(r.vetoStats, outcomes)
    ensures Summarizes(r.stubbing, analyses, stubbed)
    ensures r.replayStubbed <==> stubbed > 0
  {
    var performance := P.ComputePerformance(trades);
    var vetoStats := TallyOutcomes(outcomes);
    var stubbing := SummarizeStubbing(analyses, stubbed);
    r := Report(performance, vetoStats, stubbing, stubbing.stubbed > 0);
  }

  /** Counts never below zero, and the fraction of the analyses that were stubbed. */
  predicate Summarizes(s: Stubbing, analyses: int, stubbed: int)
  {
    s.analyses == (if analyses < 0 then 0 else analyses) && s.stubbed == (if stubbed < 0 then 0 else stubbed) &&
    (analyses <= 0 ==> s.fraction == 0.0) &&
    (0 <= stubbed <= analyses ==> 0.0 <= s.fraction <= 1.0) &&
    (0 < analyses ==> s.fraction * analyses as real == s.stubbed as real)
  }

  method SummarizeStubbing(analyses: int, stubbed: int) returns (s: Stubbing)
    ensures Summarizes(s, analyses, stubbed)
  {
    var total, part := if analyses < 0 then 0 else analyses, if stubbed < 0 then 0 else stubbed;
    var fraction := if total == 0 then 0.0 else part as real / total as real;
    if total > 0 {
      Fraction(part, total);
    }
    s := Stubbing(total, part, fraction);
  }

  lemma Fraction(a: nat, b: nat)
    requires b > 0
    ensures a as real / b as real * b as real == a as real
    ensures a <= b ==> 0.0 <= a as real / b as real <= 1.0
  {
    var q := a as real / b as real;
    assert q * b as real == a as real;
  }

  // ---- Agreement with the exchange -----------------------------------------------------------------

  /** Every closed trade is in the report, and its total and the curve's last point are what they add up to. */
  ghost predicate Reports(stats: P.Stats, ts: seq<M.ClosedTrade>)
  {
    stats.trades == |ts| == |stats.curve| && stats.totalPnl == T.Total(ts) &&
    (|ts| > 0 ==> stats.curve[|ts| - 1].equity == T.Total(ts))
  }

  /**
   Drained into a report, the trades of any run, throws included, are all there; the
   total P&L is the realized P&L exactly when nothing drove the two apart.
   */
  lemma ReportAgreesWithBooks(cfg: M.Config, cs: seq<M.Command>, i: nat, stats: P.Stats)
    requires i < |X.RunOrThrow(cfg, cs).state.portfolios|
    requires var s := X.RunOrThrow(cfg, cs).state;
      P.Describes(stats, Filled(M.Drain(s, Some(s.portfolios[i].strategy)).1))
    ensures var s := X.RunOrThrow(cfg, cs).state;
      var p := s.portfolios[i];
      Reports(stats, M.Of(p.strategy, s.closed)) &&
      (stats.totalPnl == p.realized <==> T.Drift(cfg, cs, p.strategy) == 0)
  {
    var s := X.RunOrThrow(cfg, cs).state;
    var p := s.portfolios[i];
    T.RunAddsUp(cfg, cs, p.strategy);
    T.RealizedExactly(cfg, cs, i);
    assert M.Drain(s, Some(p.strategy)).1 == M.Of(p.strategy, s.closed) == I.ViewOf(s, p.strategy).closed;
    StatsAddUp(M.Of(p.strategy, s.closed), stats);
  }

  /**
   The report of a backtest that ends flat and throws nowhere gives the change in cash
   exactly when the pieces scaled out, the trades drained, the P&L reset and the
   commissions of split orders cancel out.
   */
  lemma ReportAgreesWithCash(cfg: M.Config, cs: seq<M.Command>, i: nat, stats: P.Stats)
    requires !X.RunOrThrow(cfg, cs).threw
    requires i < |X.RunOrThrow(cfg, cs).state.portfolios| && A.Flat(X.RunOrThrow(cfg, cs).state.portfolios[i])
    requires var s := X.RunOrThrow(cfg, cs).state;
      P.Describes(stats, Filled(M.Drain(s, Some(s.portfolios[i].strategy)).1))
    ensures var s := X.RunOrThrow(cfg, cs).state;
      var p := s.portfolios[i];
      Reports(stats, M.Of(p.strategy, s.closed)) &&
      (stats.totalPnl == p.cash - p.startingCash <==>
        T.Drift(cfg, cs, p.strategy) + A.PieceGap(cfg.commission, p.brackets, s.fills) == 0)
  {
    ReportAgreesWithBooks(cfg, cs, i, stats);
    T.CashExactly(cfg, cs, i);
  }

  /** So it does for every run that scales nothing out and never resets or drains. */
  lemma PlainReportAgrees(cfg: M.Config, cs: seq<M.Command>, i: nat, stats: P.Stats)
    requires S.PlainRun(cfg, cs) && !X.RunOrThrow(cfg, cs).threw
    requires i < |X.RunOrThrow(cfg, cs).state.portfolios| && A.Flat(X.RunOrThrow(cfg, cs).state.portfolios[i])
    requires var s := X.RunOrThrow(cfg, cs).state;
      P.Describes(stats, Filled(M.Drain(s, Some(s.portfolios[i].strategy)).1))
    ensures var p := X.RunOrThrow(cfg, cs).state.portfolios[i];
      stats.totalPnl == p.cash - p.startingCash == p.realized
  {
    ReportAgreesWithBooks(cfg, cs, i, stats);
    S.ClosedTradesAddUp(cfg, cs, i);
  }

  /** What a report says of filled trades, whatever order they are in. */
  lemma StatsAddUp(ts: seq<M.ClosedTrade>, stats: P.Stats)
    requires P.Describes(stats, Filled(ts)) && forall n :: 0 <= n < |ts| ==> ts[n].entryPrice.Some?
    ensures Reports(stats, ts)
  {
    NoneDropped(ts);
    P.TotalAnyOrder(Filled(ts));
    P.AfterDescribes(Filled(ts));
    if |ts| > 0 {
      P.CurveEnds(Filled(ts), stats.curve);
    }
  }

  /** A priced trade goes into the report with its own P&L, size, entry, stop and time. */
  lemma {:induction false} FilledExactly(ts: seq<M.ClosedTrade>, n: nat)
    requires (forall k :: 0 <= k < |ts| ==> ts[k].entryPrice.Some?) && n < |ts|
    ensures |Filled(ts)| == |ts|
    ensures var f, t := Filled(ts)[n], ts[n];
      f.realized == t.realized && f.qty == t.qty && f.entryPrice == t.entryPrice.value as real &&
      f.stop == Some(t.stop) && f.closedAt == t.at
  {
    NoneDropped(ts);
    NoneDropped(ts[..|ts| - 1]);
    if n < |ts| - 1 {
      FilledExactly(ts[..|ts| - 1], n);
    }
  }
}
