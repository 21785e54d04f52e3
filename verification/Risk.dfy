/** The deterministic gate between a draft and a sized proposal. */
module Risk {
  import opened Market
  import opened Money

  /** Percentages are in the 0 to 100 domain; amounts are in cents. */
  type Percent = x: real | x > 0.0 witness 1.0

  type Ceiling = n: int | 1 <= n witness 1

  datatype Params = Params(
    maxRiskPerTradePct: Percent, maxConcurrent: Ceiling, maxPerStrategy: Ceiling, maxPerTicker: Ceiling,
    maxTotalOpenRiskPct: Percent, allowAveragingDown: bool)

  const GLOBAL_LIMITS := Params(2.0, 5, 2, 1, 6.0, true)

  function MinPct(x: Percent, y: Percent): Percent { if x <= y then x else y }

  function MinCount(x: Ceiling, y: Ceiling): Ceiling { if x <= y then x else y }

  /** A configuration may tighten the global limits, never exceed them. */
  function Clamped(p: Params): Params
  {
    Params(
      MinPct(p.maxRiskPerTradePct, GLOBAL_LIMITS.maxRiskPerTradePct),
      MinCount(p.maxConcurrent, GLOBAL_LIMITS.maxConcurrent),
      MinCount(p.maxPerStrategy, GLOBAL_LIMITS.maxPerStrategy),
      MinCount(p.maxPerTicker, GLOBAL_LIMITS.maxPerTicker),
      MinPct(p.maxTotalOpenRiskPct, GLOBAL_LIMITS.maxTotalOpenRiskPct),
      p.allowAveragingDown)
  }

  datatype Position = Position(
    strategy: StrategyId, ticker: Ticker, side: Side, isOpen: bool,
    qty: NonNegative, entry: Price, stop: Option<Price>)

  datatype Draft = Draft(strategy: StrategyId, ticker: Ticker, side: Side, requestedQty: Price, entry: Price, stop: Price)

  datatype Context = Context(equity: real, positions: seq<Position>, killSwitch: bool)

  datatype Rule =
    | KillSwitchActive | InvalidStop | NoAveragingDown | MaxPositionsTotal | MaxPositionsPerStrategy
    | MaxPositionsPerTicker | PerTradeRisk | TotalOpenRisk

  datatype Proposal = Proposal(
    strategy: StrategyId, ticker: Ticker, side: Side, qty: Shares, entry: Price, stop: Price,
    risk: int, riskPct: real)

  /** `Throws` is the rejection by the proposal schema of an infinite or undefined size. */
  datatype Decision = Approved(proposal: Proposal) | Rejected(rule: Rule) | Throws

  // ---- Reading the book -----------------------------------------------------------

  datatype Query = Anything | OfStrategy(x: StrategyId) | OfTicker(t: Ticker) | OfLeg(x: StrategyId, t: Ticker, side: Side)

  predicate Matches(q: Query, p: Position)
  {
    p.isOpen &&
    match q
    case Anything => true
    case OfStrategy(x) => p.strategy == x
    case OfTicker(t) => p.ticker == t
    case OfLeg(x, t, side) => p.strategy == x && p.ticker == t && p.side == side
  }

  function Count(q: Query, ps: seq<Position>): nat
  {
    if |ps| == 0 then 0
    else Count(q, ps[..|ps| - 1]) + if Matches(q, ps[|ps| - 1]) then 1 else 0
  }

  function Abs(x: real): NonNegative { if x < 0.0 then -x else x }

  lemma RiskNonNegative(x: NonNegative, y: NonNegative)
    ensures x * y >= 0.0
  {
  }

  function PositionRisk(p: Position): NonNegative
  {
    if p.stop.None? then 0.0 else
    RiskNonNegative(p.qty, Abs(p.entry - p.stop.value));
    p.qty * Abs(p.entry - p.stop.value)
  }

  function OpenRisk(ps: seq<Position>): NonNegative
  {
    if |ps| == 0 then 0.0
    else OpenRisk(ps[..|ps| - 1]) + if ps[|ps| - 1].isOpen then PositionRisk(ps[|ps| - 1]) else 0.0
  }

  /** Nearest ten-thousandth of a percent. */
  function RoundPct(pct: real): real
  {
    (pct * 10000.0 + 0.5).Floor as real / 10000.0
  }

  // ---- The gate ------------------------------------------------------------------------

  predicate StopOnItsSide(d: Draft)
  {
    if d.side == Long then d.stop < d.entry else !(d.stop < d.entry)
  }

  function Budget(l: Params, equity: real): real
  {
    equity * l.maxRiskPerTradePct / 100.0
  }

  function StopDistance(d: Draft): NonNegative
  {
    Abs(d.entry - d.stop)
  }

  /** The structural rules, in order. */
  function FirstBreach(l: Params, d: Draft, ctx: Context): Option<Rule>
  {
    if ctx.killSwitch then Some(KillSwitchActive)
    else if !StopOnItsSide(d) then Some(InvalidStop)
    else if !l.allowAveragingDown && Count(OfLeg(d.strategy, d.ticker, d.side), ctx.positions) > 0 then Some(NoAveragingDown)
    else if Count(Anything, ctx.positions) >= l.maxConcurrent then Some(MaxPositionsTotal)
    else if Count(OfStrategy(d.strategy), ctx.positions) >= l.maxPerStrategy then Some(MaxPositionsPerStrategy)
    else if Count(OfTicker(d.ticker), ctx.positions) >= l.maxPerTicker then Some(MaxPositionsPerTicker)
    else None
  }

  function TotalRiskPct(ctx: Context, risk: int): real
    requires ctx.equity > 0.0
  {
    RoundPct((OpenRisk(ctx.positions) + risk as real) / ctx.equity * 100.0)
  }

  datatype Sizing = Sized(qty: Shares) | TooSmall | Undefined

  /** The largest whole quantity that fits the budget; a distance of zero gives an infinite or undefined one. */
  function SizeFor(budget: real, dist: NonNegative): Sizing
  {
    if dist == 0.0 then (if budget < 0.0 then TooSmall else Undefined) else
    var qty := (budget / dist).Floor;
    if qty < 1 then TooSmall else Sized(qty)
  }

  /** The risk of a position, in whole cents. */
  function RiskCents(qty: Shares, dist: real): int
  {
    Round(qty as real * dist)
  }

  /** The last rule: the book's open risk together with the new position's. */
  function Judge(l: Params, d: Draft, ctx: Context, qty: Shares): Decision
    requires ctx.equity > 0.0
  {
    var risk := RiskCents(qty, StopDistance(d));
    if TotalRiskPct(ctx, risk) > l.maxTotalOpenRiskPct then Rejected(TotalOpenRisk)
    else Approved(Proposal(d.strategy, d.ticker, d.side, qty, d.entry, d.stop, risk,
                           RoundPct(risk as real / ctx.equity * 100.0)))
  }

  function Evaluate(l: Params, d: Draft, ctx: Context): Decision
  {
    var breach := FirstBreach(l, d, ctx);
    if breach.Some? then Rejected(breach.value) else
    match SizeFor(Budget(l, ctx.equity), StopDistance(d))
    case TooSmall => Rejected(PerTradeRisk)
    case Undefined => Throws
    case Sized(qty) =>
      SizedMeansSolvent(l, ctx.equity, StopDistance(d));
      Judge(l, d, ctx, qty)
  }

  lemma SizedMeansSolvent(l: Params, equity: real, dist: Price)
    requires (Budget(l, equity) / dist).Floor >= 1
    ensures equity > 0.0
  {
    QuotientBounds(Budget(l, equity), dist);
    if equity <= 0.0 {
      ScaleSign(equity, l.maxRiskPerTradePct);
    }
  }

  lemma ScaleSign(x: real, p: Percent)
    requires x <= 0.0
    ensures x * p <= 0.0
  {
  }

  lemma QuotientBounds(x: real, d: Price)
    ensures (x / d).Floor as real * d <= x < ((x / d).Floor + 1) as real * d
  {
    Divided(x, d);
    Below(x, d, x / d, ((x / d).Floor + 1) as real);
    Monotone((x / d).Floor as real, x / d, d);
  }

  lemma Below(x: real, d: Price, q: real, high: real)
    requires q * d == x && q < high
    ensures x < high * d
  {
    StrictlyMonotone(q, high, d);
  }

  lemma Divided(x: real, d: Price)
    ensures x / d * d == x
  {
  }

  lemma Monotone(x: real, y: real, d: NonNegative)
    requires x <= y
    ensures x * d <= y * d
  {
  }

  lemma StrictlyMonotone(x: real, y: real, d: Price)
    requires x < y
    ensures x * d < y * d
  {
  }

  // ---- What an approval guarantees -------------------------------------------------------

  /**
   An approval has a positive equity to size against, and takes the largest whole
   quantity whose risk to the stop fits the clamped budget.
   */
  lemma ApprovalFits(params: Params, d: Draft, ctx: Context, n: int)
    requires Evaluate(Clamped(params), d, ctx).Approved?
    ensures var p := Evaluate(Clamped(params), d, ctx).proposal;
      var budget := Budget(Clamped(params), ctx.equity);
      ctx.equity > 0.0 && StopDistance(d) > 0.0 &&
      p.entry == d.entry && p.stop == d.stop && p.side == d.side && p.strategy == d.strategy && p.ticker == d.ticker &&
      p.qty as real * StopDistance(d) <= budget <= ctx.equity * 2.0 / 100.0 &&
      (n as real * StopDistance(d) <= budget <==> n <= p.qty)
  {
    var l := Clamped(params);
    var dist, budget := StopDistance(d), Budget(l, ctx.equity);
    assert dist > 0.0;
    SizedMeansSolvent(l, ctx.equity, dist);
    BudgetWithinGlobal(params, ctx.equity);
    var qty := Evaluate(l, d, ctx).proposal.qty;
    assert qty == (budget / dist).Floor;
    LargestWithin(budget, dist, n);
  }

  lemma ApprovedSide(l: Params, d: Draft, ctx: Context)
    requires Evaluate(l, d, ctx).Approved?
    ensures StopDistance(d) == if d.side == Long then d.entry - d.stop else d.stop - d.entry
  {
  }

  lemma BudgetWithinGlobal(params: Params, equity: Price)
    ensures Budget(Clamped(params), equity) <= equity * 2.0 / 100.0
  {
    var pct := Clamped(params).maxRiskPerTradePct;
    Monotone(pct, 2.0, equity);
    assert pct * equity == equity * pct;
  }

  lemma LargestWithin(budget: real, dist: Price, n: int)
    ensures (budget / dist).Floor as real * dist <= budget
    ensures n as real * dist <= budget <==> n <= (budget / dist).Floor
  {
    var qty := (budget / dist).Floor;
    QuotientBounds(budget, dist);
    if n <= qty {
      Monotone(n as real, qty as real, dist);
    } else {
      Monotone((qty + 1) as real, n as real, dist);
    }
  }

  // ---- Adding positions never helps --------------------------------------------------------

  lemma {:induction false} CountConcat(q: Query, ps: seq<Position>, rs: seq<Position>)
    ensures Count(q, ps + rs) == Count(q, ps) + Count(q, rs)
  {
    if |rs| == 0 {
      assert ps + rs == ps;
    } else {
      assert (ps + rs)[..|ps + rs| - 1] == ps + rs[..|rs| - 1];
      CountConcat(q, ps, rs[..|rs| - 1]);
    }
  }

  lemma {:induction false} OpenRiskConcat(ps: seq<Position>, rs: seq<Position>)
    ensures OpenRisk(ps + rs) == OpenRisk(ps) + OpenRisk(rs)
  {
    if |rs| == 0 {
      assert ps + rs == ps;
    } else {
      assert (ps + rs)[..|ps + rs| - 1] == ps + rs[..|rs| - 1];
      OpenRiskConcat(ps, rs[..|rs| - 1]);
    }
  }

  function Without(ps: seq<Position>, k: nat): seq<Position>
    requires k < |ps|
  {
    ps[..k] + ps[k + 1..]
  }

  lemma WithoutCounts(q: Query, ps: seq<Position>, k: nat)
    requires k < |ps|
    ensures Count(q, Without(ps, k)) <= Count(q, ps)
    ensures OpenRisk(Without(ps, k)) <= OpenRisk(ps)
  {
    var head, tail := ps[..k], ps[k + 1..];
    assert ps == head + [ps[k]] + tail;
    CountConcat(q, head + [ps[k]], tail);
    CountConcat(q, head, [ps[k]]);
    CountConcat(q, head, tail);
    OpenRiskConcat(head + [ps[k]], tail);
    OpenRiskConcat(head, [ps[k]]);
    OpenRiskConcat(head, tail);
  }

  lemma RoundPctMonotone(x: real, y: real)
    requires x <= y
    ensures RoundPct(x) <= RoundPct(y)
  {
    var a, b := (x * 10000.0 + 0.5).Floor, (y * 10000.0 + 0.5).Floor;
    assert a <= b;
    OverMonotone(a as real, b as real, 10000.0);
  }

  lemma OverMonotone(x: real, y: real, d: Price)
    requires x <= y
    ensures x / d <= y / d
  {
  }

  lemma LessRisk(a: real, b: real, equity: real)
    requires a <= b && equity > 0.0
    ensures RoundPct(a / equity * 100.0) <= RoundPct(b / equity * 100.0)
  {
    OverMonotone(a, b, equity);
    RoundPctMonotone(a / equity * 100.0, b / equity * 100.0);
  }

  lemma RemovalKeepsClear(l: Params, d: Draft, ctx: Context, k: nat)
    requires k < |ctx.positions| && FirstBreach(l, d, ctx).None?
    ensures FirstBreach(l, d, ctx.(positions := Without(ctx.positions, k))).None?
  {
    WithoutCounts(OfLeg(d.strategy, d.ticker, d.side), ctx.positions, k);
    WithoutCounts(Anything, ctx.positions, k);
    WithoutCounts(OfStrategy(d.strategy), ctx.positions, k);
    WithoutCounts(OfTicker(d.ticker), ctx.positions, k);
  }

  /** Past the structural rules, the book matters only through its risk. */
  lemma LessRiskKeepsApproval(l: Params, d: Draft, ctx: Context, ps: seq<Position>)
    requires Evaluate(l, d, ctx).Approved? && FirstBreach(l, d, ctx.(positions := ps)).None? && ctx.equity > 0.0
    requires var risk := Evaluate(l, d, ctx).proposal.risk;
      TotalRiskPct(ctx.(positions := ps), risk) <= TotalRiskPct(ctx, risk)
    ensures Evaluate(l, d, ctx.(positions := ps)) == Evaluate(l, d, ctx)
  {
    JudgedAlike(l, d, ctx, ps, SizeFor(Budget(l, ctx.equity), StopDistance(d)).qty);
  }

  lemma JudgedAlike(l: Params, d: Draft, ctx: Context, ps: seq<Position>, qty: Shares)
    requires ctx.equity > 0.0 && Judge(l, d, ctx, qty).Approved?
    requires var risk := Judge(l, d, ctx, qty).proposal.risk;
      TotalRiskPct(ctx.(positions := ps), risk) <= TotalRiskPct(ctx, risk)
    ensures Judge(l, d, ctx.(positions := ps), qty) == Judge(l, d, ctx, qty)
  {
  }

  lemma ApprovedSolvent(l: Params, d: Draft, ctx: Context)
    requires Evaluate(l, d, ctx).Approved?
    ensures ctx.equity > 0.0 && FirstBreach(l, d, ctx).None?
  {
    SizedMeansSolvent(l, ctx.equity, StopDistance(d));
  }

  /** Taking any position out of the book leaves an approval exactly as it was. */
  lemma RemovalKeepsApproval(l: Params, d: Draft, ctx: Context, k: nat)
    requires k < |ctx.positions| && Evaluate(l, d, ctx).Approved?
    ensures Evaluate(l, d, ctx.(positions := Without(ctx.positions, k))) == Evaluate(l, d, ctx)
  {
    ApprovedSolvent(l, d, ctx);
    RemovalKeepsClear(l, d, ctx, k);
    var ps, fewer, risk := ctx.positions, Without(ctx.positions, k), Evaluate(l, d, ctx).proposal.risk;
    WithoutCounts(Anything, ps, k);
    LessRisk(OpenRisk(fewer) + risk as real, OpenRisk(ps) + risk as real, ctx.equity);
    LessRiskKeepsApproval(l, d, ctx, fewer);
  }

  /** So a draft rejected against a book is rejected against every larger one. */
  lemma AdditionKeepsRejection(l: Params, d: Draft, ctx: Context, k: nat, p: Position)
    requires k <= |ctx.positions| && !Evaluate(l, d, ctx).Approved?
    ensures !Evaluate(l, d, ctx.(positions := ctx.positions[..k] + [p] + ctx.positions[k..])).Approved?
  {
    var more := ctx.(positions := ctx.positions[..k] + [p] + ctx.positions[k..]);
    assert Without(more.positions, k) == ctx.positions;
    assert more.(positions := Without(more.positions, k)) == ctx;
    if Evaluate(l, d, more).Approved? {
      RemovalKeepsApproval(l, d, more, k);
    }
  }
}
