/** The analyst of a replay: a recorded verdict, or a deterministic stub. */
module ReplayAnalyst {
  import opened Market
  import opened Hex
  import J = CanonicalJson
  import H = ContextHash

  datatype Verdict = Proceed | Veto

  datatype Analysis = Analysis(verdict: Verdict, confidence: real, replayStubbed: bool)

  /** The fields that define the same question; `context` is a JSON object. */
  datatype Request = Request(
    strategyId: Text, ticker: Text, prompt: Text, context: J.Json, requiredChecks: seq<Text>, webSearch: bool)

  const STRATEGY_ID: Text :=
    ['s' as int, 't' as int, 'r' as int, 'a' as int, 't' as int,
     'e' as int, 'g' as int, 'y' as int, 'I' as int, 'd' as int]
  const TICKER: Text := ['t' as int, 'i' as int, 'c' as int, 'k' as int, 'e' as int, 'r' as int]
  const PROMPT: Text := ['p' as int, 'r' as int, 'o' as int, 'm' as int, 'p' as int, 't' as int]
  const CONTEXT: Text := ['c' as int, 'o' as int, 'n' as int, 't' as int, 'e' as int, 'x' as int, 't' as int]
  const CHECKS: Text :=
    ['r' as int, 'e' as int, 'q' as int, 'u' as int, 'i' as int, 'r' as int, 'e' as int,
     'd' as int, 'C' as int, 'h' as int, 'e' as int, 'c' as int, 'k' as int, 's' as int]
  const WEB_SEARCH: Text :=
    ['w' as int, 'e' as int, 'b' as int, 'S' as int, 'e' as int,
     'a' as int, 'r' as int, 'c' as int, 'h' as int]

  function Checks(req: Request): seq<J.Json>
  {
    seq(|req.requiredChecks|, i requires 0 <= i < |req.requiredChecks| => J.Str(req.requiredChecks[i]))
  }

  function Question(req: Request): J.Json
  {
    J.Obj([
      J.Field(STRATEGY_ID, J.Str(req.strategyId)),
      J.Field(TICKER, J.Str(req.ticker)),
      J.Field(PROMPT, J.Str(req.prompt)),
      J.Field(CONTEXT, req.context),
      J.Field(CHECKS, J.Arr(Checks(req))),
      J.Field(WEB_SEARCH, J.Bool(req.webSearch))])
  }

  function AnalysisContextHash(req: Request): Text
  {
    H.Hash(J.Canonical(Question(req)))
  }

  function Clamped(rate: real): real
  {
    if rate < 0.0 then 0.0 else if rate > 1.0 then 1.0 else rate
  }

  /** A verdict drawn from the hash alone, for a pass rate already clamped. */
  function Stub(rate: real, hash: Text): Analysis
    requires H.IsHash(hash)
  {
    var draw := H.Draw(hash);
    if draw < rate then Analysis(Proceed, rate, true)
    else
      var confidence := 1.0 - rate + (draw - rate);
      Analysis(Veto, if confidence < 1.0 then confidence else 1.0, true)
  }

  function Analyze(cache: map<Text, Analysis>, rate: real, req: Request): Analysis
  {
    var hash := AnalysisContextHash(req);
    H.HashReadsBack(J.Canonical(Question(req)));
    if hash in cache then cache[hash].(replayStubbed := false) else Stub(rate, hash)
  }

  /** A seedable cache of recorded verdicts, by content hash. */
  class AnalysisCache {
    var byHash: map<Text, Analysis>

    constructor ()
      ensures byHash == map[]
    {
      byHash := map[];
    }

    method Put(req: Request, analysis: Analysis)
      modifies this
      ensures byHash == old(byHash)[AnalysisContextHash(req) := analysis]
    {
      var hash := H.HashText(J.Canonical(Question(req)));
      byHash := byHash[hash := analysis];
    }
  }

  class ReplayLlmAnalyst {
    const cache: AnalysisCache
    const passRate: real

    constructor (cache: AnalysisCache, rate: real)
      ensures this.cache == cache && passRate == Clamped(rate)
    {
      this.cache := cache;
      passRate := Clamped(rate);
    }

    method Answer(req: Request) returns (a: Analysis)
      ensures a == Analyze(cache.byHash, passRate, req)
    {
      H.HashReadsBack(J.Canonical(Question(req)));
      var hash := H.HashText(J.Canonical(Question(req)));
      if hash in cache.byHash {
        return cache.byHash[hash].(replayStubbed := false);
      }
      a := Stub(passRate, hash);
    }
  }

  // ---- What replays can rely on --------------------------------------------------------

  /** The same question, up to the order of keys in its context. */
  ghost predicate SameQuestion(a: Request, b: Request)
  {
    a.strategyId == b.strategyId && a.ticker == b.ticker && a.prompt == b.prompt && J.Same(a.context, b.context) &&
    a.requiredChecks == b.requiredChecks && a.webSearch == b.webSearch
  }

  lemma QuestionValid(req: Request)
    requires J.Valid(req.context)
    ensures J.Valid(Question(req))
  {
    var fs := Question(req).fields;
    KeysApart(req);
    assert forall i :: 0 <= i < |Checks(req)| ==> J.Valid(Checks(req)[i]);
    assert J.Valid(fs[4].value);
  }

  ghost predicate SameValues(fs: seq<J.Field>, gs: seq<J.Field>)
  {
    |fs| == |gs| && forall i :: 0 <= i < |fs| ==> J.Same(fs[i].value, gs[i].value)
  }

  /** Two questions list the same fields in the same order. */
  lemma QuestionsAligned(a: Request, b: Request)
    ensures J.Same(Question(a), Question(b)) <==> SameValues(Question(a).fields, Question(b).fields)
  {
    var fs, gs := Question(a).fields, Question(b).fields;
    KeysApart(a);
    assert forall i :: 0 <= i < |fs| ==> fs[i].key == gs[i].key;
    J.AlignedSame(fs, gs);
  }

  lemma ValuesSame(a: Request, b: Request)
    ensures SameValues(Question(a).fields, Question(b).fields) <==> SameQuestion(a, b)
  {
    SixValues(Question(a).fields, Question(b).fields);
    ChecksSame(a, b);
  }

  lemma QuestionSame(a: Request, b: Request)
    ensures J.Same(Question(a), Question(b)) <==> SameQuestion(a, b)
  {
    QuestionsAligned(a, b);
    ValuesSame(a, b);
  }

  lemma SixValues(fs: seq<J.Field>, gs: seq<J.Field>)
    requires |fs| == |gs| == 6
    ensures SameValues(fs, gs)
      <==> J.Same(fs[0].value, gs[0].value) && J.Same(fs[1].value, gs[1].value) && J.Same(fs[2].value, gs[2].value) &&
           J.Same(fs[3].value, gs[3].value) && J.Same(fs[4].value, gs[4].value) && J.Same(fs[5].value, gs[5].value)
  {
  }

  lemma KeysApart(a: Request)
    ensures J.DistinctKeys(Question(a).fields)
  {
    var fs := Question(a).fields;
    assert fs[0].key[0] == 's' as int && fs[1].key[0] == 't' as int && fs[2].key[0] == 'p' as int;
    assert fs[3].key[0] == 'c' as int && fs[4].key[0] == 'r' as int && fs[5].key[0] == 'w' as int;
  }

  lemma ChecksSame(a: Request, b: Request)
    ensures J.Same(J.Arr(Checks(a)), J.Arr(Checks(b))) <==> a.requiredChecks == b.requiredChecks
  {
    var xs, ys := Checks(a), Checks(b);
    if J.Same(J.Arr(xs), J.Arr(ys)) {
      forall i | 0 <= i < |xs| ensures a.requiredChecks[i] == b.requiredChecks[i] {
        assert J.Same(xs[i], ys[i]);
      }
    } else if a.requiredChecks == b.requiredChecks {
      assert forall i :: 0 <= i < |xs| ==> J.Same(xs[i], ys[i]);
    }
  }

  /** Two requests encode alike exactly when they ask the same question; then they also hash alike. */
  lemma SameQuestionSameHash(a: Request, b: Request)
    requires J.Valid(a.context) && J.Valid(b.context)
    ensures J.Canonical(Question(a)) == J.Canonical(Question(b)) <==> SameQuestion(a, b)
    ensures SameQuestion(a, b) ==> AnalysisContextHash(a) == AnalysisContextHash(b)
  {
    QuestionValid(a);
    QuestionValid(b);
    QuestionSame(a, b);
    J.CanonicalDecides(Question(a), Question(b));
  }

  /** A verdict recorded for a question is what every later replay of it gets, marked as real. */
  lemma RecordedVerdictReplayed(
      cache: map<Text, Analysis>, rate: real, recorded: Request, asked: Request, analysis: Analysis)
    requires J.Valid(recorded.context) && J.Valid(asked.context) && SameQuestion(recorded, asked)
    ensures Analyze(cache[AnalysisContextHash(recorded) := analysis], rate, asked) == analysis.(replayStubbed := false)
  {
    SameQuestionSameHash(recorded, asked);
  }

  /** Without one, the same question always gets the same stub. */
  lemma StubsDeterministic(cache: map<Text, Analysis>, rate: real, a: Request, b: Request)
    requires J.Valid(a.context) && J.Valid(b.context) && SameQuestion(a, b)
    ensures Analyze(cache, rate, a) == Analyze(cache, rate, b)
    ensures Analyze(cache, rate, a).replayStubbed <==> AnalysisContextHash(a) !in cache
  {
    SameQuestionSameHash(a, b);
  }

  /** Stub confidence is a probability. */
  lemma StubConfidence(rate: real, t: Text)
    ensures H.IsHash(H.Hash(t)) && 0.0 <= Stub(Clamped(rate), H.Hash(t)).confidence <= 1.0
  {
    H.DrawInUnitInterval(t);
  }

  /**
   Raising the pass rate only adds to the questions that proceed; at one all of them
   do and at zero none.
   */
  lemma PassRateMonotone(low: real, high: real, t: Text)
    requires low <= high
    ensures H.IsHash(H.Hash(t))
    ensures Stub(Clamped(low), H.Hash(t)).verdict == Proceed ==> Stub(Clamped(high), H.Hash(t)).verdict == Proceed
    ensures low >= 1.0 ==> Stub(Clamped(low), H.Hash(t)).verdict == Proceed
    ensures high <= 0.0 ==> Stub(Clamped(high), H.Hash(t)).verdict == Veto
    ensures Stub(Clamped(low), H.Hash(t)).verdict == Proceed <==> H.Fnv1a(t) as real < Clamped(low) * H.TWO_32 as real
  {
    H.DrawInUnitInterval(t);
    H.HashReadsBack(t);
  }

  /** What a stub answers: below the rate it proceeds, with the rate as confidence; else it vetoes, the surer the further. */
  lemma StubExactly(rate: real, t: Text)
    ensures H.IsHash(H.Hash(t))
    ensures var a, r, draw := Stub(Clamped(rate), H.Hash(t)),
        (if rate < 0.0 then 0.0 else if 1.0 < rate then 1.0 else rate), H.Fnv1a(t) as real / 4294967296.0;
      a.replayStubbed &&
      (draw < r ==> a.verdict == Proceed && a.confidence == r) &&
      (r <= draw ==> a.verdict == Veto && a.confidence == if draw < 2.0 * r then 1.0 + draw - 2.0 * r else 1.0)
  {
    H.HashReadsBack(t);
  }
}
