/** How many entries a strategy may take by itself a day, and how many losses in a row it survives. */
module Governor {
  import opened Market

  const DAY_MS := 86400000

  /** The UTC day a time in milliseconds falls in. */
  function UtcDay(at: int): int
  {
    at / DAY_MS
  }

  /** A day has 24 hours of 3,600,000 milliseconds, and begins with its first. */
  lemma DayIs(at: int, day: int)
    ensures UtcDay(at) == day <==> day * (24 * 3600000) <= at < (day + 1) * (24 * 3600000)
  {
  }

  datatype Params = Params(maxTradesPerDay: int, maxConsecutiveLosses: int)

  datatype Counters = Counters(day: int, tradesToday: nat, losses: nat, demoted: bool)

  type Counts = map<StrategyId, Counters>

  datatype Admission = Allowed | Demoted | CapReached

  datatype ResultOutcome = ResultOutcome(demote: bool, losses: nat, demoted: bool)

  /** A strategy's counters at a time: created on first touch, the daily count rolled over on any change of day. */
  function StateFor(s: Counts, x: StrategyId, now: int): Counters
  {
    var c := if x in s then s[x] else Counters(UtcDay(now), 0, 0, false);
    if c.day != UtcDay(now) then c.(day := UtcDay(now), tradesToday := 0) else c
  }

  function Admit(p: Params, c: Counters): Admission
  {
    if c.demoted then Demoted else if c.tradesToday >= p.maxTradesPerDay then CapReached else Allowed
  }

  function WithEntry(c: Counters): Counters
  {
    c.(tradesToday := c.tradesToday + 1)
  }

  function WithResult(p: Params, c: Counters, realized: int): (Counters, bool)
  {
    var losses := if realized < 0 then c.losses + 1 else 0;
    var demote := !c.demoted && losses >= p.maxConsecutiveLosses;
    (c.(losses := losses, demoted := c.demoted || demote), demote)
  }

  function Recovered(c: Counters): Counters
  {
    c.(losses := 0, demoted := false)
  }

  class AutoGovernor {
    const params: Params
    var state: Counts

    constructor (params: Params)
      ensures this.params == params && state == map[]
    {
      this.params := params;
      state := map[];
    }

    method Touch(x: StrategyId, now: int) returns (c: Counters)
      modifies this
      ensures c == StateFor(old(state), x, now)
      ensures state == old(state)[x := c]
    {
      if x !in state {
        state := state[x := Counters(UtcDay(now), 0, 0, false)];
      }
      c := state[x];
      if c.day != UtcDay(now) {
        c := c.(day := UtcDay(now), tradesToday := 0);
        state := state[x := c];
      }
    }

    method AdmitEntry(x: StrategyId, now: int) returns (a: Admission)
      modifies this
      ensures state == old(state)[x := StateFor(old(state), x, now)]
      ensures a == Admit(params, state[x])
      ensures a == Demoted <==> state[x].demoted
      ensures a == CapReached <==> !state[x].demoted && params.maxTradesPerDay <= state[x].tradesToday
    {
      var c := Touch(x, now);
      if c.demoted {
        return Demoted;
      }
      a := if c.tradesToday >= params.maxTradesPerDay then CapReached else Allowed;
    }

    method RecordEntry(x: StrategyId, now: int)
      modifies this
      ensures state == old(state)[x := WithEntry(StateFor(old(state), x, now))]
    {
      var c := Touch(x, now);
      state := state[x := c.(tradesToday := c.tradesToday + 1)];
    }

    method RecordResult(x: StrategyId, realized: int, now: int) returns (o: ResultOutcome)
      modifies this
      ensures var (c, demote) := WithResult(params, StateFor(old(state), x, now), realized);
        state == old(state)[x := c] && o == ResultOutcome(demote, c.losses, c.demoted)
    {
      var c := Touch(x, now);
      if realized < 0 {
        c := c.(losses := c.losses + 1);
      } else {
        c := c.(losses := 0);
      }
      var demote := false;
      if !c.demoted && c.losses >= params.maxConsecutiveLosses {
        c := c.(demoted := true);
        demote := true;
      }
      state := state[x := c];
      o := ResultOutcome(demote, c.losses, c.demoted);
    }

    method IsDemoted(x: StrategyId, now: int) returns (demoted: bool)
      modifies this
      ensures state == old(state)[x := StateFor(old(state), x, now)] && demoted == state[x].demoted
    {
      var c := Touch(x, now);
      demoted := c.demoted;
    }

    method ClearCooldown(x: StrategyId, now: int)
      modifies this
      ensures state == old(state)[x := Recovered(StateFor(old(state), x, now))]
    {
      var c := Touch(x, now);
      state := state[x := c.(losses := 0, demoted := false)];
    }
  }
}
