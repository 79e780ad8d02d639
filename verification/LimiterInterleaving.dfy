/** The rate limiter with its Redis commands interleaved: one counter, any number of callers, any order of commands. */
module LimiterInterleaving {
  import opened Types
  import opened World
  import opened RateLimiter

  /** Where a caller stands between two commands; a caller that is not listed is between operations. */
  datatype Phase =
    | Passed      // check_and_increment: HGET found the counter below the limit, HINCRBY has not run
    | Negative    // decrement: HINCRBY made the counter negative, HSET 0 has not run
    | Correcting  // get_current_count: HGET found a negative counter, HSET 0 has not run

  datatype State = State(count: int, callers: map<nat, Phase>)

  datatype Command =
    | Check(p: nat)    // HGET of check_and_increment
    | Add(p: nat)      // its HINCRBY 1
    | Subtract(p: nat) // HINCRBY -1 of decrement
    | Clamp(p: nat)    // its HSET 0, or the one of get_current_count
    | Query(p: nat)    // HGET of get_current_count
    | Reset(p: nat)    // HSET 0 of reset
    | Fail(p: nat)     // the caller's next command raises

  function Exec(limit: Positive, s: State, c: Command): State {
    match c
    case Check(p) =>
      if p !in s.callers && s.count < limit then s.(callers := s.callers[p := Passed]) else s
    case Add(p) =>
      if p in s.callers && s.callers[p] == Passed then State(s.count + 1, s.callers - {p}) else s
    case Subtract(p) =>
      if p in s.callers then s
      else if s.count - 1 < 0 then State(s.count - 1, s.callers[p := Negative])
      else s.(count := s.count - 1)
    case Clamp(p) =>
      if p in s.callers && s.callers[p] != Passed then State(0, s.callers - {p}) else s
    case Query(p) =>
      if p !in s.callers && s.count < 0 then s.(callers := s.callers[p := Correcting]) else s
    case Reset(p) => if p in s.callers then s else s.(count := 0)
    case Fail(p) => s.(callers := s.callers - {p})
  }

  function RunAll(limit: Positive, s: State, commands: seq<Command>): State {
    if commands == [] then s
    else Exec(limit, RunAll(limit, s, commands[..|commands| - 1]), commands[|commands| - 1])
  }

  const IDLE := State(0, map[])

  function In(s: State, phase: Phase): set<nat> {
    set p | p in s.callers && s.callers[p] == phase
  }

  lemma InPut(s: State, p: nat, phase: Phase, other: Phase)
    requires p !in s.callers
    ensures |In(s.(callers := s.callers[p := phase]), other)| == |In(s, other)| + if other == phase then 1 else 0
  {
    var s' := s.(callers := s.callers[p := phase]);
    if other == phase {
      assert In(s', other) == In(s, other) + {p};
    } else {
      assert In(s', other) == In(s, other);
    }
  }

  lemma InRemove(s: State, p: nat, other: Phase)
    ensures |In(s.(callers := s.callers - {p}), other)|
         == |In(s, other)| - if p in s.callers && s.callers[p] == other then 1 else 0
  {
    var s' := s.(callers := s.callers - {p});
    if p in s.callers && s.callers[p] == other {
      assert In(s, other) == In(s', other) + {p};
    } else {
      assert In(s', other) == In(s, other);
    }
  }

  lemma InSameCallers(s: State, s': State, other: Phase)
    requires s.callers == s'.callers
    ensures In(s, other) == In(s', other)
  {
  }

  // ---- The ceiling ----

  /** At no point of the run are more than k callers between their check and their increment. */
  predicate AtMostInFlight(limit: Positive, commands: seq<Command>, k: nat) {
    |In(RunAll(limit, IDLE, commands), Passed)| <= k &&
    (commands != [] ==> AtMostInFlight(limit, commands[..|commands| - 1], k))
  }

  lemma CeilingStep(limit: Positive, s: State, c: Command, k: nat)
    requires s.count + |In(s, Passed)| <= limit - 1 + k
    requires |In(Exec(limit, s, c), Passed)| <= k
    ensures var s' := Exec(limit, s, c);
            s'.count + |In(s', Passed)| <= limit - 1 + k
  {
    var s' := Exec(limit, s, c);
    match c
    case Check(p) => if p !in s.callers && s.count < limit { InPut(s, p, Passed, Passed); }
    case Add(p) =>
      if p in s.callers && s.callers[p] == Passed {
        InRemove(s, p, Passed);
        InSameCallers(s.(callers := s.callers - {p}), s', Passed);
      }
    case Subtract(p) =>
      if p !in s.callers && s.count - 1 < 0 {
        InPut(s, p, Negative, Passed);
        InSameCallers(s.(callers := s.callers[p := Negative]), s', Passed);
      } else {
        InSameCallers(s, s', Passed);
      }
    case Clamp(p) =>
      if p in s.callers && s.callers[p] != Passed {
        InRemove(s, p, Passed);
        InSameCallers(s.(callers := s.callers - {p}), s', Passed);
      }
    case Query(p) => if p !in s.callers && s.count < 0 { InPut(s, p, Correcting, Passed); }
    case Reset(p) => InSameCallers(s, s', Passed);
    case Fail(p) => InRemove(s, p, Passed);
  }

  /**
   * Under every interleaving of checks, increments, decrements, queries, resets and failures: with at most k callers
   * between check and increment, the counter and those callers together stay within limit - 1 + k.
   */
  lemma {:induction false} Ceiling(limit: Positive, commands: seq<Command>, k: nat)
    requires AtMostInFlight(limit, commands, k)
    ensures var s := RunAll(limit, IDLE, commands);
            s.count + |In(s, Passed)| <= limit - 1 + k
  {
    if commands == [] {
      assert In(IDLE, Passed) == {};
    } else {
      var init := commands[..|commands| - 1];
      Ceiling(limit, init, k);
      CeilingStep(limit, RunAll(limit, IDLE, init), commands[|commands| - 1], k);
    }
  }

  // ---- The ceiling is reached ----

  function FillUp(n: nat): seq<Command> {
    if n == 0 then [] else FillUp(n - 1) + [Check(0)] + [Add(0)]
  }

  /** limit - 1 increments one after the other, then n checks at once. */
  function Checks(limit: Positive, n: nat): seq<Command> {
    if n == 0 then FillUp(limit - 1) else Checks(limit, n - 1) + [Check(n)]
  }

  /** The same with k checks, and then the increments of the first n of these callers. */
  function Adds(limit: Positive, k: nat, n: nat): seq<Command> {
    if n == 0 then Checks(limit, k) else Adds(limit, k, n - 1) + [Add(n)]
  }

  /** limit - 1 increments one after the other, then k checks at once, then their k increments. */
  function Stampede(limit: Positive, k: nat): seq<Command> {
    Adds(limit, k, k)
  }

  /** Callers from + 1 .. to, each between its check and its increment. */
  function Waiting(from: nat, to: nat): map<nat, Phase> {
    if from >= to then map[] else Waiting(from, to - 1)[to := Passed]
  }

  lemma {:induction false} WaitingWithout(from: nat, to: nat)
    requires from < to
    ensures forall p :: p in Waiting(from, to) ==> from < p <= to
    ensures Waiting(from, to) - {from + 1} == Waiting(from + 1, to)
  {
    if from + 1 == to {
      assert Waiting(from, to - 1) == map[];
    } else {
      WaitingWithout(from, to - 1);
      assert Waiting(from, to) - {from + 1} == (Waiting(from, to - 1) - {from + 1})[to := Passed];
    }
  }

  lemma {:induction false} WaitingMember(from: nat, to: nat)
    requires from < to
    ensures from + 1 in Waiting(from, to)
  {
    if from + 1 < to {
      WaitingMember(from, to - 1);
    }
  }

  lemma {:induction false} WaitingRange(from: nat, to: nat)
    ensures forall p :: p in Waiting(from, to) ==> from < p <= to && Waiting(from, to)[p] == Passed
  {
    if from < to {
      WaitingRange(from, to - 1);
    }
  }

  lemma RunOne(limit: Positive, commands: seq<Command>, c: Command, k: nat)
    ensures RunAll(limit, IDLE, commands + [c]) == Exec(limit, RunAll(limit, IDLE, commands), c)
    ensures AtMostInFlight(limit, commands + [c], k) <==>
            AtMostInFlight(limit, commands, k) && |In(RunAll(limit, IDLE, commands + [c]), Passed)| <= k
  {
    assert (commands + [c])[..|commands|] == commands;
  }

  lemma {:induction false} WaitingCount(count: int, from: nat, to: nat)
    requires from <= to
    ensures |In(State(count, Waiting(from, to)), Passed)| == to - from
  {
    var s := State(count, Waiting(from, to));
    if from < to {
      var before := State(count, Waiting(from, to - 1));
      WaitingCount(count, from, to - 1);
      WaitingRange(from, to - 1);
      InPut(before, to, Passed, Passed);
      assert before.(callers := before.callers[to := Passed]) == s;
    } else {
      assert In(s, Passed) == {};
    }
  }

  lemma OneMoreAlone(limit: Positive, n: nat)
    requires n < limit
    ensures var checked := Exec(limit, State(n, map[]), Check(0));
            && checked == State(n, map[0 := Passed])
            && Exec(limit, checked, Add(0)) == State(n + 1, map[])
            && |In(checked, Passed)| == 1 && |In(State(n + 1, map[]), Passed)| == 0
  {
    assert In(State(n, map[0 := Passed]), Passed) == {0};
    assert In(State(n + 1, map[]), Passed) == {};
    assert map[0 := Passed] - {0} == map[];
  }

  lemma Extend(limit: Positive, commands: seq<Command>, s: State, c: Command, s': State, k: nat)
    requires RunAll(limit, IDLE, commands) == s && AtMostInFlight(limit, commands, k)
    requires Exec(limit, s, c) == s' && |In(s', Passed)| <= k
    ensures RunAll(limit, IDLE, commands + [c]) == s' && AtMostInFlight(limit, commands + [c], k)
  {
    RunOne(limit, commands, c, k);
  }

  lemma FilledOnceMore(limit: Positive, commands: seq<Command>, n: nat, k: Positive)
    requires n < limit && AtMostInFlight(limit, commands, k)
    requires RunAll(limit, IDLE, commands) == State(n, map[])
    ensures RunAll(limit, IDLE, commands + [Check(0)] + [Add(0)]) == State(n + 1, map[])
    ensures AtMostInFlight(limit, commands + [Check(0)] + [Add(0)], k)
  {
    OneMoreAlone(limit, n);
    Extend(limit, commands, State(n, map[]), Check(0), State(n, map[0 := Passed]), k);
    Extend(limit, commands + [Check(0)], State(n, map[0 := Passed]), Add(0), State(n + 1, map[]), k);
  }

  lemma {:induction false} FillUpRuns(limit: Positive, n: nat, k: Positive)
    requires n <= limit - 1
    ensures RunAll(limit, IDLE, FillUp(n)) == State(n, map[])
    ensures AtMostInFlight(limit, FillUp(n), k)
  {
    if n == 0 {
      assert In(IDLE, Passed) == {};
    } else {
      FillUpRuns(limit, n - 1, k);
      FilledOnceMore(limit, FillUp(n - 1), n - 1, k);
    }
  }

  lemma OneMoreCheck(limit: Positive, n: nat)
    ensures Exec(limit, State(limit - 1, Waiting(0, n)), Check(n + 1)) == State(limit - 1, Waiting(0, n + 1))
  {
    WaitingRange(0, n);
  }

  lemma OneMoreAdd(limit: Positive, n: nat, k: nat)
    requires n < k
    ensures Exec(limit, State(limit - 1 + n, Waiting(n, k)), Add(n + 1)) == State(limit + n, Waiting(n + 1, k))
  {
    WaitingWithout(n, k);
    WaitingRange(n, k);
    WaitingMember(n, k);
  }

  lemma CheckedOnceMore(limit: Positive, commands: seq<Command>, n: nat, k: Positive)
    requires n < k && AtMostInFlight(limit, commands, k)
    requires RunAll(limit, IDLE, commands) == State(limit - 1, Waiting(0, n))
    ensures RunAll(limit, IDLE, commands + [Check(n + 1)]) == State(limit - 1, Waiting(0, n + 1))
    ensures AtMostInFlight(limit, commands + [Check(n + 1)], k)
  {
    OneMoreCheck(limit, n);
    WaitingCount(limit - 1, 0, n + 1);
    Extend(limit, commands, State(limit - 1, Waiting(0, n)), Check(n + 1), State(limit - 1, Waiting(0, n + 1)), k);
  }

  lemma {:induction false} ChecksRun(limit: Positive, n: nat, k: Positive)
    requires n <= k
    ensures RunAll(limit, IDLE, Checks(limit, n)) == State(limit - 1, Waiting(0, n))
    ensures AtMostInFlight(limit, Checks(limit, n), k)
  {
    if n == 0 {
      FillUpRuns(limit, limit - 1, k);
    } else {
      ChecksRun(limit, n - 1, k);
      CheckedOnceMore(limit, Checks(limit, n - 1), n - 1, k);
    }
  }

  lemma AddedOnceMore(limit: Positive, commands: seq<Command>, n: nat, k: Positive)
    requires n < k && AtMostInFlight(limit, commands, k)
    requires RunAll(limit, IDLE, commands) == State(limit - 1 + n, Waiting(n, k))
    ensures RunAll(limit, IDLE, commands + [Add(n + 1)]) == State(limit + n, Waiting(n + 1, k))
    ensures AtMostInFlight(limit, commands + [Add(n + 1)], k)
  {
    OneMoreAdd(limit, n, k);
    WaitingCount(limit + n, n + 1, k);
    Extend(limit, commands, State(limit - 1 + n, Waiting(n, k)), Add(n + 1), State(limit + n, Waiting(n + 1, k)), k);
  }

  lemma {:induction false} AddsRun(limit: Positive, n: nat, k: Positive)
    requires n <= k
    ensures RunAll(limit, IDLE, Adds(limit, k, n)) == State(limit - 1 + n, Waiting(n, k))
    ensures AtMostInFlight(limit, Adds(limit, k, n), k)
  {
    if n == 0 {
      ChecksRun(limit, k, k);
    } else {
      AddsRun(limit, n - 1, k);
      AddedOnceMore(limit, Adds(limit, k, n - 1), n - 1, k);
    }
  }

  /** The bound is tight for every limit and every k >= 1; two racing callers reach the documented limit + 1. */
  lemma CeilingIsReached(limit: Positive, k: Positive)
    ensures AtMostInFlight(limit, Stampede(limit, k), k)
    ensures RunAll(limit, IDLE, Stampede(limit, k)).count == limit - 1 + k
    ensures k == 2 ==> RunAll(limit, IDLE, Stampede(limit, k)).count == limit + 1
  {
    AddsRun(limit, k, k);
  }

  // ---- The floor ----

  /** How many decrements raised between their two commands. */
  function Interrupted(limit: Positive, commands: seq<Command>): nat {
    if commands == [] then 0
    else
      var init, c := commands[..|commands| - 1], commands[|commands| - 1];
      var s := RunAll(limit, IDLE, init);
      Interrupted(limit, init) + if c.Fail? && c.p in s.callers && s.callers[c.p] == Negative then 1 else 0
  }

  lemma FloorStep(limit: Positive, s: State, c: Command, lost: nat)
    requires s.count >= -(|In(s, Negative)| + lost)
    ensures var s' := Exec(limit, s, c);
            s'.count >= -(|In(s', Negative)| + lost +
                          if c.Fail? && c.p in s.callers && s.callers[c.p] == Negative then 1 else 0)
  {
    var s' := Exec(limit, s, c);
    match c
    case Check(p) => if p !in s.callers && s.count < limit { InPut(s, p, Passed, Negative); }
    case Add(p) =>
      if p in s.callers && s.callers[p] == Passed {
        InRemove(s, p, Negative);
        InSameCallers(s.(callers := s.callers - {p}), s', Negative);
      }
    case Subtract(p) =>
      if p !in s.callers && s.count - 1 < 0 {
        InPut(s, p, Negative, Negative);
        InSameCallers(s.(callers := s.callers[p := Negative]), s', Negative);
      } else {
        InSameCallers(s, s', Negative);
      }
    case Clamp(p) =>
    case Query(p) => if p !in s.callers && s.count < 0 { InPut(s, p, Correcting, Negative); }
    case Reset(p) =>
    case Fail(p) => InRemove(s, p, Negative);
  }

  /**
   * Under every interleaving the counter is at least minus the number of decrements between their two commands, those
   * interrupted there included. So when none was interrupted and none is under way it is not negative.
   */
  lemma {:induction false} Floor(limit: Positive, commands: seq<Command>)
    ensures var s := RunAll(limit, IDLE, commands);
            && s.count >= -(|In(s, Negative)| + Interrupted(limit, commands))
            && (In(s, Negative) == {} && Interrupted(limit, commands) == 0 ==> 0 <= s.count)
  {
    if commands != [] {
      var init := commands[..|commands| - 1];
      Floor(limit, init);
      FloorStep(limit, RunAll(limit, IDLE, init), commands[|commands| - 1], Interrupted(limit, init));
    }
  }

  /** n times: a decrement that raises between its two commands. */
  function Interruptions(n: nat): seq<Command> {
    if n == 0 then [] else Interruptions(n - 1) + [Subtract(0)] + [Fail(0)]
  }

  lemma OneMoreInterruption(limit: Positive, n: nat)
    ensures var middle := Exec(limit, State(0 - n, map[]), Subtract(0));
            && middle == State(0 - n - 1, map[0 := Negative])
            && Exec(limit, middle, Fail(0)) == State(0 - n - 1, map[])
  {
    assert map[0 := Negative] - {0} == map[];
  }

  /** Interrupting decrements does leave a negative counter behind: n of them leave -n. */
  lemma {:induction false} FloorIsReached(limit: Positive, n: nat)
    ensures RunAll(limit, IDLE, Interruptions(n)) == State(0 - n, map[])
    ensures Interrupted(limit, Interruptions(n)) == n
  {
    if n > 0 {
      FloorIsReached(limit, n - 1);
      OneMoreInterruption(limit, n - 1);
      var before := Interruptions(n - 1);
      assert (before + [Subtract(0)])[..|before|] == before;
      assert Interruptions(n)[..|before| + 1] == before + [Subtract(0)];
    }
  }

  // ---- Without interleaving the commands are the operations of the sequential model ----

  /**
   * A caller that runs both its commands undisturbed does what take-slot and free-slot say, and passes its check exactly
   * when take-slot does.
   */
  lemma Undisturbed(limit: Positive, s: State, p: nat, r: RedisState, ws: Id)
    requires p !in s.callers && s.count == CountOf(r.counters, ws)
    ensures var taken := Exec(limit, Exec(limit, s, Check(p)), Add(p));
            taken == State(CountOf(TakeSlot(limit, r, ws, {}).0.counters, ws), s.callers)
    ensures TakeSlot(limit, r, ws, {}).1 ==
            if p in Exec(limit, s, Check(p)).callers then Ok(()) else Err(RateLimitExceeded)
    ensures var freed := Exec(limit, Exec(limit, s, Subtract(p)), Clamp(p));
            freed == State(CountOf(Freed(r.counters, ws, {}).0, ws), s.callers)
  {
    assert s.callers[p := Passed] - {p} == s.callers;
    assert s.callers[p := Negative] - {p} == s.callers;
  }

  /** An undisturbed query leaves the counter, or 0 in place of a negative one; a reset leaves 0. */
  lemma UndisturbedQuery(limit: Positive, s: State, p: nat)
    requires p !in s.callers
    ensures Exec(limit, Exec(limit, s, Query(p)), Clamp(p)) == State(if s.count < 0 then 0 else s.count, s.callers)
    ensures Exec(limit, s, Reset(p)) == State(0, s.callers)
  {
    assert s.callers[p := Correcting] - {p} == s.callers;
  }
}
