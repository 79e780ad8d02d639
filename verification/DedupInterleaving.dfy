/**
 * One content in one workspace, uploaded by any number of sessions whose completions race between the duplicate check and
 * the registration of the fingerprint.
 */
module DedupInterleaving {

  /** Where a completion stands; before its check and after its registration it is not listed. */
  datatype Phase =
    | Unique     // check_duplicate found no fingerprint; publish is next
    | Published  // the event is delivered; the write of COMPLETE, the decrement and then register_file follow

  datatype State = State(registered: bool, events: nat, tasks: map<nat, Phase>)

  datatype Command =
    | Check(p: nat)
    | Publish(p: nat)
    | Register(p: nat)
    | Raise(p: nat) // the next call of the completion raises; the publish, the write of COMPLETE or the registration

  function Exec(s: State, c: Command): State {
    match c
    case Check(p) => if p !in s.tasks && !s.registered then s.(tasks := s.tasks[p := Unique]) else s
    case Publish(p) =>
      if p in s.tasks && s.tasks[p] == Unique then s.(events := s.events + 1, tasks := s.tasks[p := Published]) else s
    case Register(p) =>
      if p in s.tasks && s.tasks[p] == Published then s.(registered := true, tasks := s.tasks - {p}) else s
    case Raise(p) => s.(tasks := s.tasks - {p})
  }

  function RunAll(s: State, commands: seq<Command>): State {
    if commands == [] then s
    else Exec(RunAll(s, commands[..|commands| - 1]), commands[|commands| - 1])
  }

  const NOTHING := State(false, 0, map[])

  lemma {:induction false} RunAppend(s: State, first: seq<Command>, second: seq<Command>)
    ensures RunAll(s, first + second) == RunAll(RunAll(s, first), second)
  {
    if second == [] {
      assert first + second == first;
    } else {
      var init := second[..|second| - 1];
      RunAppend(s, first, init);
      assert (first + second)[..|first + second| - 1] == first + init;
    }
  }

  lemma RunOne(s: State, c: Command)
    ensures RunAll(s, [c]) == Exec(s, c)
  {
    assert [c][..0] == [];
  }

  /** The completions in a phase. */
  function In(tasks: map<nat, Phase>, phase: Phase): set<nat> {
    set p | p in tasks && tasks[p] == phase
  }

  function OneIf(tasks: map<nat, Phase>, p: nat, phase: Phase): nat {
    if p in tasks && tasks[p] == phase then 1 else 0
  }

  lemma InWithout(tasks: map<nat, Phase>, p: nat, phase: Phase)
    ensures |In(tasks - {p}, phase)| == |In(tasks, phase)| - OneIf(tasks, p, phase)
  {
    assert In(tasks - {p}, phase) == In(tasks, phase) - {p};
  }

  /** A command moves one completion. */
  lemma InChange(s: State, c: Command, phase: Phase)
    ensures |In(Exec(s, c).tasks, phase)|
         == |In(s.tasks, phase)| - OneIf(s.tasks, c.p, phase) + OneIf(Exec(s, c).tasks, c.p, phase)
  {
    assert Exec(s, c).tasks - {c.p} == s.tasks - {c.p};
    InWithout(s.tasks, c.p, phase);
    InWithout(Exec(s, c).tasks, c.p, phase);
  }

  lemma InTogether(tasks: map<nat, Phase>)
    ensures |tasks.Keys| == |In(tasks, Unique)| + |In(tasks, Published)|
  {
    assert tasks.Keys == In(tasks, Unique) + In(tasks, Published);
    assert In(tasks, Unique) !! In(tasks, Published);
  }

  // ---- The bound ----

  /** A completion raises between its delivery and its registration while there is no fingerprint yet. */
  predicate LeavesGap(s: State, c: Command) {
    c.Raise? && !s.registered && c.p in s.tasks && s.tasks[c.p] == Published
  }

  function Gaps(s: State, commands: seq<Command>): nat {
    if commands == [] then 0
    else
      var init := commands[..|commands| - 1];
      Gaps(s, init) + if LeavesGap(RunAll(s, init), commands[|commands| - 1]) then 1 else 0
  }

  /** At no point of the run are more than k completions between their check and their registration. */
  predicate AtMostBetween(s: State, commands: seq<Command>, k: nat) {
    |RunAll(s, commands).tasks.Keys| <= k &&
    (commands != [] ==> AtMostBetween(s, commands[..|commands| - 1], k))
  }

  /** Before the first registration every event belongs to a completion that is to register it, or to a gap. */
  lemma UnregisteredStep(s: State, c: Command, gaps: nat)
    requires !s.registered ==> s.events == |In(s.tasks, Published)| + gaps
    ensures var s' := Exec(s, c);
            !s'.registered ==> s'.events == |In(s'.tasks, Published)| + gaps + if LeavesGap(s, c) then 1 else 0
  {
    InChange(s, c, Published);
  }

  /** After it no further completion passes the check. */
  lemma RegisteredStep(s: State, c: Command)
    requires s.registered || c.Register?
    ensures Exec(s, c).events + |In(Exec(s, c).tasks, Unique)| <= s.events + |In(s.tasks, Unique)|
  {
    InChange(s, c, Unique);
  }

  lemma BoundStep(s: State, c: Command, k: nat, gaps: nat)
    requires !s.registered ==> s.events == |In(s.tasks, Published)| + gaps
    requires s.events + |In(s.tasks, Unique)| <= k + gaps && |Exec(s, c).tasks.Keys| <= k
    ensures var s' := Exec(s, c);
            s'.events + |In(s'.tasks, Unique)| <= k + gaps + if LeavesGap(s, c) then 1 else 0
  {
    var s' := Exec(s, c);
    if s'.registered {
      RegisteredStep(s, c);
    } else {
      UnregisteredStep(s, c, gaps);
      InTogether(s'.tasks);
    }
  }

  /**
   * With at most k completions of the content between check and registration at any time, the workspace hears of it at
   * most k times in all, and once more for each completion that left a gap: under every interleaving.
   */
  lemma {:induction false} EventsBound(commands: seq<Command>, k: nat)
    requires AtMostBetween(NOTHING, commands, k)
    ensures var s, gaps := RunAll(NOTHING, commands), Gaps(NOTHING, commands);
            && s.events + |In(s.tasks, Unique)| <= k + gaps
            && (!s.registered ==> s.events == |In(s.tasks, Published)| + gaps)
  {
    if commands == [] {
      assert In(NOTHING.tasks, Unique) == {} && In(NOTHING.tasks, Published) == {};
    } else {
      var init, c := commands[..|commands| - 1], commands[|commands| - 1];
      EventsBound(init, k);
      UnregisteredStep(RunAll(NOTHING, init), c, Gaps(NOTHING, init));
      BoundStep(RunAll(NOTHING, init), c, k, Gaps(NOTHING, init));
    }
  }

  // ---- The bound is reached ----

  function Checks(n: nat): seq<Command> {
    if n == 0 then [] else Checks(n - 1) + [Check(n)]
  }

  /** k checks, and then the first n of these completions publish. */
  function ChecksThenPublishes(k: nat, n: nat): seq<Command> {
    if n == 0 then Checks(k) else ChecksThenPublishes(k, n - 1) + [Publish(n)]
  }

  /** Completions 1..n: the first i have published. */
  function Line(i: nat, n: nat): map<nat, Phase> {
    if n == 0 then map[] else Line(i, n - 1)[n := if n <= i then Published else Unique]
  }

  lemma {:induction false} LineHas(i: nat, n: nat, p: nat)
    ensures p in Line(i, n) <==> 1 <= p <= n
    ensures 1 <= p <= n ==> Line(i, n)[p] == if p <= i then Published else Unique
  {
    if n > 0 {
      LineHas(i, n - 1, p);
    }
  }

  lemma {:induction false} LineSize(i: nat, n: nat)
    ensures |Line(i, n).Keys| == n
  {
    if n > 0 {
      LineSize(i, n - 1);
      LineHas(i, n - 1, n);
      OneMoreKey(Line(i, n - 1), n, if n <= i then Published else Unique);
    }
  }

  lemma OneMoreKey(tasks: map<nat, Phase>, p: nat, phase: Phase)
    requires p !in tasks
    ensures |tasks[p := phase].Keys| == |tasks.Keys| + 1
  {
    assert tasks[p := phase].Keys == tasks.Keys + {p};
  }

  lemma NextInLine(i: nat, n: nat)
    requires i < n
    ensures Line(i, n)[i + 1 := Published] == Line(i + 1, n)
  {
    forall p: nat
      ensures p in Line(i + 1, n) <==> p in Line(i, n)
      ensures p in Line(i, n) && p != i + 1 ==> Line(i + 1, n)[p] == Line(i, n)[p]
    {
      LineHas(i, n, p);
      LineHas(i + 1, n, p);
    }
    LineHas(i + 1, n, i + 1);
  }

  lemma Extend(commands: seq<Command>, c: Command, k: nat)
    requires AtMostBetween(NOTHING, commands, k) && |Exec(RunAll(NOTHING, commands), c).tasks.Keys| <= k
    ensures AtMostBetween(NOTHING, commands + [c], k)
    ensures RunAll(NOTHING, commands + [c]) == Exec(RunAll(NOTHING, commands), c)
    ensures Gaps(NOTHING, commands + [c]) ==
            Gaps(NOTHING, commands) + if LeavesGap(RunAll(NOTHING, commands), c) then 1 else 0
  {
    assert (commands + [c])[..|commands|] == commands;
  }

  /** A run within the bound that leaves no gap. */
  predicate Quiet(commands: seq<Command>, k: nat) {
    AtMostBetween(NOTHING, commands, k) && Gaps(NOTHING, commands) == 0
  }

  lemma OneMoreCheck(commands: seq<Command>, n: nat, k: nat)
    requires 0 < n <= k && Quiet(commands, k) && RunAll(NOTHING, commands) == State(false, 0, Line(0, n - 1))
    ensures Quiet(commands + [Check(n)], k) && RunAll(NOTHING, commands + [Check(n)]) == State(false, 0, Line(0, n))
  {
    LineHas(0, n - 1, n);
    LineSize(0, n);
    Extend(commands, Check(n), k);
  }

  lemma {:induction false} ChecksRun(n: nat, k: nat)
    requires n <= k
    ensures Quiet(Checks(n), k) && RunAll(NOTHING, Checks(n)) == State(false, 0, Line(0, n))
  {
    if n > 0 {
      ChecksRun(n - 1, k);
      OneMoreCheck(Checks(n - 1), n, k);
    }
  }

  lemma PublishInLine(n: nat, k: nat)
    requires 0 < n <= k
    ensures Exec(State(false, n - 1, Line(n - 1, k)), Publish(n)) == State(false, n, Line(n, k))
  {
    LineHas(n - 1, k, n);
    NextInLine(n - 1, k);
  }

  lemma OneMorePublish(commands: seq<Command>, n: nat, k: nat)
    requires 0 < n <= k && Quiet(commands, k) && RunAll(NOTHING, commands) == State(false, n - 1, Line(n - 1, k))
    ensures Quiet(commands + [Publish(n)], k) && RunAll(NOTHING, commands + [Publish(n)]) == State(false, n, Line(n, k))
  {
    PublishInLine(n, k);
    LineSize(n, k);
    Extend(commands, Publish(n), k);
  }

  lemma {:induction false} PublishesRun(n: nat, k: nat)
    requires n <= k
    ensures Quiet(ChecksThenPublishes(k, n), k)
    ensures RunAll(NOTHING, ChecksThenPublishes(k, n)) == State(false, n, Line(n, k))
  {
    if n == 0 {
      ChecksRun(k, k);
    } else {
      PublishesRun(n - 1, k);
      OneMorePublish(ChecksThenPublishes(k, n - 1), n, k);
    }
  }

  /** For every k, k completions that all check before any of them registers announce the content k times. */
  lemma EventsBoundIsReached(k: nat)
    ensures var commands := ChecksThenPublishes(k, k);
            && AtMostBetween(NOTHING, commands, k) && Gaps(NOTHING, commands) == 0
            && RunAll(NOTHING, commands).events == k
  {
    PublishesRun(k, k);
  }

  // ---- When exactly the content is announced at most once for good ----

  lemma {:induction false} RegisteredForGood(s: State, commands: seq<Command>)
    requires s.registered
    ensures var s' := RunAll(s, commands);
            s'.registered && s'.events + |In(s'.tasks, Unique)| <= s.events + |In(s.tasks, Unique)|
  {
    if commands != [] {
      var init := commands[..|commands| - 1];
      RegisteredForGood(s, init);
      RegisteredStep(RunAll(s, init), commands[|commands| - 1]);
    }
  }

  /** Every completion that has passed its check can still publish. */
  lemma {:induction false} AllPublish(s: State) returns (commands: seq<Command>)
    ensures RunAll(s, commands).events == s.events + |In(s.tasks, Unique)|
    decreases |In(s.tasks, Unique)|
  {
    if In(s.tasks, Unique) == {} {
      commands := [];
    } else {
      var p :| p in In(s.tasks, Unique);
      InChange(s, Publish(p), Unique);
      var rest := AllPublish(Exec(s, Publish(p)));
      RunOne(s, Publish(p));
      RunAppend(s, [Publish(p)], rest);
      commands := [Publish(p)] + rest;
    }
  }

  lemma {:induction false} SomeFresh(tasks: map<nat, Phase>, n: nat) returns (p: nat)
    ensures p !in tasks && p >= n
    decreases |set q | q in tasks && q >= n|
  {
    if n in tasks {
      assert (set q | q in tasks && q >= n + 1) == (set q | q in tasks && q >= n) - {n};
      p := SomeFresh(tasks, n + 1);
    } else {
      p := n;
    }
  }

  /** Without a fingerprint a further completion can check and publish. */
  lemma OneMoreEvent(s: State) returns (commands: seq<Command>)
    requires !s.registered
    ensures var s' := RunAll(s, commands);
            !s'.registered && s'.events == s.events + 1
  {
    var p := SomeFresh(s.tasks, 0);
    RunOne(s, Check(p));
    RunOne(Exec(s, Check(p)), Publish(p));
    RunAppend(s, [Check(p)], [Publish(p)]);
    commands := [Check(p)] + [Publish(p)];
  }

  lemma SecondEvent(s: State) returns (commands: seq<Command>)
    requires !s.registered
    ensures RunAll(s, commands).events > 1
  {
    var first := OneMoreEvent(s);
    var second := OneMoreEvent(RunAll(s, first));
    RunAppend(s, first, second);
    commands := first + second;
  }

  /**
   * From a state on, the workspace hears of the content at most once in all, whatever follows, if and only if its
   * fingerprint is registered and at most one event is delivered or still to come from a completion past its check.
   */
  lemma AnnouncedOnceExactly(s: State)
    ensures (forall commands :: RunAll(s, commands).events <= 1) <==>
            s.registered && s.events + |In(s.tasks, Unique)| <= 1
  {
    if !s.registered {
      var commands := SecondEvent(s);
      assert RunAll(s, commands).events > 1;
    } else if s.events + |In(s.tasks, Unique)| > 1 {
      var commands := AllPublish(s);
      assert RunAll(s, commands).events > 1;
    } else {
      forall commands ensures RunAll(s, commands).events <= 1 {
        RegisteredForGood(s, commands);
      }
    }
  }

  /** A completion whose commands run undisturbed announces the content exactly when it has no fingerprint. */
  lemma Alone(s: State, p: nat)
    requires p !in s.tasks
    ensures RunAll(s, [Check(p)] + [Publish(p)] + [Register(p)])
         == State(true, s.events + if s.registered then 0 else 1, s.tasks)
  {
    RunOne(s, Check(p));
    RunOne(Exec(s, Check(p)), Publish(p));
    RunAppend(s, [Check(p)], [Publish(p)]);
    var published := RunAll(s, [Check(p)] + [Publish(p)]);
    RunOne(published, Register(p));
    RunAppend(s, [Check(p)] + [Publish(p)], [Register(p)]);
    assert s.tasks[p := Unique][p := Published] - {p} == s.tasks;
  }
}
