/** Racing completions of one session: how often they can publish its event and free its slot, and what bounds it. */
module CompletionRaces {
  import opened Types
  import opened Manifest
  import opened Protocol
  import opened WriterInterleaving
  import opened WriterRaces

  // ---- The bound ----

  /** The completions between their HEAD and their upload. */
  function Window(s: State): set<nat> {
    set p | p in s.tasks && s.tasks[p].Uploading?
  }

  /** The completions that have passed HEAD and may still publish. */
  function Ahead(s: State): set<nat> {
    set p | p in s.tasks && (s.tasks[p].Uploading? || s.tasks[p].Uploaded?)
  }

  /** At no point of the run are more than k completions between HEAD and upload. */
  predicate AtMostInWindow(cfg: Config, s: State, commands: seq<Command>, k: nat) {
    |Window(RunAll(cfg, s, commands))| <= k &&
    (commands != [] ==> AtMostInWindow(cfg, s, commands[..|commands| - 1], k))
  }

  predicate Publishes(s: State, c: Command) {
    c.Publish? && c.p in s.tasks && s.tasks[c.p].Uploaded?
  }

  lemma CallsCounted(cfg: Config, s: State, c: Command)
    ensures Exec(cfg, s, c).calls == s.calls + if Publishes(s, c) then 1 else 0
  {
  }

  /** Once the object is there nobody else passes HEAD. */
  lemma AheadMember(cfg: Config, s: State, c: Command, p: nat)
    requires s.uploaded.Some? || c.Upload? || !c.Head?
    requires p in Ahead(Exec(cfg, s, c))
    ensures p in Ahead(s) && !(Publishes(s, c) && p == c.p)
  {
    if c.Expire? || c.DropChunk? || c.p != p {
      OtherTask(cfg, s, c, p);
    }
  }

  lemma AheadShrinks(cfg: Config, s: State, c: Command)
    requires s.uploaded.Some? || c.Upload? || !c.Head?
    ensures |Ahead(Exec(cfg, s, c))| <= |Ahead(s)| - if Publishes(s, c) then 1 else 0
  {
    var s' := Exec(cfg, s, c);
    var left := if Publishes(s, c) then Ahead(s) - {c.p} else Ahead(s);
    forall p | p in Ahead(s') ensures p in left {
      AheadMember(cfg, s, c, p);
    }
    SubsetSize(Ahead(s'), left);
  }

  lemma {:induction false} SubsetSize(a: set<nat>, b: set<nat>)
    requires a <= b
    ensures |a| <= |b|
  {
    if a != {} {
      var x :| x in a;
      SubsetSize(a - {x}, b - {x});
    }
  }

  lemma NothingAnnounced(cfg: Config, start: Session, parts: seq<Bytes>, s: State)
    requires Consistent(cfg, start, parts, s) && s.uploaded.None?
    ensures s.calls == 0 && Ahead(s) == Window(s)
  {
    forall p | p in s.tasks ensures !s.tasks[p].Uploaded? {
      assert TaskOk(cfg, start, parts, s, s.tasks[p]);
    }
  }

  lemma UploadFirst(cfg: Config, s: State, c: Command)
    requires s.uploaded.None? && Exec(cfg, s, c).uploaded.Some?
    ensures c.Upload?
  {
  }

  lemma PublishStep(cfg: Config, start: Session, parts: seq<Bytes>, s: State, c: Command, k: nat)
    requires Consistent(cfg, start, parts, s) && Consistent(cfg, start, parts, Exec(cfg, s, c))
    requires s.calls + |Ahead(s)| <= k && |Window(Exec(cfg, s, c))| <= k
    ensures Exec(cfg, s, c).calls + |Ahead(Exec(cfg, s, c))| <= k
  {
    var s' := Exec(cfg, s, c);
    if s'.uploaded.None? {
      NothingAnnounced(cfg, start, parts, s');
    } else {
      if s.uploaded.None? {
        UploadFirst(cfg, s, c);
      }
      CallsCounted(cfg, s, c);
      AheadShrinks(cfg, s, c);
    }
  }

  /**
   * With at most k completions of the session between HEAD and upload at any time, publish is called at most k times in
   * all, under every interleaving. So one call at most, if those stretches never overlap.
   */
  lemma {:induction false} PublishBound(cfg: Config, start: Session, parts: seq<Bytes>, commands: seq<Command>, k: nat)
    requires CreatedFor(cfg, start, parts) && HonestCommands(cfg, parts, commands)
    requires AtMostInWindow(cfg, Created(start), commands, k)
    ensures var s := RunAll(cfg, Created(start), commands);
            s.calls + |Ahead(s)| <= k
  {
    if commands == [] {
      assert Ahead(Created(start)) == {};
    } else {
      var init, c := commands[..|commands| - 1], commands[|commands| - 1];
      assert commands == init + [c];
      HonestPrefix(cfg, parts, init, [c]);
      PublishBound(cfg, start, parts, init, k);
      RunKeeps(cfg, start, parts, init);
      RunKeeps(cfg, start, parts, commands);
      PublishStep(cfg, start, parts, RunAll(cfg, Created(start), init), c, k);
    }
  }

  // ---- When exactly there can be another call ----

  lemma {:induction false} CallsStayBounded(cfg: Config, start: Session, parts: seq<Bytes>, s: State, commands: seq<Command>)
    requires CreatedFor(cfg, start, parts) && Consistent(cfg, start, parts, s) && s.uploaded.Some?
    requires HonestCommands(cfg, parts, commands)
    ensures var s' := RunAll(cfg, s, commands);
            && Consistent(cfg, start, parts, s') && s'.uploaded.Some?
            && s'.calls + |Ahead(s')| <= s.calls + |Ahead(s)|
  {
    if commands != [] {
      var init, c := commands[..|commands| - 1], commands[|commands| - 1];
      assert commands == init + [c];
      HonestPrefix(cfg, parts, init, [c]);
      CallsStayBounded(cfg, start, parts, s, init);
      var before := RunAll(cfg, s, init);
      ExecKeeps(cfg, start, parts, before, c);
      ObjectStays(cfg, start, parts, before, c);
      CallsCounted(cfg, before, c);
      AheadShrinks(cfg, before, c);
    }
  }

  /** The request at p uploads if it has not yet, and publishes. */
  function Announcing(s: State, p: nat): seq<Command>
    requires p in s.tasks
  {
    if s.tasks[p].Uploading? then [Upload(p), Publish(p, true)] else [Publish(p, true)]
  }

  lemma PublishKeeps(cfg: Config, start: Session, parts: seq<Bytes>, s: State, p: nat)
    requires CreatedFor(cfg, start, parts) && Consistent(cfg, start, parts, s)
    requires p in s.tasks && s.tasks[p].Uploaded?
    ensures var s' := Exec(cfg, s, Publish(p, true));
            Consistent(cfg, start, parts, s') && s'.calls == s.calls + 1 && Ahead(s') == Ahead(s) - {p}
  {
    ExecKeeps(cfg, start, parts, s, Publish(p, true));
  }

  lemma UploadKeeps(cfg: Config, start: Session, parts: seq<Bytes>, s: State, p: nat)
    requires CreatedFor(cfg, start, parts) && Consistent(cfg, start, parts, s)
    requires p in s.tasks && s.tasks[p].Uploading?
    ensures var s' := Exec(cfg, s, Upload(p));
            && Consistent(cfg, start, parts, s') && s'.calls == s.calls && Ahead(s') == Ahead(s)
            && p in s'.tasks && s'.tasks[p].Uploaded?
  {
    assert TaskOk(cfg, start, parts, s, s.tasks[p]);
    ExecKeeps(cfg, start, parts, s, Upload(p));
  }

  lemma OnePublishes(cfg: Config, start: Session, parts: seq<Bytes>, s: State, p: nat)
    requires CreatedFor(cfg, start, parts) && Consistent(cfg, start, parts, s) && p in Ahead(s)
    ensures var s' := RunAll(cfg, s, Announcing(s, p));
            Consistent(cfg, start, parts, s') && s'.calls == s.calls + 1 && Ahead(s') == Ahead(s) - {p}
  {
    if s.tasks[p].Uploading? {
      RunTwo(cfg, s, Upload(p), Publish(p, true));
      UploadKeeps(cfg, start, parts, s, p);
      PublishKeeps(cfg, start, parts, Exec(cfg, s, Upload(p)), p);
    } else {
      RunOne(cfg, s, Publish(p, true));
      PublishKeeps(cfg, start, parts, s, p);
    }
  }

  lemma {:induction false} AllPublish(cfg: Config, start: Session, parts: seq<Bytes>, s: State)
    returns (commands: seq<Command>)
    requires CreatedFor(cfg, start, parts) && Consistent(cfg, start, parts, s)
    ensures HonestCommands(cfg, parts, commands) && RunAll(cfg, s, commands).calls == s.calls + |Ahead(s)|
    decreases |Ahead(s)|
  {
    if Ahead(s) == {} {
      commands := [];
    } else {
      var p :| p in Ahead(s);
      var first := Announcing(s, p);
      OnePublishes(cfg, start, parts, s, p);
      var rest := AllPublish(cfg, start, parts, RunAll(cfg, s, first));
      RunAppend(cfg, s, first, rest);
      commands := first + rest;
    }
  }

  /**
   * Once the object is there: of all that can follow, however it interleaves, the most publish calls are those made and
   * one for each completion that has passed HEAD, and so many can be made.
   */
  lemma MorePublishesExactly(cfg: Config, start: Session, parts: seq<Bytes>, s: State)
    requires CreatedFor(cfg, start, parts) && Consistent(cfg, start, parts, s) && s.uploaded.Some?
    ensures forall commands :: HonestCommands(cfg, parts, commands) ==>
              RunAll(cfg, s, commands).calls <= s.calls + |Ahead(s)|
    ensures exists commands :: HonestCommands(cfg, parts, commands) &&
              RunAll(cfg, s, commands).calls == s.calls + |Ahead(s)|
  {
    forall commands | HonestCommands(cfg, parts, commands)
      ensures RunAll(cfg, s, commands).calls <= s.calls + |Ahead(s)|
    {
      CallsStayBounded(cfg, start, parts, s, commands);
    }
    var commands := AllPublish(cfg, start, parts, s);
    assert HonestCommands(cfg, parts, commands) && RunAll(cfg, s, commands).calls == s.calls + |Ahead(s)|;
  }

  /** So the event is published at most once for good if and only if at most one call is made or ahead. */
  lemma PublishedOnceExactly(cfg: Config, start: Session, parts: seq<Bytes>, before: seq<Command>)
    requires CreatedFor(cfg, start, parts) && HonestCommands(cfg, parts, before)
    requires RunAll(cfg, Created(start), before).uploaded.Some?
    ensures var s := RunAll(cfg, Created(start), before);
            && ((forall commands :: HonestCommands(cfg, parts, commands) ==> RunAll(cfg, s, commands).calls <= 1) <==>
                s.calls + |Ahead(s)| <= 1)
            && ((exists commands :: HonestCommands(cfg, parts, commands) && RunAll(cfg, s, commands).calls > s.calls) <==>
                Ahead(s) != {})
  {
    RunKeeps(cfg, start, parts, before);
    MorePublishesExactly(cfg, start, parts, RunAll(cfg, Created(start), before));
  }

  // ---- The bound is reached ----

  /** Some interleaving of requests, with at most k completions between HEAD and upload, leads from s to s'. */
  ghost predicate ReachesWithin(cfg: Config, allowed: set<PatchRequest>, k: nat, s: State, s': State) {
    exists commands :: Sends(commands, allowed) && AtMostInWindow(cfg, s, commands, k) && RunAll(cfg, s, commands) == s'
  }

  lemma {:induction false} WithinAppend(cfg: Config, s: State, first: seq<Command>, second: seq<Command>, k: nat)
    requires AtMostInWindow(cfg, s, first, k) && AtMostInWindow(cfg, RunAll(cfg, s, first), second, k)
    ensures AtMostInWindow(cfg, s, first + second, k)
  {
    RunAppend(cfg, s, first, second);
    if second == [] {
      assert first + second == first;
    } else {
      WithinAppend(cfg, s, first, second[..|second| - 1], k);
      assert (first + second)[..|first + second| - 1] == first + second[..|second| - 1];
    }
  }

  lemma WithinOn(cfg: Config, allowed: set<PatchRequest>, k: nat, s: State, s': State, s'': State)
    requires ReachesWithin(cfg, allowed, k, s, s') && ReachesWithin(cfg, allowed, k, s', s'')
    ensures ReachesWithin(cfg, allowed, k, s, s'')
  {
    var first :| Sends(first, allowed) && AtMostInWindow(cfg, s, first, k) && RunAll(cfg, s, first) == s';
    var second :| Sends(second, allowed) && AtMostInWindow(cfg, s', second, k) && RunAll(cfg, s', second) == s'';
    WithinAppend(cfg, s, first, second, k);
    RunAppend(cfg, s, first, second);
    assert Sends(first + second, allowed);
  }

  lemma WindowMember(cfg: Config, s: State, c: Command, p: nat)
    requires !c.Head? && p in Window(Exec(cfg, s, c))
    ensures p in Window(s)
  {
    if c.Expire? || c.DropChunk? || c.p != p {
      OtherTask(cfg, s, c, p);
    }
  }

  lemma WindowShrinks(cfg: Config, s: State, c: Command)
    requires !c.Head?
    ensures |Window(Exec(cfg, s, c))| <= |Window(s)|
  {
    forall p | p in Window(Exec(cfg, s, c)) ensures p in Window(s) {
      WindowMember(cfg, s, c, p);
    }
    SubsetSize(Window(Exec(cfg, s, c)), Window(s));
  }

  lemma {:induction false} WithoutHead(cfg: Config, s: State, commands: seq<Command>, k: nat)
    requires |Window(s)| <= k && forall c :: c in commands ==> !c.Head?
    ensures AtMostInWindow(cfg, s, commands, k)
  {
    if commands != [] {
      var init := commands[..|commands| - 1];
      WithoutHead(cfg, s, init, k);
      WindowShrinks(cfg, RunAll(cfg, s, init), commands[|commands| - 1]);
    }
  }

  lemma WithoutHeadReaches(cfg: Config, allowed: set<PatchRequest>, k: nat, s: State, commands: seq<Command>)
    requires Sends(commands, allowed) && |Window(s)| <= k && forall c :: c in commands ==> !c.Head?
    ensures ReachesWithin(cfg, allowed, k, s, RunAll(cfg, s, commands))
  {
    WithoutHead(cfg, s, commands, k);
  }

  lemma HeadReaches(cfg: Config, allowed: set<PatchRequest>, k: nat, s: State, p: nat)
    requires |Window(s)| <= k && |Window(Exec(cfg, s, Head(p)))| <= k
    ensures ReachesWithin(cfg, allowed, k, s, Exec(cfg, s, Head(p)))
  {
    RunOne(cfg, s, Head(p));
    assert [Head(p)][..0] == [];
    assert AtMostInWindow(cfg, s, [], k);
    assert AtMostInWindow(cfg, s, [Head(p)], k);
    assert Sends([Head(p)], allowed);
  }

  /** Requests 1..n: the first i have published, the others are between HEAD and upload. */
  function Line(r: Session, data: Bytes, i: nat, n: nat): map<nat, Task> {
    if n == 0 then map[]
    else Line(r, data, i, n - 1)[n := if n <= i then Prepared(r.(status := Complete)) else Uploading(r, data)]
  }

  lemma {:induction false} LineHas(r: Session, data: Bytes, i: nat, n: nat, p: nat)
    ensures p in Line(r, data, i, n) <==> 1 <= p <= n
    ensures 1 <= p <= n ==>
              Line(r, data, i, n)[p] == if p <= i then Prepared(r.(status := Complete)) else Uploading(r, data)
  {
    if n > 0 {
      LineHas(r, data, i, n - 1, p);
    }
  }

  lemma {:induction false} LineSize(r: Session, data: Bytes, i: nat, n: nat)
    ensures |Line(r, data, i, n).Keys| == n
  {
    if n > 0 {
      LineSize(r, data, i, n - 1);
      LineHas(r, data, i, n - 1, n);
      OneMoreKey(Line(r, data, i, n - 1), n, if n <= i then Prepared(r.(status := Complete)) else Uploading(r, data));
    }
  }

  lemma OneMoreKey(tasks: map<nat, Task>, p: nat, t: Task)
    requires p !in tasks
    ensures |tasks[p := t].Keys| == |tasks.Keys| + 1
  {
    assert tasks[p := t].Keys == tasks.Keys + {p};
  }

  lemma WindowInTasks(s: State)
    ensures |Window(s)| <= |s.tasks.Keys|
  {
    SubsetSize(Window(s), s.tasks.Keys);
  }

  /** After i of n such completions have published. */
  function Crowd(r: Session, data: Bytes, i: nat, n: nat): State {
    State(Some(r), true, map[0 := data], if i == 0 then None else Some(data), i, i, 0, Line(r, data, i, n))
  }

  lemma CrowdInWindow(r: Session, data: Bytes, i: nat, n: nat)
    ensures |Window(Crowd(r, data, i, n))| <= n
  {
    LineSize(r, data, i, n);
    WindowInTasks(Crowd(r, data, i, n));
  }

  /** A record of a received file of one chunk. */
  predicate OneChunk(cfg: Config, r: Session, data: Bytes) {
    && r.status == InProgress && r.manifest == [ChunkMeta(0, |data|, cfg.hash(data))]
    && 0 < |data| == r.size == r.offset && cfg.hash(data) == r.checksum
  }

  lemma OneChunkIsComplete(cfg: Config, r: Session, data: Bytes)
    requires OneChunk(cfg, r, data)
    ensures IsComplete(r.manifest, r.size) && SortByIndex(r.manifest) == r.manifest && Concat([data]) == data
  {
    InOrderIsSorted(r.manifest);
    assert r.manifest == [] + [r.manifest[0]];
    TotalAppend([], r.manifest[0]);
    InOrderIsComplete(r.manifest, r.size);
    ConcatOne(data);
  }

  lemma ConcatOne(data: Bytes)
    ensures Concat([data]) == data
  {
    var none: Bytes := [];
    ConcatAppend([], data);
    assert [] + [data] == [data] && none + data == data;
  }

  lemma ReadsToHead(cfg: Config, s: State, p: nat, r: Session, data: Bytes)
    requires OneChunk(cfg, r, data) && p !in s.tasks && s.record == Some(r) && 0 in s.chunks && s.chunks[0] == data
    ensures RunAll(cfg, s, [LoadToComplete(p), ReadNext(p)]) == Put(s, p, Reading(r, [data]))
  {
    OneChunkIsComplete(cfg, r, data);
    RunTwo(cfg, s, LoadToComplete(p), ReadNext(p));
    var none: seq<Bytes> := [];
    assert none + [data] == [data];
    assert s.tasks[p := Reading(r, [])][p := Reading(r, [data])] == s.tasks[p := Reading(r, [data])];
  }

  lemma PassesHead(cfg: Config, s: State, p: nat, r: Session, data: Bytes)
    requires OneChunk(cfg, r, data) && s.uploaded.None?
    ensures Exec(cfg, Put(s, p, Reading(r, [data])), Head(p)) == Put(s, p, Uploading(r, data))
  {
    OneChunkIsComplete(cfg, r, data);
    assert s.tasks[p := Reading(r, [data])][p := Uploading(r, data)] == s.tasks[p := Uploading(r, data)];
  }

  lemma OneMoreReads(cfg: Config, allowed: set<PatchRequest>, k: nat, s: State, p: nat, r: Session, data: Bytes)
    requires OneChunk(cfg, r, data) && p !in s.tasks && s.record == Some(r) && 0 in s.chunks && s.chunks[0] == data
    requires |Window(s)| <= k
    ensures ReachesWithin(cfg, allowed, k, s, Put(s, p, Reading(r, [data])))
    ensures Window(Put(s, p, Reading(r, [data]))) == Window(s)
  {
    WithoutHeadReaches(cfg, allowed, k, s, [LoadToComplete(p), ReadNext(p)]);
    ReadsToHead(cfg, s, p, r, data);
  }

  lemma OneMorePasses(cfg: Config, allowed: set<PatchRequest>, k: nat, s: State, p: nat, r: Session, data: Bytes)
    requires OneChunk(cfg, r, data) && s.uploaded.None?
    requires |Window(Put(s, p, Reading(r, [data])))| <= k && |Window(Put(s, p, Uploading(r, data)))| <= k
    ensures ReachesWithin(cfg, allowed, k, Put(s, p, Reading(r, [data])), Put(s, p, Uploading(r, data)))
  {
    PassesHead(cfg, s, p, r, data);
    HeadReaches(cfg, allowed, k, Put(s, p, Reading(r, [data])), p);
  }

  lemma OneMoreJoins(cfg: Config, allowed: set<PatchRequest>, k: nat, r: Session, data: Bytes, n: nat)
    requires OneChunk(cfg, r, data) && n < k
    ensures ReachesWithin(cfg, allowed, k, Crowd(r, data, 0, n), Crowd(r, data, 0, n + 1))
  {
    var s, p := Crowd(r, data, 0, n), n + 1;
    CrowdInWindow(r, data, 0, n);
    CrowdInWindow(r, data, 0, n + 1);
    LineHas(r, data, 0, n, p);
    assert Put(s, p, Uploading(r, data)) == Crowd(r, data, 0, n + 1);
    OneMoreReads(cfg, allowed, k, s, p, r, data);
    OneMorePasses(cfg, allowed, k, s, p, r, data);
    WithinOn(cfg, allowed, k, s, Put(s, p, Reading(r, [data])), Crowd(r, data, 0, n + 1));
  }

  lemma {:induction false} CrowdGathers(cfg: Config, allowed: set<PatchRequest>, k: nat, r: Session, data: Bytes, n: nat)
    requires OneChunk(cfg, r, data) && n <= k
    ensures ReachesWithin(cfg, allowed, k, Crowd(r, data, 0, 0), Crowd(r, data, 0, n))
  {
    if n == 0 {
      assert Window(Crowd(r, data, 0, 0)) == {};
      WithoutHeadReaches(cfg, allowed, k, Crowd(r, data, 0, 0), []);
    } else {
      CrowdGathers(cfg, allowed, k, r, data, n - 1);
      OneMoreJoins(cfg, allowed, k, r, data, n - 1);
      WithinOn(cfg, allowed, k, Crowd(r, data, 0, 0), Crowd(r, data, 0, n - 1), Crowd(r, data, 0, n));
    }
  }

  lemma NextInLine(r: Session, data: Bytes, i: nat, n: nat)
    requires i < n
    ensures Line(r, data, i, n)[i + 1 := Prepared(r.(status := Complete))] == Line(r, data, i + 1, n)
  {
    forall p
      ensures p in Line(r, data, i + 1, n) <==> p in Line(r, data, i, n)
      ensures p in Line(r, data, i, n) && p != i + 1 ==> Line(r, data, i + 1, n)[p] == Line(r, data, i, n)[p]
    {
      LineHas(r, data, i, n, p);
      LineHas(r, data, i + 1, n, p);
    }
    LineHas(r, data, i + 1, n, i + 1);
  }

  lemma UploadsAndPublishes(cfg: Config, s: State, p: nat, r: Session, data: Bytes)
    requires p in s.tasks && s.tasks[p] == Uploading(r, data) && cfg.hash(data) == r.checksum
    ensures RunAll(cfg, s, [Upload(p), Publish(p, true)])
         == s.(uploaded := Some(data), calls := s.calls + 1, delivered := s.delivered + 1,
               tasks := s.tasks[p := Prepared(r.(status := Complete))])
  {
    RunTwo(cfg, s, Upload(p), Publish(p, true));
    assert s.tasks[p := Uploaded(r)][p := Prepared(r.(status := Complete))]
        == s.tasks[p := Prepared(r.(status := Complete))];
  }

  lemma OneMorePublishes(cfg: Config, allowed: set<PatchRequest>, k: nat, r: Session, data: Bytes, i: nat)
    requires OneChunk(cfg, r, data) && i < k
    ensures ReachesWithin(cfg, allowed, k, Crowd(r, data, i, k), Crowd(r, data, i + 1, k))
  {
    var s, p := Crowd(r, data, i, k), i + 1;
    LineHas(r, data, i, k, p);
    CrowdInWindow(r, data, i, k);
    NextInLine(r, data, i, k);
    UploadsAndPublishes(cfg, s, p, r, data);
    WithoutHeadReaches(cfg, allowed, k, s, [Upload(p), Publish(p, true)]);
  }

  lemma {:induction false} CrowdPublishes(cfg: Config, allowed: set<PatchRequest>, k: nat, r: Session, data: Bytes, i: nat)
    requires OneChunk(cfg, r, data) && i <= k
    ensures ReachesWithin(cfg, allowed, k, Crowd(r, data, 0, 0), Crowd(r, data, i, k))
  {
    if i == 0 {
      CrowdGathers(cfg, allowed, k, r, data, k);
    } else {
      CrowdPublishes(cfg, allowed, k, r, data, i - 1);
      OneMorePublishes(cfg, allowed, k, r, data, i - 1);
      WithinOn(cfg, allowed, k, Crowd(r, data, 0, 0), Crowd(r, data, i - 1, k), Crowd(r, data, i, k));
    }
  }

  lemma ReceivedIsOneChunk(cfg: Config, start: Session, data: Bytes)
    requires CreatedFor(cfg, start, [data])
    ensures OneChunk(cfg, RecordAt(cfg, start, [data], 1), data)
  {
    ConcatOne(data);
    assert [data][..1] == [data];
    assert |[data][0]| > 0;
  }

  lemma FileIsReceived(cfg: Config, start: Session, data: Bytes, k: nat)
    requires CreatedFor(cfg, start, [data]) && |data| <= MAX_CHUNK_SIZE
    ensures var q, r := RequestFor(cfg, start, [data], 0), RecordAt(cfg, start, [data], 1);
            && HonestRequest(cfg, [data], q)
            && ReachesWithin(cfg, {q}, k, Created(start), Crowd(r, data, 0, 0))
  {
    var q, r := RequestFor(cfg, start, [data], 0), RecordAt(cfg, start, [data], 1);
    StartIsRecordZero(cfg, start, [data]);
    NextFits(cfg, start, [data], 0);
    ReceivedAlone(cfg, start, r, q, data);
    assert Window(Created(start)) == {};
    WithoutHeadReaches(cfg, {q}, k, Created(start), Sending(1, q));
  }

  lemma ReceivedAlone(cfg: Config, start: Session, r: Session, q: PatchRequest, data: Bytes)
    requires CheckPatch(cfg, start, q).None? && Appended(start, |q.data|, q.checksum) == Some(r)
    requires start.manifest == [] && q.data == data
    ensures RunAll(cfg, Created(start), Sending(1, q)) == Crowd(r, data, 0, 0)
  {
    SendsAlone(cfg, Created(start), 1, start, q);
  }

  /** For every k, and every file of one chunk, k racing completions can publish the event k times. */
  lemma PublishBoundIsReached(cfg: Config, start: Session, data: Bytes, k: nat)
    requires CreatedFor(cfg, start, [data]) && |data| <= MAX_CHUNK_SIZE
    ensures var r := RecordAt(cfg, start, [data], 1);
            && HonestRequest(cfg, [data], RequestFor(cfg, start, [data], 0))
            && ReachesWithin(cfg, {RequestFor(cfg, start, [data], 0)}, k, Created(start), Crowd(r, data, k, k))
            && Crowd(r, data, k, k).calls == Crowd(r, data, k, k).delivered == k
  {
    var q, r := RequestFor(cfg, start, [data], 0), RecordAt(cfg, start, [data], 1);
    FileIsReceived(cfg, start, data, k);
    ReceivedIsOneChunk(cfg, start, data);
    CrowdPublishes(cfg, {q}, k, r, data, k);
    WithinOn(cfg, {q}, k, Created(start), Crowd(r, data, 0, 0), Crowd(r, data, k, k));
  }

  // ---- Each of them frees the slot ----

  lemma EndIsWritten(cfg: Config, allowed: set<PatchRequest>, k: nat, s: State, p: nat, r: Session, next: Task)
    requires p in s.tasks && s.tasks[p] == Prepared(r) && s.record.Some? && |Window(s)| <= k
    requires (r.status == Complete && next == Freeing) || (r.status == Aborted && next == Deleting)
    ensures ReachesWithin(cfg, allowed, k, s, s.(record := Some(r), tasks := s.tasks[p := next]))
  {
    RunTwo(cfg, s, Confirm(p), Write(p));
    assert s.tasks[p := Confirmed(r)][p := next] == s.tasks[p := next];
    WithoutHeadReaches(cfg, allowed, k, s, [Confirm(p), Write(p)]);
  }

  lemma SlotIsFreed(cfg: Config, allowed: set<PatchRequest>, k: nat, s: State, p: nat)
    requires p in s.tasks && s.tasks[p] == Freeing && |Window(s)| <= k
    ensures ReachesWithin(cfg, allowed, k, s, s.(freed := s.freed + 1, tasks := s.tasks - {p}))
  {
    RunOne(cfg, s, Free(p));
    WithoutHeadReaches(cfg, allowed, k, s, [Free(p)]);
  }

  lemma RecordIsDeleted(cfg: Config, allowed: set<PatchRequest>, k: nat, s: State, p: nat)
    requires p in s.tasks && s.tasks[p] == Deleting && |Window(s)| <= k
    ensures ReachesWithin(cfg, allowed, k, s, s.(record := None, freed := s.freed + 1, tasks := s.tasks - {p}))
  {
    RunTwo(cfg, s, Delete(p), Free(p));
    assert s.tasks[p := Freeing] - {p} == s.tasks - {p};
    WithoutHeadReaches(cfg, allowed, k, s, [Delete(p), Free(p)]);
  }

  lemma WindowOfPut(s: State, p: nat, record: Option<Session>, t: Task)
    requires p in s.tasks && !s.tasks[p].Uploading? && !t.Uploading?
    ensures Window(s.(record := record, tasks := s.tasks[p := t])) == Window(s)
  {
  }

  lemma CompleteFrees(cfg: Config, allowed: set<PatchRequest>, k: nat, s: State, p: nat, r: Session)
    requires p in s.tasks && s.tasks[p] == Prepared(r) && r.status == Complete && s.record.Some? && |Window(s)| <= k
    ensures ReachesWithin(cfg, allowed, k, s, s.(record := Some(r), freed := s.freed + 1, tasks := s.tasks - {p}))
  {
    var written := s.(record := Some(r), tasks := s.tasks[p := Freeing]);
    EndIsWritten(cfg, allowed, k, s, p, r, Freeing);
    WindowOfPut(s, p, Some(r), Freeing);
    SlotIsFreed(cfg, allowed, k, written, p);
    assert written.tasks - {p} == s.tasks - {p};
    WithinOn(cfg, allowed, k, s, written, s.(record := Some(r), freed := s.freed + 1, tasks := s.tasks - {p}));
  }

  lemma AbortFrees(cfg: Config, allowed: set<PatchRequest>, k: nat, s: State, p: nat, r: Session)
    requires p in s.tasks && s.tasks[p] == Prepared(r) && r.status == Aborted && s.record.Some? && |Window(s)| <= k
    ensures ReachesWithin(cfg, allowed, k, s, s.(record := None, freed := s.freed + 1, tasks := s.tasks - {p}))
  {
    var written := s.(record := Some(r), tasks := s.tasks[p := Deleting]);
    EndIsWritten(cfg, allowed, k, s, p, r, Deleting);
    WindowOfPut(s, p, Some(r), Deleting);
    RecordIsDeleted(cfg, allowed, k, written, p);
    assert written.tasks - {p} == s.tasks - {p};
    WithinOn(cfg, allowed, k, s, written, s.(record := None, freed := s.freed + 1, tasks := s.tasks - {p}));
  }

  lemma AbortWaits(cfg: Config, allowed: set<PatchRequest>, k: nat, r: Session, data: Bytes)
    requires r.status.Live()
    ensures ReachesWithin(cfg, allowed, k, Crowd(r, data, 0, 0),
              Crowd(r, data, 0, 0).(tasks := map[2 := Prepared(r.(status := Aborted))]))
  {
    var s := Crowd(r, data, 0, 0);
    assert Window(s) == {};
    RunOne(cfg, s, LoadToAbort(2));
    WithoutHeadReaches(cfg, allowed, k, s, [LoadToAbort(2)]);
  }

  lemma CompletionFrees(cfg: Config, allowed: set<PatchRequest>, s: State, r: Session, data: Bytes, aborted: Task)
    requires s.record == Some(r) && cfg.hash(data) == r.checksum && |Window(s)| <= 1
    requires aborted.Prepared? && s.tasks == map[2 := aborted, 1 := Uploading(r, data)]
    ensures ReachesWithin(cfg, allowed, 1, s,
              s.(record := Some(r.(status := Complete)), uploaded := Some(data), calls := s.calls + 1,
                 delivered := s.delivered + 1, freed := s.freed + 1, tasks := map[2 := aborted]))
  {
    var complete := Prepared(r.(status := Complete));
    var published := s.(uploaded := Some(data), calls := s.calls + 1, delivered := s.delivered + 1,
                        tasks := map[2 := aborted, 1 := complete]);
    UploadsAndPublishes(cfg, s, 1, r, data);
    assert s.tasks[1 := complete] == published.tasks;
    WithoutHeadReaches(cfg, allowed, 1, s, [Upload(1), Publish(1, true)]);
    assert Window(published) == {};
    CompleteFrees(cfg, allowed, 1, published, 1, complete.s);
    assert published.tasks - {1} == map[2 := aborted];
    WithinOn(cfg, allowed, 1, s, published,
             published.(record := Some(complete.s), freed := s.freed + 1, tasks := map[2 := aborted]));
  }

  /** From the object on: the completion publishes and frees the slot, and so does the abort that waited. */
  lemma BothFree(cfg: Config, allowed: set<PatchRequest>, s: State, r: Session, data: Bytes)
    requires s.record == Some(r) && cfg.hash(data) == r.checksum && |Window(s)| <= 1
    requires s.tasks == map[2 := Prepared(r.(status := Aborted)), 1 := Uploading(r, data)]
    ensures ReachesWithin(cfg, allowed, 1, s,
              s.(record := None, uploaded := Some(data), calls := s.calls + 1, delivered := s.delivered + 1,
                 freed := s.freed + 2, tasks := map[]))
  {
    var aborted := Prepared(r.(status := Aborted));
    var freed := s.(record := Some(r.(status := Complete)), uploaded := Some(data), calls := s.calls + 1,
                    delivered := s.delivered + 1, freed := s.freed + 1, tasks := map[2 := aborted]);
    CompletionFrees(cfg, allowed, s, r, data, aborted);
    assert Window(freed) == {};
    AbortFrees(cfg, allowed, 1, freed, 2, aborted.s);
    assert freed.tasks - {2} == map[];
    WithinOn(cfg, allowed, 1, s, freed, freed.(record := None, freed := s.freed + 2, tasks := map[]));
  }

  lemma AbortOvertaken(cfg: Config, allowed: set<PatchRequest>, r: Session, data: Bytes)
    requires OneChunk(cfg, r, data)
    ensures ReachesWithin(cfg, allowed, 1, Crowd(r, data, 0, 0),
              State(None, true, map[0 := data], Some(data), 1, 1, 2, map[]))
  {
    var s0, aborted := Crowd(r, data, 0, 0), Prepared(r.(status := Aborted));
    var s1 := s0.(tasks := map[2 := aborted]);
    var s2, s3 := Put(s1, 1, Reading(r, [data])), Put(s1, 1, Uploading(r, data));
    AbortWaits(cfg, allowed, 1, r, data);
    assert Window(s1) == {} && Window(s3) == {1};
    OneMoreReads(cfg, allowed, 1, s1, 1, r, data);
    OneMorePasses(cfg, allowed, 1, s1, 1, r, data);
    WithinOn(cfg, allowed, 1, s0, s1, s2);
    WithinOn(cfg, allowed, 1, s0, s2, s3);
    BothFree(cfg, allowed, s3, r, data);
    WithinOn(cfg, allowed, 1, s0, s3, State(None, true, map[0 := data], Some(data), 1, 1, 2, map[]));
  }

  /** One abort and one completion that read the same record both give its slot back. */
  lemma AbortAndCompleteFreeTwice(cfg: Config, start: Session, data: Bytes)
    requires CreatedFor(cfg, start, [data]) && |data| <= MAX_CHUNK_SIZE
    ensures ReachesWithin(cfg, {RequestFor(cfg, start, [data], 0)}, 1, Created(start),
              State(None, true, map[0 := data], Some(data), 1, 1, 2, map[]))
  {
    var q, r := RequestFor(cfg, start, [data], 0), RecordAt(cfg, start, [data], 1);
    FileIsReceived(cfg, start, data, 1);
    ReceivedIsOneChunk(cfg, start, data);
    AbortOvertaken(cfg, {q}, r, data);
    WithinOn(cfg, {q}, 1, Created(start), Crowd(r, data, 0, 0),
             State(None, true, map[0 := data], Some(data), 1, 1, 2, map[]));
  }

  /** Requests i + 1 .. n, which have published and are to write COMPLETE. */
  function Rest(r: Session, i: nat, n: nat): map<nat, Task> {
    if n <= i then map[] else Rest(r, i, n - 1)[n := Prepared(r.(status := Complete))]
  }

  lemma {:induction false} RestHas(r: Session, i: nat, n: nat, p: nat)
    ensures p in Rest(r, i, n) <==> i < p <= n
    ensures i < p <= n ==> Rest(r, i, n)[p] == Prepared(r.(status := Complete))
  {
    if n > i {
      RestHas(r, i, n - 1, p);
    }
  }

  lemma RestWithout(r: Session, i: nat, next: nat, n: nat)
    requires next == i + 1 <= n
    ensures Rest(r, i, n) - {next} == Rest(r, next, n)
  {
    var left := Rest(r, i, n) - {next};
    forall p: nat
      ensures p in left <==> p in Rest(r, next, n)
      ensures p in left ==> left[p] == Rest(r, next, n)[p]
    {
      RestHas(r, i, n, p);
      RestHas(r, next, n, p);
    }
    assert left.Keys == Rest(r, next, n).Keys;
  }

  lemma LineIsRest(r: Session, data: Bytes, n: nat)
    ensures Line(r, data, n, n) == Rest(r, 0, n)
  {
    var line, rest := Line(r, data, n, n), Rest(r, 0, n);
    forall p: nat
      ensures p in line <==> p in rest
      ensures p in rest ==> line[p] == rest[p]
    {
      LineHas(r, data, n, n, p);
      RestHas(r, 0, n, p);
    }
    assert line.Keys == rest.Keys;
    assert line == rest;
  }

  /** The crowd of n after i of them have written COMPLETE and given the slot back. */
  function Leaving(r: Session, data: Bytes, i: nat, n: nat): State {
    Crowd(r, data, n, n).(record := Some(if i == 0 then r else r.(status := Complete)), freed := i, tasks := Rest(r, i, n))
  }

  lemma OneMoreLeaves(cfg: Config, allowed: set<PatchRequest>, r: Session, data: Bytes, i: nat, n: nat)
    requires i < n
    ensures ReachesWithin(cfg, allowed, n, Leaving(r, data, i, n), Leaving(r, data, i + 1, n))
  {
    var s := Leaving(r, data, i, n);
    RestHas(r, i, n, i + 1);
    forall p ensures p !in Window(s) {
      RestHas(r, i, n, p);
    }
    assert Window(s) == {};
    RestWithout(r, i, i + 1, n);
    CompleteFrees(cfg, allowed, n, s, i + 1, r.(status := Complete));
  }

  lemma {:induction false} CrowdLeaves(cfg: Config, allowed: set<PatchRequest>, r: Session, data: Bytes, i: nat, n: nat)
    requires OneChunk(cfg, r, data) && i <= n
    ensures ReachesWithin(cfg, allowed, n, Crowd(r, data, 0, 0), Leaving(r, data, i, n))
  {
    if i == 0 {
      CrowdPublishes(cfg, allowed, n, r, data, n);
      LineIsRest(r, data, n);
    } else {
      CrowdLeaves(cfg, allowed, r, data, i - 1, n);
      OneMoreLeaves(cfg, allowed, r, data, i - 1, n);
      WithinOn(cfg, allowed, n, Crowd(r, data, 0, 0), Leaving(r, data, i - 1, n), Leaving(r, data, i, n));
    }
  }

  /** For every k, k racing completions can give the slot of one session back k times, without any abort. */
  lemma RacingCompletionsFree(cfg: Config, start: Session, data: Bytes, k: nat)
    requires CreatedFor(cfg, start, [data]) && |data| <= MAX_CHUNK_SIZE
    ensures var r := RecordAt(cfg, start, [data], 1);
            && ReachesWithin(cfg, {RequestFor(cfg, start, [data], 0)}, k, Created(start), Leaving(r, data, k, k))
            && Leaving(r, data, k, k).freed == k
  {
    var q, r := RequestFor(cfg, start, [data], 0), RecordAt(cfg, start, [data], 1);
    FileIsReceived(cfg, start, data, k);
    ReceivedIsOneChunk(cfg, start, data);
    CrowdLeaves(cfg, {q}, r, data, k, k);
    WithinOn(cfg, {q}, k, Created(start), Crowd(r, data, 0, 0), Leaving(r, data, k, k));
  }
}
