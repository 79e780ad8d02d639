/** A request on a session whose commands run one after the other does what the sequential model says. */
module UndisturbedRuns {
  import opened Types
  import opened World
  import opened Manifest
  import opened Storage
  import opened Protocol
  import opened Sessions
  import Actions
  import opened RoundTrip
  import opened Answers
  import opened WriterInterleaving

  lemma RunFive(cfg: Config, s: State, a: Command, b: Command, c: Command, d: Command, e: Command)
    ensures RunAll(cfg, s, ([a] + [b, c]) + [d, e])
         == Exec(cfg, Exec(cfg, Exec(cfg, Exec(cfg, Exec(cfg, s, a), b), c), d), e)
  {
    RunAppend(cfg, s, [a] + [b, c], [d, e]);
    RunAppend(cfg, s, [a], [b, c]);
    RunOne(cfg, s, a);
    RunTwo(cfg, Exec(cfg, s, a), b, c);
    RunTwo(cfg, Exec(cfg, Exec(cfg, Exec(cfg, s, a), b), c), d, e);
  }

  lemma RunMore(cfg: Config, s: State, commands: seq<Command>, last: Command, before: State, after: State)
    requires RunAll(cfg, s, commands) == before && Exec(cfg, before, last) == after
    ensures RunAll(cfg, s, commands + [last]) == after
  {
    assert (commands + [last])[..|commands|] == commands;
  }

  /** A command of a request that has ended changes nothing. */
  lemma Idle(cfg: Config, s: State, c: Command)
    requires Continues(c) && c.p !in s.tasks
    ensures Exec(cfg, s, c) == s
  {
  }

  lemma PutTwice(s: State, p: nat, t: Task, t': Task)
    ensures Put(Put(s, p, t), p, t') == Put(s, p, t')
  {
    assert s.tasks[p := t][p := t'] == s.tasks[p := t'];
  }

  lemma Writes(cfg: Config, s: State, p: nat, r: Session)
    requires p !in s.tasks && s.record.Some?
    ensures var s' := Exec(cfg, Exec(cfg, Put(s, p, Prepared(r)), Confirm(p)), Write(p));
            s' == if r.status == Aborted then Put(s.(record := Some(r)), p, Deleting)
                  else if r.status == Status.Complete then Put(s.(record := Some(r)), p, Freeing)
                  else s.(record := Some(r))
  {
    var tasks := s.tasks[p := Prepared(r)][p := Confirmed(r)];
    assert Exec(cfg, Put(s, p, Prepared(r)), Confirm(p)) == s.(tasks := tasks);
    assert tasks[p := Deleting] == s.tasks[p := Deleting] && tasks[p := Freeing] == s.tasks[p := Freeing];
    assert tasks - {p} == s.tasks;
  }

  lemma Frees(cfg: Config, s: State, p: nat)
    requires p !in s.tasks
    ensures Exec(cfg, Put(s, p, Freeing), Free(p)) == s.(freed := s.freed + 1)
  {
    assert s.tasks[p := Freeing] - {p} == s.tasks;
  }

  // ---- Abort ----

  function Aborting(p: nat): seq<Command> {
    ([LoadToAbort(p)] + [Confirm(p), Write(p)]) + [Delete(p), Free(p)]
  }

  lemma LiveAbortRuns(cfg: Config, s: State, p: nat)
    requires p !in s.tasks && s.record.Some? && s.record.value.status.Live()
    ensures RunAll(cfg, s, Aborting(p)) == s.(record := None, freed := s.freed + 1)
  {
    var ended := s.record.value.(status := Aborted);
    RunFive(cfg, s, LoadToAbort(p), Confirm(p), Write(p), Delete(p), Free(p));
    assert Exec(cfg, s, LoadToAbort(p)) == Put(s, p, Prepared(ended));
    Writes(cfg, s, p, ended);
    assert s.tasks[p := Deleting][p := Freeing] == s.tasks[p := Freeing];
    assert Exec(cfg, Put(s.(record := Some(ended)), p, Deleting), Delete(p)) == Put(s.(record := None), p, Freeing);
    Frees(cfg, s.(record := None), p);
  }

  lemma OtherAbortRuns(cfg: Config, s: State, p: nat)
    requires p !in s.tasks && (s.record.Some? ==> !s.record.value.status.Live())
    ensures RunAll(cfg, s, Aborting(p)) == s
  {
    RunFive(cfg, s, LoadToAbort(p), Confirm(p), Write(p), Delete(p), Free(p));
  }

  lemma ShowsAfter(r: RedisState, r': RedisState, key: Key, s: State, s': State)
    requires Shows(r, key, s) && r'.chunks == r.chunks && s'.chunks == s.chunks
    requires s'.record == if key in r'.sessions then Some(r'.sessions[key].value) else None
    ensures Shows(r', key, s')
  {
  }

  /** An abort: the record goes and one slot is freed exactly when the sequential abort is answered. */
  lemma AbortAloneIsSequential(cfg: Config, r: RedisState, key: Key, s: State, p: nat)
    requires SessionsOk(cfg, r) && Shows(r, key, s) && p !in s.tasks
    ensures var (r', answer) := AbortUpload(r, key, {});
            var s' := RunAll(cfg, s, Aborting(p));
            && Shows(r', key, s')
            && s' == s.(record := s'.record, freed := s.freed + if answer.Ok? then 1 else 0)
  {
    var r' := AbortUpload(r, key, {}).0;
    CancelAnswersExactly(cfg, r, key, {});
    if key in r.sessions && r.sessions[key].value.status.Live() {
      LiveAbortRuns(cfg, s, p);
    } else {
      OtherAbortRuns(cfg, s, p);
    }
    ShowsAfter(r, r', key, s, RunAll(cfg, s, Aborting(p)));
  }

  // ---- Complete ----

  function Repeated(c: Command, n: nat): seq<Command> {
    if n == 0 then [] else Repeated(c, n - 1) + [c]
  }

  lemma {:induction false} RepeatedRuns(cfg: Config, c: Command, n: nat, state: nat -> State)
    requires forall i :: 0 <= i < n ==> Exec(cfg, state(i), c) == state(i + 1)
    ensures RunAll(cfg, state(0), Repeated(c, n)) == state(n)
  {
    if n > 0 {
      RepeatedRuns(cfg, c, n - 1, state);
      RunMore(cfg, state(0), Repeated(c, n - 1), c, state(n - 1), state(n));
    }
  }

  function Closing(p: nat): seq<Command> {
    ([Head(p)] + [Upload(p), Command.Publish(p, true)]) + [Confirm(p), Write(p)]
  }

  /** All commands of a completion of n chunks in which no call raises and which finds no duplicate. */
  function Completing(p: nat, n: nat): seq<Command> {
    (([LoadToComplete(p)] + Repeated(ReadNext(p), n)) + Closing(p)) + [Free(p)]
  }

  /** The chunks at the first n indices. */
  function Found(s: State, n: nat): seq<Bytes> {
    if n == 0 then [] else Found(s, n - 1) + [if n - 1 in s.chunks then s.chunks[n - 1] else []]
  }

  lemma {:induction false} FoundIsKept(r: RedisState, key: Key, s: State, n: nat)
    requires Shows(r, key, s)
    ensures Found(s, n) == Kept(r, key, n)
  {
    if n == 0 {
      assert Kept(r, key, 0) == [];
    } else {
      FoundIsKept(r, key, s, n - 1);
      assert Kept(r, key, n) == Kept(r, key, n - 1) + [Kept(r, key, n)[n - 1]];
    }
  }

  lemma {:induction false} FoundLength(s: State, n: nat)
    ensures |Found(s, n)| == n
  {
    if n > 0 {
      FoundLength(s, n - 1);
    }
  }

  lemma ReadPasses(cfg: Config, s: State, p: nat, r: Session, chunks: seq<Bytes>)
    requires p in s.tasks && s.tasks[p] == Reading(r, chunks)
    requires var i := |chunks|;
             i < |r.manifest| && SortByIndex(r.manifest) == r.manifest && r.manifest[i].index == i && i in s.chunks
    ensures Exec(cfg, s, ReadNext(p)) == Put(s, p, Reading(r, chunks + [s.chunks[|chunks|]]))
  {
  }

  lemma ReadOne(cfg: Config, s: State, p: nat, r: Session, i: nat)
    requires i < |r.manifest| && SortByIndex(r.manifest) == r.manifest && r.manifest[i].index == i
    requires p !in s.tasks && i in s.chunks
    ensures Exec(cfg, Put(s, p, Reading(r, Found(s, i))), ReadNext(p)) == Put(s, p, Reading(r, Found(s, i + 1)))
  {
    FoundLength(s, i);
    ReadPasses(cfg, Put(s, p, Reading(r, Found(s, i))), p, r, Found(s, i));
    PutTwice(s, p, Reading(r, Found(s, i)), Reading(r, Found(s, i + 1)));
  }

  function ReadStage(s: State, p: nat, r: Session, i: nat): State {
    Put(s, p, Reading(r, Found(s, i)))
  }

  lemma ReadsRun(cfg: Config, s: State, p: nat, r: Session)
    requires InOrder(r.manifest) && SortByIndex(r.manifest) == r.manifest && p !in s.tasks
    requires forall i :: 0 <= i < |r.manifest| ==> i in s.chunks
    ensures var n := |r.manifest|;
            RunAll(cfg, Put(s, p, Reading(r, [])), Repeated(ReadNext(p), n)) == ReadStage(s, p, r, n)
  {
    forall i: nat | i < |r.manifest|
      ensures Exec(cfg, ReadStage(s, p, r, i), ReadNext(p)) == ReadStage(s, p, r, i + 1)
    {
      ReadOne(cfg, s, p, r, i);
    }
    RepeatedRuns(cfg, ReadNext(p), |r.manifest|, (i: nat) => ReadStage(s, p, r, i));
  }

  /** How the commands after the reads end. */
  function ClosingEnd(cfg: Config, s: State, r: Session, chunks: seq<Bytes>): State {
    var file := Concat(chunks);
    if !ChunksAllowed(chunks) || s.uploaded.Some? || cfg.hash(file) != r.checksum
    then s.(record := Some(r.(status := Failed)))
    else s.(record := Some(r.(status := Status.Complete)), uploaded := Some(file), calls := s.calls + 1,
            delivered := s.delivered + 1, freed := s.freed + 1)
  }

  lemma ClosingSteps(cfg: Config, s: State, p: nat, a: State, b: State, c: State)
    requires Exec(cfg, s, Head(p)) == a && Exec(cfg, a, Upload(p)) == b && Exec(cfg, b, Command.Publish(p, true)) == c
    ensures RunAll(cfg, s, Closing(p)) == Exec(cfg, Exec(cfg, c, Confirm(p)), Write(p))
  {
    RunFive(cfg, s, Head(p), Upload(p), Command.Publish(p, true), Confirm(p), Write(p));
  }

  lemma HeadStops(cfg: Config, s: State, p: nat, r: Session, chunks: seq<Bytes>)
    requires |chunks| == |SortByIndex(r.manifest)|
    requires !ChunksAllowed(chunks) || s.uploaded.Some?
    ensures Exec(cfg, Put(s, p, Reading(r, chunks)), Head(p)) == Put(s, p, Prepared(r.(status := Failed)))
  {
    var loaded := Put(s, p, Reading(r, chunks));
    assert AfterHead(loaded, p, r, chunks) == Put(loaded, p, Prepared(r.(status := Failed)));
    PutTwice(s, p, Reading(r, chunks), Prepared(r.(status := Failed)));
  }

  /** A request about to write takes no notice of the commands of another stage. */
  lemma PreparedWaits(cfg: Config, s: State, p: nat, r: Session)
    ensures var waiting := Put(s, p, Prepared(r));
            Exec(cfg, waiting, Upload(p)) == waiting && Exec(cfg, waiting, Command.Publish(p, true)) == waiting
  {
  }

  lemma HeadFails(cfg: Config, s: State, p: nat, r: Session, chunks: seq<Bytes>)
    requires p !in s.tasks && s.record.Some? && |chunks| == |SortByIndex(r.manifest)|
    requires !ChunksAllowed(chunks) || s.uploaded.Some?
    ensures RunAll(cfg, Put(s, p, Reading(r, chunks)), Closing(p)) == s.(record := Some(r.(status := Failed)))
  {
    var failed := Put(s, p, Prepared(r.(status := Failed)));
    HeadStops(cfg, s, p, r, chunks);
    PreparedWaits(cfg, s, p, r.(status := Failed));
    ClosingSteps(cfg, Put(s, p, Reading(r, chunks)), p, failed, failed, failed);
    Writes(cfg, s, p, r.(status := Failed));
  }

  lemma HeadPasses(cfg: Config, s: State, p: nat, r: Session, chunks: seq<Bytes>)
    requires p !in s.tasks && |chunks| == |SortByIndex(r.manifest)|
    requires ChunksAllowed(chunks) && s.uploaded.None?
    ensures Exec(cfg, Put(s, p, Reading(r, chunks)), Head(p)) == Put(s, p, Uploading(r, Concat(chunks)))
  {
    var loaded := Put(s, p, Reading(r, chunks));
    assert AfterHead(loaded, p, r, chunks) == Put(loaded, p, Uploading(r, Concat(chunks)));
    PutTwice(s, p, Reading(r, chunks), Uploading(r, Concat(chunks)));
  }

  lemma UploadFails(cfg: Config, s: State, p: nat, r: Session, chunks: seq<Bytes>)
    requires p !in s.tasks && s.record.Some? && |chunks| == |SortByIndex(r.manifest)|
    requires ChunksAllowed(chunks) && s.uploaded.None? && cfg.hash(Concat(chunks)) != r.checksum
    ensures RunAll(cfg, Put(s, p, Reading(r, chunks)), Closing(p)) == s.(record := Some(r.(status := Failed)))
  {
    var loading, failed := Put(s, p, Uploading(r, Concat(chunks))), Put(s, p, Prepared(r.(status := Failed)));
    HeadPasses(cfg, s, p, r, chunks);
    UploadStops(cfg, s, p, r, Concat(chunks));
    PreparedWaits(cfg, s, p, r.(status := Failed));
    ClosingSteps(cfg, Put(s, p, Reading(r, chunks)), p, loading, failed, failed);
    Writes(cfg, s, p, r.(status := Failed));
  }

  lemma UploadStops(cfg: Config, s: State, p: nat, r: Session, data: Bytes)
    requires s.uploaded.None? && cfg.hash(data) != r.checksum
    ensures Exec(cfg, Put(s, p, Uploading(r, data)), Upload(p)) == Put(s, p, Prepared(r.(status := Failed)))
  {
    PutTwice(s, p, Uploading(r, data), Prepared(r.(status := Failed)));
  }

  lemma UploadPasses(cfg: Config, s: State, p: nat, r: Session, data: Bytes)
    requires p !in s.tasks && cfg.hash(data) == r.checksum
    ensures Exec(cfg, Put(s, p, Uploading(r, data)), Upload(p)) == Put(s.(uploaded := Some(data)), p, Uploaded(r))
  {
    PutTwice(s.(uploaded := Some(data)), p, Uploading(r, data), Uploaded(r));
  }

  lemma PublishPasses(cfg: Config, s: State, p: nat, r: Session)
    requires p !in s.tasks
    ensures Exec(cfg, Put(s, p, Uploaded(r)), Command.Publish(p, true)) ==
            Put(s.(calls := s.calls + 1, delivered := s.delivered + 1), p, Prepared(r.(status := Status.Complete)))
  {
    PutTwice(s.(calls := s.calls + 1, delivered := s.delivered + 1), p, Uploaded(r),
             Prepared(r.(status := Status.Complete)));
  }

  lemma UploadSucceeds(cfg: Config, s: State, p: nat, r: Session, chunks: seq<Bytes>)
    requires p !in s.tasks && s.record.Some? && |chunks| == |SortByIndex(r.manifest)|
    requires ChunksAllowed(chunks) && s.uploaded.None? && cfg.hash(Concat(chunks)) == r.checksum
    ensures RunAll(cfg, Put(s, p, Reading(r, chunks)), Closing(p)) ==
            Put(s.(record := Some(r.(status := Status.Complete)), uploaded := Some(Concat(chunks)),
                   calls := s.calls + 1, delivered := s.delivered + 1), p, Freeing)
  {
    var there := s.(uploaded := Some(Concat(chunks)));
    var called := there.(calls := s.calls + 1, delivered := s.delivered + 1);
    HeadPasses(cfg, s, p, r, chunks);
    UploadPasses(cfg, s, p, r, Concat(chunks));
    PublishPasses(cfg, there, p, r);
    ClosingSteps(cfg, Put(s, p, Reading(r, chunks)), p, Put(s, p, Uploading(r, Concat(chunks))),
                 Put(there, p, Uploaded(r)), Put(called, p, Prepared(r.(status := Status.Complete))));
    Writes(cfg, called, p, r.(status := Status.Complete));
  }

  lemma ClosingRuns(cfg: Config, s: State, p: nat, r: Session, chunks: seq<Bytes>)
    requires p !in s.tasks && s.record.Some? && |chunks| == |SortByIndex(r.manifest)|
    ensures Exec(cfg, RunAll(cfg, Put(s, p, Reading(r, chunks)), Closing(p)), Free(p)) == ClosingEnd(cfg, s, r, chunks)
  {
    if !ChunksAllowed(chunks) || s.uploaded.Some? {
      HeadFails(cfg, s, p, r, chunks);
    } else if cfg.hash(Concat(chunks)) != r.checksum {
      UploadFails(cfg, s, p, r, chunks);
    } else {
      UploadSucceeds(cfg, s, p, r, chunks);
      Frees(cfg, s.(record := Some(r.(status := Status.Complete)), uploaded := Some(Concat(chunks)),
                    calls := s.calls + 1, delivered := s.delivered + 1), p);
    }
  }

  lemma CompletingRuns(cfg: Config, s: State, p: nat, n: nat)
    requires p !in s.tasks && s.record.Some?
    requires var r := s.record.value;
             && r.status == InProgress && r.offset == r.size && IsComplete(r.manifest, r.size) && n == |r.manifest|
             && InOrder(r.manifest) && forall i :: 0 <= i < n ==> i in s.chunks
    ensures RunAll(cfg, s, Completing(p, n)) == ClosingEnd(cfg, s, s.record.value, Found(s, n))
  {
    var r := s.record.value;
    var loaded := Put(s, p, Reading(r, []));
    var before := ([LoadToComplete(p)] + Repeated(ReadNext(p), n)) + Closing(p);
    RunAppend(cfg, s, before, [Free(p)]);
    RunAppend(cfg, s, [LoadToComplete(p)] + Repeated(ReadNext(p), n), Closing(p));
    RunAppend(cfg, s, [LoadToComplete(p)], Repeated(ReadNext(p), n));
    RunOne(cfg, s, LoadToComplete(p));
    RunOne(cfg, RunAll(cfg, s, before), Free(p));
    assert Exec(cfg, s, LoadToComplete(p)) == loaded;
    InOrderIsSorted(r.manifest);
    ReadsRun(cfg, s, p, r);
    FoundLength(s, n);
    ClosingRuns(cfg, s, p, r, Found(s, n));
  }

  lemma IdleReads(cfg: Config, s: State, p: nat, n: nat)
    requires p !in s.tasks
    ensures RunAll(cfg, s, Repeated(ReadNext(p), n)) == s
  {
    Idle(cfg, s, ReadNext(p));
    RepeatedRuns(cfg, ReadNext(p), n, (i: nat) => s);
  }

  lemma RefusedRuns(cfg: Config, s: State, p: nat, n: nat)
    requires p !in s.tasks && Exec(cfg, s, LoadToComplete(p)) == s
    ensures RunAll(cfg, s, Completing(p, n)) == s
  {
    var loading := [LoadToComplete(p)] + Repeated(ReadNext(p), n);
    RunOne(cfg, s, LoadToComplete(p));
    IdleReads(cfg, s, p, n);
    RunAppend(cfg, s, [LoadToComplete(p)], Repeated(ReadNext(p), n));
    ClosingSteps(cfg, s, p, s, s, s);
    RunAppend(cfg, s, loading, Closing(p));
    RunMore(cfg, s, loading + Closing(p), Free(p), s, s);
  }

  predicate ShowsObject(w: World, key: Key, s: State) {
    s.uploaded == if key in w.s3.objects then Some(w.s3.objects[key]) else None
  }

  /** The ending when no call raises and no duplicate is known. */
  lemma SmoothEnding(cfg: Config, w: World, key: Key)
    requires Received(w.redis, key) && Fingerprint(key.ws, w.redis.sessions[key].value.checksum) !in w.redis.dedup
    ensures var chunks, checksum := ChunksOf(w.redis, key), w.redis.sessions[key].value.checksum;
            && Assembles(w.redis, key, {})
            && if !ChunksAllowed(chunks) then EndingOf(cfg, w, key, {}) == Stopped(ValueError, true)
               else if key in w.s3.objects || cfg.hash(Concat(chunks)) != checksum
               then EndingOf(cfg, w, key, {}) == Stopped(IntegrityError, true)
               else EndingOf(cfg, w, key, {}) == Finished
  {
  }

  /** What the sequential completion leaves then, seen from this session. */
  lemma SmoothFinish(cfg: Config, w: World, key: Key)
    requires Actions.Inv(cfg, w) && Received(w.redis, key)
    requires Fingerprint(key.ws, w.redis.sessions[key].value.checksum) !in w.redis.dedup
    ensures var (w', answer) := CompleteUpload(cfg, w, key, {});
            var r, chunks := w.redis.sessions[key].value, ChunksOf(w.redis, key);
            && key in w'.redis.sessions
            && if !ChunksAllowed(chunks) || key in w.s3.objects || cfg.hash(Concat(chunks)) != r.checksum then
                 && answer.Err? && w'.redis.sessions[key].value == r.(status := Failed)
                 && w'.s3.objects == w.s3.objects && w'.bus == w.bus
               else
                 && answer.Ok? && w'.redis.sessions[key].value == r.(status := Status.Complete)
                 && w'.s3.objects == w.s3.objects[key := Concat(chunks)]
                 && |w'.bus.calls| == |w.bus.calls| + 1 && |w'.bus.delivered| == |w.bus.delivered| + 1
  {
    FinishAnswersExactly(cfg, w, key, {});
    SmoothEnding(cfg, w, key);
  }

  lemma ReceivedIsShown(cfg: Config, r: RedisState, key: Key, s: State)
    requires SessionsOk(cfg, r) && Shows(r, key, s) && Received(r, key)
    ensures var m := r.sessions[key].value.manifest;
            && IsComplete(m, r.sessions[key].value.size) && InOrder(m)
            && (forall i :: 0 <= i < |m| ==> i in s.chunks)
            && Found(s, |m|) == ChunksOf(r, key)
  {
    var m := r.sessions[key].value.manifest;
    assert SessionOk(cfg, r, key);
    RetrieveLive(cfg, r, key, {});
    FoundIsKept(r, key, s, |m|);
    forall i | 0 <= i < |m| ensures ChunkKey(key, i) in r.chunks {
      assert ChunkBacked(cfg, r, key, i);
    }
  }

  /** The number of reads of a completion. */
  function ListedChunks(r: RedisState, key: Key): nat {
    if key in r.sessions then |r.sessions[key].value.manifest| else 0
  }

  /** Record, object, publish calls, deliveries and freed slots change alike in both models, and nothing else in one. */
  predicate SameChange(w: World, w': World, ok: bool, key: Key, s: State, s': State) {
    && s'.record == (if key in w'.redis.sessions then Some(w'.redis.sessions[key].value) else None)
    && ShowsObject(w', key, s')
    && s'.calls + |w.bus.calls| == s.calls + |w'.bus.calls|
    && s'.delivered + |w.bus.delivered| == s.delivered + |w'.bus.delivered|
    && s'.freed == s.freed + (if ok then 1 else 0)
    && s'.tasks == s.tasks && s'.chunks == s.chunks && s'.timed == s.timed
  }

  lemma ReceivedAlone(cfg: Config, w: World, key: Key, s: State, p: nat)
    requires Actions.Inv(cfg, w) && Shows(w.redis, key, s) && ShowsObject(w, key, s) && p !in s.tasks
    requires Received(w.redis, key) && Fingerprint(key.ws, w.redis.sessions[key].value.checksum) !in w.redis.dedup
    ensures var (w', answer) := CompleteUpload(cfg, w, key, {});
            SameChange(w, w', answer.Ok?, key, s, RunAll(cfg, s, Completing(p, ListedChunks(w.redis, key))))
  {
    ReceivedIsShown(cfg, w.redis, key, s);
    CompletingRuns(cfg, s, p, ListedChunks(w.redis, key));
    SmoothFinish(cfg, w, key);
  }

  lemma RefusedChange(cfg: Config, w: World, key: Key)
    requires Actions.Inv(cfg, w) && !Received(w.redis, key)
    ensures CompleteUpload(cfg, w, key, {}).0 == w && CompleteUpload(cfg, w, key, {}).1.Err?
  {
    CheckCompleteOutcome(cfg, w.redis, key, {});
  }

  /**
   * A completion in which no call raises and which knows no duplicate: record, object, publish calls, deliveries and
   * freed slots change exactly as in the sequential model. The clean-up of the chunks is a matter of other commands.
   */
  lemma FinishAloneIsSequential(cfg: Config, w: World, key: Key, s: State, p: nat)
    requires Actions.Inv(cfg, w) && Shows(w.redis, key, s) && ShowsObject(w, key, s) && p !in s.tasks
    requires key in w.redis.sessions ==>
               Fingerprint(key.ws, w.redis.sessions[key].value.checksum) !in w.redis.dedup
    ensures var (w', answer) := CompleteUpload(cfg, w, key, {});
            SameChange(w, w', answer.Ok?, key, s, RunAll(cfg, s, Completing(p, ListedChunks(w.redis, key))))
  {
    if Received(w.redis, key) {
      ReceivedAlone(cfg, w, key, s, p);
    } else {
      RefusedChange(cfg, w, key);
      assert Exec(cfg, s, LoadToComplete(p)) == s;
      RefusedRuns(cfg, s, p, ListedChunks(w.redis, key));
    }
  }

  // ---- Complete, when a call raises ----

  /** A completion that stands at t holds the record r, or is about to write COMPLETE or FAILED over it. */
  predicate Unfinished(t: Task, r: Session) {
    match t
    case Reading(s, _) => s == r
    case Uploading(s, _) => s == r
    case Uploaded(s) => s == r
    case Prepared(s, _) => s == r.(status := Status.Complete) || s == r.(status := Failed)
    case Confirmed(s, _) => s == r.(status := Status.Complete) || s == r.(status := Failed)
    case _ => false
  }

  lemma GivesUp(cfg: Config, s: State, p: nat, t: Task, r: Session)
    requires Unfinished(t, r)
    ensures Exec(cfg, Put(s, p, t), GiveUp(p)) == Put(s, p, Prepared(r.(status := Failed)))
  {
    PutTwice(s, p, t, Prepared(r.(status := Failed)));
  }

  lemma RunThree(cfg: Config, s: State, a: Command, b: Command, c: Command)
    ensures RunAll(cfg, s, [a] + [b, c]) == Exec(cfg, Exec(cfg, Exec(cfg, s, a), b), c)
  {
    RunAppend(cfg, s, [a], [b, c]);
    RunOne(cfg, s, a);
    RunTwo(cfg, Exec(cfg, s, a), b, c);
  }

  /**
   * Wherever a completion stands when a call of it raises, or when it meets a duplicate: undisturbed it writes FAILED and
   * is done, without another effect.
   */
  lemma RaisingAlone(cfg: Config, s: State, p: nat, t: Task, r: Session)
    requires p !in s.tasks && s.record.Some? && Unfinished(t, r)
    ensures RunAll(cfg, Put(s, p, t), [GiveUp(p)] + [Confirm(p), Write(p)]) == s.(record := Some(r.(status := Failed)))
  {
    RunThree(cfg, Put(s, p, t), GiveUp(p), Confirm(p), Write(p));
    GivesUp(cfg, s, p, t, r);
    Writes(cfg, s, p, r.(status := Failed));
  }

  /** When the publish raises, FAILED is written twice: by the inner handler, and again by the outer one. */
  lemma UnpublishedAlone(cfg: Config, s: State, p: nat, r: Session)
    requires p !in s.tasks && s.record.Some?
    ensures var failed := r.(status := Failed);
            var called := s.(calls := s.calls + 1);
            var once := RunAll(cfg, Put(s, p, Uploaded(r)), [Command.Publish(p, false)] + [Confirm(p), Write(p)]);
            && once == Put(called.(record := Some(failed)), p, Prepared(failed))
            && RunAll(cfg, once, [Confirm(p), Write(p)]) == called.(record := Some(failed))
  {
    var failed, called := r.(status := Failed), s.(calls := s.calls + 1);
    RunThree(cfg, Put(s, p, Uploaded(r)), Command.Publish(p, false), Confirm(p), Write(p));
    PublishStops(cfg, s, p, r);
    WritesAgain(cfg, called, p, failed);
    RunTwo(cfg, Put(called.(record := Some(failed)), p, Prepared(failed)), Confirm(p), Write(p));
    Writes(cfg, called.(record := Some(failed)), p, failed);
  }

  lemma PublishStops(cfg: Config, s: State, p: nat, r: Session)
    ensures Exec(cfg, Put(s, p, Uploaded(r)), Command.Publish(p, false))
         == Put(s.(calls := s.calls + 1), p, Prepared(r.(status := Failed), true))
  {
    PutTwice(s.(calls := s.calls + 1), p, Uploaded(r), Prepared(r.(status := Failed), true));
  }

  lemma WritesAgain(cfg: Config, s: State, p: nat, r: Session)
    requires s.record.Some?
    ensures Exec(cfg, Exec(cfg, Put(s, p, Prepared(r, true)), Confirm(p)), Write(p))
         == Put(s.(record := Some(r)), p, Prepared(r))
  {
    PutTwice(s, p, Prepared(r, true), Confirmed(r, true));
    PutTwice(s.(record := Some(r)), p, Confirmed(r, true), Prepared(r));
  }

  /** A completion that finds a listed chunk missing ends and writes nothing. */
  lemma MissingChunkAlone(cfg: Config, s: State, p: nat, r: Session, chunks: seq<Bytes>)
    requires p !in s.tasks && |chunks| < |SortByIndex(r.manifest)|
    requires SortByIndex(r.manifest)[|chunks|].index !in s.chunks
    ensures Exec(cfg, Put(s, p, Reading(r, chunks)), ReadNext(p)) == s
  {
    assert s.tasks[p := Reading(r, chunks)] - {p} == s.tasks;
  }
}
