/** Where the upload slots of a workspace go: to live sessions, or to one of the known leaks. */
module Slots {
  import opened Types
  import opened World
  import opened Entity
  import opened Manifest
  import opened RateLimiter
  import opened Storage
  import opened Protocol
  import opened Sessions
  import opened Shapes
  import opened Actions
  import opened RoundTrip
  import opened Answers

  function LiveKeys(sessions: map<Key, Timed<Session>>, ws: Id): set<Key> {
    set key | key in sessions && key.ws == ws && sessions[key].value.status.Live()
  }

  /** Slots that are taken but belong to no live session. */
  function Leaked(r: RedisState, ws: Id): int {
    CountOf(r.counters, ws) - |LiveKeys(r.sessions, ws)|
  }

  ghost predicate SlotsOk(cfg: Config, r: RedisState) {
    forall ws: Id :: 0 <= Leaked(r, ws) && CountOf(r.counters, ws) <= cfg.limit
  }

  // ---- The leaks, operation by operation ----

  /** The slot is taken, no session comes of it, and giving it back raises. */
  function StartLeak(cfg: Config, r: RedisState, key: Key, q: UploadRequest, failing: set<Call>): nat {
    if && RequestPasses(q) && CountOf(r.counters, key.ws) < cfg.limit
       && CounterRead !in failing && CounterAdd !in failing
       && (q.mime != PDF || Call.CreateSession in failing) && CounterSubtract in failing
    then 1 else 0
  }

  /** The record is marked ABORTED, and then either the delete raises or giving the slot back does. */
  function CancelLeak(r: RedisState, key: Key, failing: set<Call>): nat {
    if && GetSession !in failing && key in r.sessions && r.sessions[key].value.status.Live()
       && WriteAborted !in failing && (Call.DeleteSession in failing || CounterSubtract in failing)
    then 1 else 0
  }

  /** The completion succeeds but giving the slot back raises, or it fails and FAILED can be written. */
  function FinishLeak(cfg: Config, w: World, key: Key, failing: set<Call>): nat {
    if && GetSession !in failing && Received(w.redis, key)
       && (if Completable(cfg, w, key) && NoCallFails(|w.redis.sessions[key].value.manifest|, failing)
           then CounterSubtract in failing else SomeFailedWriteWorks(cfg, w, key, failing))
    then 1 else 0
  }

  function Expiring(r: RedisState, ws: Id, seconds: nat): set<Key> {
    set key | key in LiveKeys(r.sessions, ws) && key in r.sessions && r.sessions[key].deadline <= r.now + seconds
  }

  function LeakOf(cfg: Config, w: World, a: Action, ws: Id): nat {
    match a
    case Start(key, request, failing) => if key.ws == ws then StartLeak(cfg, w.redis, key, request, failing) else 0
    case Send(_, _) => 0
    case Cancel(key, failing) => if key.ws == ws then CancelLeak(w.redis, key, failing) else 0
    case Finish(key, failing) => if key.ws == ws then FinishLeak(cfg, w, key, failing) else 0
    case Wait(seconds) => |Expiring(w.redis, ws, seconds)|
    case ResetCounter(_) => 0
  }

  function TotalLeak(cfg: Config, w: World, acts: seq<Action>, ws: Id): nat {
    if acts == [] then 0
    else
      var init := acts[..|acts| - 1];
      TotalLeak(cfg, w, init, ws) + LeakOf(cfg, Run(cfg, w, init), acts[|acts| - 1], ws)
  }

  // ---- Each operation accounts for its slots ----

  predicate EndedAs(r: RedisState, r': RedisState, key: Key, status: Status) {
    key in r.sessions && r.sessions[key].value.status.Live() &&
    key in r'.sessions && r'.sessions[key].value.status == status
  }

  lemma LivePut(sessions: map<Key, Timed<Session>>, key: Key, t: Timed<Session>, ws: Id)
    ensures LiveKeys(sessions[key := t], ws) ==
            if key.ws == ws && t.value.status.Live() then LiveKeys(sessions, ws) + {key}
            else LiveKeys(sessions, ws) - {key}
  {
  }

  lemma LiveRemove(sessions: map<Key, Timed<Session>>, key: Key, ws: Id)
    ensures LiveKeys(sessions - {key}, ws) == LiveKeys(sessions, ws) - {key}
  {
  }

  lemma LiveMember(sessions: map<Key, Timed<Session>>, key: Key, ws: Id)
    ensures key in LiveKeys(sessions, ws) <==>
            key in sessions && key.ws == ws && sessions[key].value.status.Live()
    ensures key in LiveKeys(sessions, ws) ==> |LiveKeys(sessions, ws)| >= 1
  {
    if key in LiveKeys(sessions, ws) {
      assert LiveKeys(sessions, ws) != {};
    }
  }

  /** Rewriting or removing the record of a live session. */
  lemma LiveCount(sessions: map<Key, Timed<Session>>, key: Key, t: Timed<Session>, ws: Id)
    requires key in sessions && sessions[key].value.status.Live()
    ensures var live := |LiveKeys(sessions, ws)|;
            && |LiveKeys(sessions[key := t], ws)| == live - (if key.ws == ws && !t.value.status.Live() then 1 else 0)
            && |LiveKeys(sessions - {key}, ws)| == live - (if key.ws == ws then 1 else 0)
            && (key.ws == ws ==> live >= 1)
  {
    LivePut(sessions, key, t, ws);
    LiveRemove(sessions, key, ws);
    LiveMember(sessions, key, ws);
    if key.ws == ws {
      assert LiveKeys(sessions, ws) + {key} == LiveKeys(sessions, ws);
    } else {
      assert LiveKeys(sessions, ws) - {key} == LiveKeys(sessions, ws);
    }
  }

  /** Giving back a slot that is counted. */
  lemma FreedCounts(counters: map<Id, int>, owner: Id, failing: set<Call>, ws: Id)
    requires CountOf(counters, owner) >= 1
    ensures CountOf(Freed(counters, owner, failing).0, ws)
         == CountOf(counters, ws) - if owner == ws && CounterSubtract !in failing then 1 else 0
    ensures Freed(counters, owner, failing).1.Err? <==> CounterSubtract in failing
  {
  }

  lemma TakenCounts(limit: Positive, r: RedisState, owner: Id, failing: set<Call>)
    ensures var (taken, slot) := TakeSlot(limit, r, owner, failing);
            && (slot.Err? ==> taken == r)
            && (slot.Ok? ==> taken.counters == r.counters[owner := CountOf(r.counters, owner) + 1]
                             && CountOf(r.counters, owner) < limit)
  {
  }

  lemma StartCounts(cfg: Config, r: RedisState, key: Key, q: UploadRequest, failing: set<Call>, ws: Id)
    requires 0 <= CountOf(r.counters, key.ws)
    requires CountOf(r.counters, ws) <= cfg.limit
    ensures var (r', answer) := InitiateUpload(cfg, r, key, q, failing);
            && CountOf(r'.counters, ws) <= cfg.limit
            && CountOf(r'.counters, ws) - CountOf(r.counters, ws)
               == if key.ws != ws then 0 else if answer.Ok? then 1 else StartLeak(cfg, r, key, q, failing)
  {
    StartAnswersExactly(cfg, r, key, q, failing);
  }

  lemma StartSlots(cfg: Config, r: RedisState, key: Key, q: UploadRequest, failing: set<Call>, ws: Id)
    requires 0 <= Leaked(r, key.ws) && CountOf(r.counters, ws) <= cfg.limit && key !in r.sessions
    ensures var r' := InitiateUpload(cfg, r, key, q, failing).0;
            && Leaked(r', ws) == Leaked(r, ws) + (if key.ws == ws then StartLeak(cfg, r, key, q, failing) else 0)
            && CountOf(r'.counters, ws) <= cfg.limit
  {
    StartCounts(cfg, r, key, q, failing, ws);
    StartSessions(cfg, r, key, q, failing);
    if InitiateUpload(cfg, r, key, q, failing).1.Ok? {
      LivePut(r.sessions, key, Timed(NewSession(key, q, r.now), r.now + SESSION_TTL), ws);
      LiveMember(r.sessions, key, ws);
    }
  }

  lemma StartSessions(cfg: Config, r: RedisState, key: Key, q: UploadRequest, failing: set<Call>)
    ensures var (r', answer) := InitiateUpload(cfg, r, key, q, failing);
            if answer.Ok? then CheckRequest(q) == None
              && r'.sessions == r.sessions[key := Timed(NewSession(key, q, r.now), r.now + SESSION_TTL)]
            else r'.sessions == r.sessions
  {
    InitiateShape(cfg, r, key, q, failing);
  }

  lemma SendSlots(cfg: Config, r: RedisState, patch: PatchRequest, failing: set<Call>, ws: Id)
    requires KeyedRight(r)
    ensures Leaked(ProcessChunk(cfg, r, patch, failing).0, ws) == Leaked(r, ws)
    ensures ProcessChunk(cfg, r, patch, failing).0.counters == r.counters
  {
    var (r', answer) := ProcessChunk(cfg, r, patch, failing);
    ProcessChunkShape(cfg, r, patch, failing);
    if answer.Ok? {
      ProgressedCount(r, r', patch, ws);
    }
  }

  lemma ProgressedCount(r: RedisState, r': RedisState, patch: PatchRequest, ws: Id)
    requires Progressed(r, r', patch)
    ensures |LiveKeys(r'.sessions, ws)| == |LiveKeys(r.sessions, ws)|
  {
    LiveCount(r.sessions, patch.key, r'.sessions[patch.key], ws);
  }

  lemma CancelledSlots(r: RedisState, r': RedisState, key: Key, ok: bool, failing: set<Call>, ws: Id)
    requires 0 <= Leaked(r, key.ws)
    requires CancelEnds(r, r', key, ok, failing)
    ensures Leaked(r', ws) == Leaked(r, ws) +
              if key.ws == ws && (EndedAs(r, r', key, Aborted) || (ok && CounterSubtract in failing)) then 1 else 0
    ensures CountOf(r'.counters, ws) <= CountOf(r.counters, ws)
  {
    if r' != r {
      var t := Timed(r.sessions[key].value.(status := Aborted), r.sessions[key].deadline);
      LiveCount(r.sessions, key, t, ws);
      LiveCount(r.sessions, key, t, key.ws);
      FreedCounts(r.counters, key.ws, failing, ws);
    }
  }

  lemma CancelLeaks(cfg: Config, r: RedisState, key: Key, failing: set<Call>)
    requires SessionsOk(cfg, r)
    ensures var (r', answer) := AbortUpload(r, key, failing);
            EndedAs(r, r', key, Aborted) || (answer.Ok? && CounterSubtract in failing) <==> CancelLeak(r, key, failing) == 1
  {
    CancelAnswersExactly(cfg, r, key, failing);
  }

  lemma CancelSlots(cfg: Config, r: RedisState, key: Key, failing: set<Call>, ws: Id)
    requires 0 <= Leaked(r, key.ws) && CountOf(r.counters, ws) <= cfg.limit && SessionsOk(cfg, r)
    ensures var r' := AbortUpload(r, key, failing).0;
            && Leaked(r', ws) == Leaked(r, ws) + (if key.ws == ws then CancelLeak(r, key, failing) else 0)
            && CountOf(r'.counters, ws) <= cfg.limit
  {
    var (r', answer) := AbortUpload(r, key, failing);
    KeyedRightAll(cfg, r);
    AbortShape(r, key, failing);
    CancelLeaks(cfg, r, key, failing);
    CancelledSlots(r, r', key, answer.Ok?, failing, ws);
  }

  lemma ConcludedSlots(r: RedisState, r': RedisState, key: Key, ok: bool, failing: set<Call>, ws: Id)
    requires 0 <= Leaked(r, key.ws)
    requires Concluded(r, r', key, ok, failing)
    ensures Leaked(r', ws) == Leaked(r, ws) +
              if key.ws == ws && (EndedAs(r, r', key, Failed) || (ok && CounterSubtract in failing)) then 1 else 0
    ensures CountOf(r'.counters, ws) <= CountOf(r.counters, ws)
  {
    if r'.sessions != r.sessions {
      var t := r'.sessions[key];
      assert r'.sessions == r.sessions[key := t];
      LiveCount(r.sessions, key, t, ws);
      if ok {
        LiveCount(r.sessions, key, t, key.ws);
        FreedCounts(r.counters, key.ws, failing, ws);
      }
    }
  }

  lemma FinishLeaks(cfg: Config, w: World, key: Key, failing: set<Call>)
    requires Inv(cfg, w)
    ensures var (w', answer) := CompleteUpload(cfg, w, key, failing);
            EndedAs(w.redis, w'.redis, key, Failed) || (answer.Ok? && CounterSubtract in failing) <==>
            FinishLeak(cfg, w, key, failing) == 1
  {
    FinishSucceedsExactly(cfg, w, key, failing);
    if key in w.redis.sessions && w.redis.sessions[key].value.status.Live() {
      FailsExactly(cfg, w, key, failing);
    }
  }

  lemma FinishSlots(cfg: Config, w: World, key: Key, failing: set<Call>, ws: Id)
    requires 0 <= Leaked(w.redis, key.ws) && CountOf(w.redis.counters, ws) <= cfg.limit
    requires Inv(cfg, w)
    ensures var r' := CompleteUpload(cfg, w, key, failing).0.redis;
            && Leaked(r', ws) == Leaked(w.redis, ws) + (if key.ws == ws then FinishLeak(cfg, w, key, failing) else 0)
            && CountOf(r'.counters, ws) <= cfg.limit
  {
    var (w', answer) := CompleteUpload(cfg, w, key, failing);
    KeyedRightAll(cfg, w.redis);
    CompleteShape(cfg, w, key, failing);
    FinishLeaks(cfg, w, key, failing);
    ConcludedSlots(w.redis, w'.redis, key, answer.Ok?, failing, ws);
  }

  lemma WaitSlots(r: RedisState, seconds: nat, ws: Id)
    ensures Leaked(r.Tick(seconds), ws) == Leaked(r, ws) + |Expiring(r, ws, seconds)|
    ensures r.Tick(seconds).counters == r.counters
  {
    assert LiveKeys(r.Tick(seconds).sessions, ws) == LiveKeys(r.sessions, ws) - Expiring(r, ws, seconds);
  }

  lemma StepSlots(cfg: Config, w: World, a: Action, ws: Id)
    requires Inv(cfg, w) && SlotsOk(cfg, w.redis)
    requires !a.ResetCounter? && (a.Start? ==> a.key !in w.redis.sessions)
    ensures var r' := Apply(cfg, w, a).redis;
            && Leaked(r', ws) == Leaked(w.redis, ws) + LeakOf(cfg, w, a, ws)
            && CountOf(r'.counters, ws) <= cfg.limit
  {
    KeyedRightAll(cfg, w.redis);
    assert forall other: Id :: 0 <= Leaked(w.redis, other);
    match a
    case Start(key, request, failing) => StartSlots(cfg, w.redis, key, request, failing, ws);
    case Send(patch, failing) => SendSlots(cfg, w.redis, patch, failing, ws);
    case Cancel(key, failing) => CancelSlots(cfg, w.redis, key, failing, ws);
    case Finish(key, failing) => FinishSlots(cfg, w, key, failing, ws);
    case Wait(seconds) => WaitSlots(w.redis, seconds, ws);
  }

  lemma {:induction false} RunSlots(cfg: Config, now: int, acts: seq<Action>)
    requires UniqueIds(acts) && forall a :: a in acts ==> !a.ResetCounter?
    ensures SlotsOk(cfg, Run(cfg, Empty(now), acts).redis)
    ensures forall ws: Id :: Leaked(Run(cfg, Empty(now), acts).redis, ws) == TotalLeak(cfg, Empty(now), acts, ws)
  {
    if acts == [] {
      forall ws: Id ensures LiveKeys(Empty(now).redis.sessions, ws) == {} {
      }
    } else {
      var init, last := acts[..|acts| - 1], acts[|acts| - 1];
      LastIdIsNew(acts);
      RunSlots(cfg, now, init);
      RunKeepsInv(cfg, now, init);
      forall ws: Id
        ensures var r' := Run(cfg, Empty(now), acts).redis;
                && Leaked(r', ws) == TotalLeak(cfg, Empty(now), acts, ws)
                && CountOf(r'.counters, ws) <= cfg.limit
      {
        StepSlots(cfg, Run(cfg, Empty(now), init), last, ws);
      }
    }
  }

  /**
   * Conservation of slots. The counter of a workspace is the number of its live sessions plus everything leaked so far;
   * a step leaks exactly when it persists FAILED, lets a live session expire, leaves a record ABORTED, or loses a
   * decrement. So live sessions never exceed the limit.
   */
  lemma SlotConservation(cfg: Config, now: int, acts: seq<Action>, ws: Id)
    requires UniqueIds(acts) && forall a :: a in acts ==> !a.ResetCounter?
    ensures var r := Run(cfg, Empty(now), acts).redis;
            && CountOf(r.counters, ws) == |LiveKeys(r.sessions, ws)| + TotalLeak(cfg, Empty(now), acts, ws)
            && |LiveKeys(r.sessions, ws)| <= CountOf(r.counters, ws) <= cfg.limit
  {
    RunSlots(cfg, now, acts);
    var r := Run(cfg, Empty(now), acts).redis;
    assert Leaked(r, ws) == TotalLeak(cfg, Empty(now), acts, ws) && CountOf(r.counters, ws) <= cfg.limit;
  }

  // ---- The branches for a negative counter are dead code ----

  /** The same external failures, except that the command which resets a negative counter works. */
  function ClampWorks(failing: set<Call>): set<Call> {
    failing - {CounterClamp}
  }

  function WithClamp(a: Action): Action {
    match a
    case Start(key, request, failing) => Start(key, request, ClampWorks(failing))
    case Send(patch, failing) => Send(patch, ClampWorks(failing))
    case Cancel(key, failing) => Cancel(key, ClampWorks(failing))
    case Finish(key, failing) => Finish(key, ClampWorks(failing))
    case Wait(_) => a
    case ResetCounter(_) => a
  }

  lemma FreedNeedsNoClamp(counters: map<Id, int>, ws: Id, failing: set<Call>)
    requires 1 <= CountOf(counters, ws)
    ensures Freed(counters, ws, failing) == Freed(counters, ws, ClampWorks(failing))
  {
  }

  lemma StartNeedsNoClamp(cfg: Config, r: RedisState, key: Key, q: UploadRequest, failing: set<Call>)
    requires 0 <= CountOf(r.counters, key.ws)
    ensures InitiateUpload(cfg, r, key, q, failing) == InitiateUpload(cfg, r, key, q, ClampWorks(failing))
  {
    var (taken, slot) := TakeSlot(cfg.limit, r, key.ws, failing);
    TakenCounts(cfg.limit, r, key.ws, failing);
    if slot.Ok? {
      FreedNeedsNoClamp(taken.counters, key.ws, failing);
    }
  }

  lemma CancelNeedsNoClamp(r: RedisState, key: Key, failing: set<Call>)
    requires key in r.sessions && r.sessions[key].value.status.Live() ==> 1 <= CountOf(r.counters, key.ws)
    ensures AbortUpload(r, key, failing) == AbortUpload(r, key, ClampWorks(failing))
  {
    if key in r.sessions && r.sessions[key].value.status.Live() {
      FreedNeedsNoClamp(r.counters, key.ws, failing);
    }
  }

  lemma {:induction false} RetrieveNeedsNoClamp(r: RedisState, key: Key, manifest: seq<ChunkMeta>, failing: set<Call>)
    ensures Retrieve(r, key, manifest, failing) == Retrieve(r, key, manifest, ClampWorks(failing))
  {
    if manifest != [] {
      RetrieveNeedsNoClamp(r, key, manifest[..|manifest| - 1], failing);
    }
  }

  lemma AssembleNeedsNoClamp(cfg: Config, s: S3State, key: Key, chunks: seq<Bytes>, expected: Digest, failing: set<Call>)
    ensures Assemble(cfg, s, key, chunks, expected, failing)
         == Assemble(cfg, s, key, chunks, expected, ClampWorks(failing))
  {
    if SomePartFails(|chunks|, failing) {
      var number :| 1 <= number <= |chunks| && UploadPart(number) in failing;
      assert UploadPart(number) in ClampWorks(failing);
    }
  }

  lemma CleanupNeedsNoClamp(r: RedisState, key: Key, manifest: seq<ChunkMeta>, failing: set<Call>)
    ensures r.DeleteChunks(key, manifest, failing) == r.DeleteChunks(key, manifest, ClampWorks(failing))
  {
    forall i ensures Deleted(i, manifest, failing) <==> Deleted(i, manifest, ClampWorks(failing)) {
    }
    assert r.DeleteChunks(key, manifest, failing).chunks == r.DeleteChunks(key, manifest, ClampWorks(failing)).chunks;
  }

  lemma SettledNeedsNoClamp(r: RedisState, s: Session, key: Key, stored: Stored, failing: set<Call>)
    requires 1 <= CountOf(r.counters, key.ws)
    ensures Settled(r, s, key, stored, failing) == Settled(r, s, key, stored, ClampWorks(failing))
  {
    FreedNeedsNoClamp(r.counters, key.ws, failing);
    var freed := FreeSlot(r, key.ws, failing).0;
    var meta := FileMetadata(key.id, stored.path, stored.size, freed.now);
    var registered :=
      if Call.Register in failing then freed else freed.Register(Fingerprint(key.ws, s.checksum), meta);
    CleanupNeedsNoClamp(registered, key, s.manifest, failing);
  }

  lemma CommitNeedsNoClamp(w: World, s: Session, key: Key, stored: Stored, failing: set<Call>)
    requires 1 <= CountOf(w.redis.counters, key.ws)
    ensures Commit(w, s, key, stored, failing) == Commit(w, s, key, stored, ClampWorks(failing))
  {
    if s.key in w.redis.sessions {
      SettledNeedsNoClamp(w.redis.PutSession(s.(status := Status.Complete)), s, key, stored, failing);
    }
  }

  lemma AnnounceNeedsNoClamp(cfg: Config, w: World, s: Session, key: Key, stored: Stored, failing: set<Call>)
    requires 1 <= CountOf(w.redis.counters, key.ws)
    ensures Announce(cfg, w, s, key, stored, failing) == Announce(cfg, w, s, key, stored, ClampWorks(failing))
  {
    var event := CompletionEvent(cfg, key, s.checksum, stored.size, w.redis.now);
    var bus' := BusState(w.bus.calls + [event], w.bus.delivered + [event]);
    CommitNeedsNoClamp(w.(bus := bus'), s, key, stored, failing);
  }

  lemma FinishNeedsNoClamp(cfg: Config, w: World, key: Key, failing: set<Call>)
    requires key in w.redis.sessions && w.redis.sessions[key].value.status.Live() ==>
               1 <= CountOf(w.redis.counters, key.ws)
    ensures CompleteUpload(cfg, w, key, failing) == CompleteUpload(cfg, w, key, ClampWorks(failing))
  {
    if key in w.redis.sessions {
      RetrieveNeedsNoClamp(w.redis, key, SortByIndex(w.redis.sessions[key].value.manifest), failing);
    }
    var c := CheckComplete(w.redis, key, failing);
    assert c == CheckComplete(w.redis, key, ClampWorks(failing));
    if c.Ready? {
      var (s3, stored) := Assemble(cfg, w.s3, key, c.chunks, c.s.checksum, failing);
      AssembleNeedsNoClamp(cfg, w.s3, key, c.chunks, c.s.checksum, failing);
      if stored.Ok? {
        AnnounceNeedsNoClamp(cfg, w.(s3 := s3), c.s, key, stored.value, failing);
      }
    }
  }

  /**
   * As long as no operator resets a counter, no operation reaches the command that resets a negative one, the
   * compensation of a failed start included: whether that command would raise makes no difference. Nor does a query.
   */
  lemma ClampUnreachable(cfg: Config, now: int, acts: seq<Action>, a: Action)
    requires UniqueIds(acts) && forall b :: b in acts ==> !b.ResetCounter?
    ensures var w := Run(cfg, Empty(now), acts);
            && Apply(cfg, w, a) == Apply(cfg, w, WithClamp(a))
            && (Succeeds(cfg, w, a) <==> Succeeds(cfg, w, WithClamp(a)))
            && forall ws: Id :: 0 <= CountOf(w.redis.counters, ws)
  {
    var w := Run(cfg, Empty(now), acts);
    forall ws: Id ensures 0 <= CountOf(w.redis.counters, ws) {
      SlotConservation(cfg, now, acts, ws);
    }
    match a
    case Start(key, request, failing) => StartNeedsNoClamp(cfg, w.redis, key, request, failing);
    case Send(_, _) =>
    case Cancel(key, failing) =>
      LiveIsCounted(cfg, now, acts, key);
      CancelNeedsNoClamp(w.redis, key, failing);
    case Finish(key, failing) =>
      LiveIsCounted(cfg, now, acts, key);
      FinishNeedsNoClamp(cfg, w, key, failing);
    case Wait(_) =>
    case ResetCounter(_) =>
  }

  lemma LiveIsCounted(cfg: Config, now: int, acts: seq<Action>, key: Key)
    requires UniqueIds(acts) && forall a :: a in acts ==> !a.ResetCounter?
    ensures var r := Run(cfg, Empty(now), acts).redis;
            key in r.sessions && r.sessions[key].value.status.Live() ==> 1 <= CountOf(r.counters, key.ws)
  {
    SlotConservation(cfg, now, acts, key.ws);
    LiveMember(Run(cfg, Empty(now), acts).redis.sessions, key, key.ws);
  }

  /** So the decrement for a live session subtracts one, or raises at its first command. */
  lemma NegativeCounterUnreachable(cfg: Config, now: int, acts: seq<Action>, key: Key, failing: set<Call>)
    requires UniqueIds(acts) && forall a :: a in acts ==> !a.ResetCounter?
    requires key in Run(cfg, Empty(now), acts).redis.sessions
    requires Run(cfg, Empty(now), acts).redis.sessions[key].value.status.Live()
    ensures var counters := Run(cfg, Empty(now), acts).redis.counters;
            var (counters', answer) := Freed(counters, key.ws, failing);
            && 0 <= CountOf(counters', key.ws)
            && CountOf(counters', key.ws) == CountOf(counters, key.ws) - (if CounterSubtract in failing then 0 else 1)
            && (answer.Err? <==> CounterSubtract in failing)
  {
    SlotConservation(cfg, now, acts, key.ws);
    LiveMember(Run(cfg, Empty(now), acts).redis.sessions, key, key.ws);
    FreedCounts(Run(cfg, Empty(now), acts).redis.counters, key.ws, failing, key.ws);
  }
}
