/** What each operation can do to Redis, seen from outside: one of a few outcomes, however the calls inside fail. */
module Shapes {
  import opened Types
  import opened Events
  import opened World
  import opened RateLimiter
  import opened Storage
  import opened Protocol

  predicate KeyedRight(r: RedisState) {
    forall key :: key in r.sessions ==> r.sessions[key].value.key == key
  }

  predicate Marked(r: RedisState, r': RedisState, key: Key, status: Status) {
    && key in r.sessions
    && r'.sessions == r.sessions[key := Timed(r.sessions[key].value.(status := status), r.sessions[key].deadline)]
  }

  predicate Progressed(r: RedisState, r': RedisState, q: PatchRequest) {
    && q.key in r.sessions
    && var s := r.sessions[q.key].value;
       var n := |s.manifest|;
       && s.status.Live() && q.offset == s.offset && 0 < |q.data| && s.offset + |q.data| <= s.size
       && r'.sessions == r.sessions[q.key := Timed(
            s.(manifest := s.manifest + [ChunkMeta(n, |q.data|, q.checksum)],
               offset := s.offset + |q.data|, status := InProgress),
            r.sessions[q.key].deadline)]
       && r'.chunks == r.SetChunk(q.key, n, q.data).chunks
  }

  lemma ProcessChunkShape(cfg: Config, r: RedisState, q: PatchRequest, failing: set<Call>)
    requires KeyedRight(r)
    ensures var (r', answer) := ProcessChunk(cfg, r, q, failing);
            && r' == r.(sessions := r'.sessions, chunks := r'.chunks)
            && (answer.Ok? ==> Progressed(r, r', q) && answer.value == q.offset + |q.data|)
            && (answer.Err? ==> r'.sessions == r.sessions)
            && (answer.Err? && r'.chunks != r.chunks ==>
                  q.key in r.sessions && r'.chunks == r.SetChunk(q.key, |r.sessions[q.key].value.manifest|, q.data).chunks)
  {
    if ProcessChunk(cfg, r, q, failing).1.Ok? {
      AcceptedChunkShape(cfg, r, q, failing);
    } else {
      RefusedChunkShape(cfg, r, q, failing);
    }
  }

  lemma RefusedChunkShape(cfg: Config, r: RedisState, q: PatchRequest, failing: set<Call>)
    requires KeyedRight(r) && ProcessChunk(cfg, r, q, failing).1.Err?
    ensures var r' := ProcessChunk(cfg, r, q, failing).0;
            || r' == r
            || (q.key in r.sessions && r' == r.SetChunk(q.key, |r.sessions[q.key].value.manifest|, q.data))
  {
  }

  lemma AcceptedChunkShape(cfg: Config, r: RedisState, q: PatchRequest, failing: set<Call>)
    requires KeyedRight(r) && ProcessChunk(cfg, r, q, failing).1.Ok?
    ensures var (r', answer) := ProcessChunk(cfg, r, q, failing);
            && Progressed(r, r', q) && answer.value == q.offset + |q.data|
            && r' == r.(sessions := r'.sessions, chunks := r'.chunks)
  {
  }

  /** Ok: the record and its expiry note are gone and the slot is freed. Error: nothing, or ABORTED and still there. */
  predicate CancelEnds(r: RedisState, r': RedisState, key: Key, ok: bool, failing: set<Call>) {
    if ok then
      && key in r.sessions && r.sessions[key].value.status.Live()
      && r' == r.(sessions := r.sessions - {key}, expiry := r.expiry - {key.id},
                  counters := Freed(r.counters, key.ws, failing).0)
    else
      || r' == r
      || (r' == r.(sessions := r'.sessions) && Marked(r, r', key, Aborted) && r.sessions[key].value.status.Live())
  }

  lemma AbortShape(r: RedisState, key: Key, failing: set<Call>)
    requires KeyedRight(r)
    ensures var (r', answer) := AbortUpload(r, key, failing);
            CancelEnds(r, r', key, answer.Ok?, failing)
  {
    if key in r.sessions {
      var marked := r.PutSession(r.sessions[key].value.(status := Aborted));
      assert marked.sessions - {key} == r.sessions - {key};
    }
  }

  /** Ok: COMPLETE and the slot freed. Error: nothing, or FAILED with the slot still taken. */
  predicate Concluded(r: RedisState, r': RedisState, key: Key, ok: bool, failing: set<Call>) {
    && r'.now == r.now && r'.expiry == r.expiry
    && (forall c :: c in r'.chunks ==> c in r.chunks && r'.chunks[c] == r.chunks[c])
    && (ok ==>
          && key in r.sessions && r.sessions[key].value.status == InProgress
          && Marked(r, r', key, Status.Complete)
          && r'.counters == Freed(r.counters, key.ws, failing).0)
    && (!ok ==>
          && r'.counters == r.counters && r'.dedup == r.dedup && r'.chunks == r.chunks
          && (r'.sessions == r.sessions ||
              (Marked(r, r', key, Failed) && r.sessions[key].value.status == InProgress)))
  }

  lemma TwiceFailed(r: RedisState, s: Session, first: bool, second: bool)
    requires s.key in r.sessions && r.sessions[s.key].value == s
    ensures var once := r.UpdateSession(s.(status := Failed), first).0;
            var twice := once.UpdateSession(s.(status := Failed), second).0;
            && (once == r || once == r.PutSession(s.(status := Failed)))
            && (twice == r || twice == r.PutSession(s.(status := Failed)))
  {
    var put := r.PutSession(s.(status := Failed));
    assert put.PutSession(s.(status := Failed)) == put;
  }

  lemma CommitShape(w: World, s: Session, key: Key, stored: Stored, failing: set<Call>)
    requires key in w.redis.sessions && w.redis.sessions[key].value == s && s.key == key && s.status == InProgress
    ensures var (w', answer) := Commit(w, s, key, stored, failing);
            w' == w.(redis := w'.redis) && Concluded(w.redis, w'.redis, key, answer.Ok?, failing)
  {
    if s.offset < s.size || WriteComplete in failing {
      TwiceFailed(w.redis, s, true, WriteFailed in failing);
    } else {
      SettledShape(w.redis, s, key, stored, failing);
    }
  }

  lemma SettledShape(r: RedisState, s: Session, key: Key, stored: Stored, failing: set<Call>)
    requires key in r.sessions && r.sessions[key].value == s && s.key == key && s.status == InProgress
    ensures Concluded(r, Settled(r.PutSession(s.(status := Status.Complete)), s, key, stored, failing), key, true, failing)
  {
  }

  lemma UnpublishedShape(w: World, s: Session, failing: set<Call>)
    requires s.key in w.redis.sessions && w.redis.sessions[s.key].value == s && s.status == InProgress
    ensures var (w', answer) := Unpublished(w, s, failing);
            answer.Err? && w' == w.(redis := w'.redis) && Concluded(w.redis, w'.redis, s.key, false, failing)
  {
    TwiceFailed(w.redis, s, WriteUnpublished in failing, WriteFailed in failing);
  }

  lemma RejectDuplicateShape(w: World, s: Session, existing: FileMetadata, failing: set<Call>)
    requires s.key in w.redis.sessions && w.redis.sessions[s.key].value == s && s.status == InProgress
    ensures var (w', answer) := RejectDuplicate(w, s, existing, failing);
            answer.Err? && w' == w.(redis := w'.redis) && Concluded(w.redis, w'.redis, s.key, false, failing)
  {
    TwiceFailed(w.redis, s, WriteDuplicate in failing, WriteFailed in failing);
  }

  lemma FailedWithShape(w: World, s: Session, error: Error, failing: set<Call>)
    requires s.key in w.redis.sessions && w.redis.sessions[s.key].value == s && s.status == InProgress
    ensures var (w', answer) := FailedWith(w, s, error, failing);
            answer.Err? && w' == w.(redis := w'.redis) && Concluded(w.redis, w'.redis, s.key, false, failing)
  {
    TwiceFailed(w.redis, s, true, WriteFailed in failing);
  }

  /** The calls and deliveries that a completion adds: at most one of each, both of the same event. */
  predicate Added(bus: BusState, bus': BusState, event: Event) {
    || bus' == bus
    || bus' == bus.(calls := bus.calls + [event])
    || bus' == BusState(bus.calls + [event], bus.delivered + [event])
  }

  lemma AnnounceShape(cfg: Config, w: World, s: Session, key: Key, stored: Stored, failing: set<Call>)
    requires key in w.redis.sessions && w.redis.sessions[key].value == s && s.key == key && s.status == InProgress
    ensures var (w', answer) := Announce(cfg, w, s, key, stored, failing);
            && w'.s3 == w.s3 && Concluded(w.redis, w'.redis, key, answer.Ok?, failing)
            && Added(w.bus, w'.bus, CompletionEvent(cfg, key, s.checksum, stored.size, w.redis.now))
            && (answer.Ok? ==> |w'.bus.delivered| == |w.bus.delivered| + 1)
  {
    var mark := Fingerprint(key.ws, s.checksum);
    var event := CompletionEvent(cfg, key, s.checksum, stored.size, w.redis.now);
    if CheckDuplicate in failing {
      FailedWithShape(w, s, InfrastructureError, failing);
    } else if mark in w.redis.dedup {
      RejectDuplicateShape(w, s, w.redis.dedup[mark], failing);
    } else if !Accepted(event) {
      FailedWithShape(w, s, ValueError, failing);
    } else {
      var called := w.(bus := w.bus.(calls := w.bus.calls + [event]));
      if Publish in failing {
        UnpublishedShape(called, s, failing);
      } else {
        CommitShape(called.(bus := called.bus.(delivered := w.bus.delivered + [event])), s, key, stored, failing);
      }
    }
  }

  // ---- What completion adds to S3 and to the publisher ----

  /** Objects are write-once; the lists of calls and of deliveries only grow at the end. */
  predicate Grown(w: World, w': World) {
    && (forall k :: k in w.s3.objects ==> k in w'.s3.objects && w'.s3.objects[k] == w.s3.objects[k])
    && w.bus.calls <= w'.bus.calls && w.bus.delivered <= w'.bus.delivered
  }

  lemma CompleteShape(cfg: Config, w: World, key: Key, failing: set<Call>)
    requires KeyedRight(w.redis) && IdsBelowNext(w.s3)
    ensures var (w', answer) := CompleteUpload(cfg, w, key, failing);
            && Concluded(w.redis, w'.redis, key, answer.Ok?, failing)
            && Grown(w, w')
            && (forall k :: k in w'.s3.objects && k !in w.s3.objects ==> k == key && key in w.redis.sessions)
  {
    match CheckComplete(w.redis, key, failing)
    case Refused(_) =>
    case Broken(s, e) => FailedWithShape(w, s, e, failing);
    case Ready(s, chunks) =>
      var (s3, stored) := Assemble(cfg, w.s3, key, chunks, s.checksum, failing);
      AssembleExits(cfg, w.s3, key, chunks, s.checksum, failing);
      if stored.Ok? {
        AnnounceShape(cfg, w.(s3 := s3), s, key, stored.value, failing);
      } else {
        FailedWithShape(w.(s3 := s3), s, stored.error, failing);
      }
  }
}
