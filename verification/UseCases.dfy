/** The use cases as the program runs them: objects that change the stores call by call. */
module UseCases {
  import opened Types
  import opened Events
  import opened World
  import opened Entity
  import opened Manifest
  import opened RedisServer
  import opened SessionStore
  import opened RateLimiter
  import opened Deduplication
  import opened Storage
  import Protocol

  /** The publisher as its callers see it: a call is made, and it delivers the event or raises. */
  class EventBus {
    var calls: seq<Event>
    var delivered: seq<Event>

    function State(): BusState
      reads this
    {
      BusState(calls, delivered)
    }

    constructor ()
      ensures State() == BusState([], [])
    {
      calls, delivered := [], [];
    }

    method Publish(event: Event, fails: bool) returns (r: Result<()>)
      modifies this
      ensures r == if fails then Err(InfrastructureError) else Ok(())
      ensures calls == old(calls) + [event]
      ensures delivered == if fails then old(delivered) else old(delivered) + [event]
    {
      calls := calls + [event];
      if fails {
        return Err(InfrastructureError);
      }
      delivered := delivered + [event];
      return Ok(());
    }
  }

  class InitiateUploadUseCase {
    const cfg: Config
    const redis: Redis
    const limiter: RedisRateLimiter
    const sessions: RedisSessionStore

    ghost predicate Valid() {
      limiter.redis == redis && sessions.redis == redis && limiter.limit == cfg.limit
    }

    constructor (cfg: Config, redis: Redis, limiter: RedisRateLimiter, sessions: RedisSessionStore)
      requires limiter.redis == redis && sessions.redis == redis && limiter.limit == cfg.limit
      ensures Valid() && this.cfg == cfg && this.redis == redis
    {
      this.cfg, this.redis, this.limiter, this.sessions := cfg, redis, limiter, sessions;
    }

    method Execute(key: Key, q: Protocol.UploadRequest, failing: set<Call>) returns (r: Result<Id>)
      requires Valid()
      modifies redis
      ensures (redis.State(), r) == Protocol.InitiateUpload(cfg, old(redis.State()), key, q, failing)
    {
      var invalid := Protocol.CheckRequest(q);
      if invalid.Some? {
        return Err(invalid.value);
      }
      var slot := limiter.CheckAndIncrement(key.ws, failing);
      if slot.Err? {
        return Err(slot.error);
      }
      var s := Protocol.NewSession(key, q, redis.now);
      var rejected := Validate(s);
      if rejected.Some? {
        var _ := limiter.Decrement(key.ws, failing);
        return Err(rejected.value);
      }
      var session := new UploadSession(s);
      var created := sessions.CreateSession(session, CreateSession in failing);
      if created.Err? {
        var _ := limiter.Decrement(key.ws, failing);
        return Err(created.error);
      }
      return Ok(key.id);
    }
  }

  class ProcessChunkUseCase {
    const cfg: Config
    const redis: Redis
    const sessions: RedisSessionStore

    ghost predicate Valid() {
      sessions.redis == redis
    }

    constructor (cfg: Config, redis: Redis, sessions: RedisSessionStore)
      requires sessions.redis == redis
      ensures Valid() && this.cfg == cfg && this.redis == redis
    {
      this.cfg, this.redis, this.sessions := cfg, redis, sessions;
    }

    method Execute(q: Protocol.PatchRequest, failing: set<Call>) returns (r: Result<int>)
      requires Valid()
      modifies redis
      ensures (redis.State(), r) == Protocol.ProcessChunk(cfg, old(redis.State()), q, failing)
    {
      var found := sessions.GetSession(q.key, GetSession in failing);
      if found.Err? {
        return Err(found.error);
      }
      if found.value.None? {
        return Err(SessionNotFound);
      }
      var session := found.value.value;
      var rejected := Protocol.CheckPatch(cfg, session.Value(), q);
      if rejected.Some? {
        return Err(rejected.value);
      }
      var index := |session.manifest|;
      if Call.SetChunk in failing {
        return Err(InfrastructureError);
      }
      redis.chunks := redis.chunks[ChunkKey(q.key, index) := Timed(q.data, redis.now + SESSION_TTL)];
      var newOffset := session.offset + |q.data|;
      var added := session.AddChunk(index, |q.data|, q.checksum);
      if added.Err? {
        return Err(added.error);
      }
      var moved := session.UpdateOffset(newOffset);
      if moved.Err? {
        return Err(moved.error);
      }
      if session.status == Pending {
        var _ := session.MarkInProgress();
      }
      var written := sessions.UpdateSession(session, WriteProgress in failing);
      if written.Err? {
        return Err(written.error);
      }
      return Ok(newOffset);
    }
  }

  class AbortUploadUseCase {
    const redis: Redis
    const sessions: RedisSessionStore
    const limiter: RedisRateLimiter

    ghost predicate Valid() {
      limiter.redis == redis && sessions.redis == redis
    }

    constructor (redis: Redis, sessions: RedisSessionStore, limiter: RedisRateLimiter)
      requires limiter.redis == redis && sessions.redis == redis
      ensures Valid() && this.redis == redis
    {
      this.redis, this.sessions, this.limiter := redis, sessions, limiter;
    }

    method Execute(key: Key, failing: set<Call>) returns (r: Result<()>)
      requires Valid()
      modifies redis
      ensures (redis.State(), r) == Protocol.AbortUpload(old(redis.State()), key, failing)
    {
      var found := sessions.GetSession(key, GetSession in failing);
      if found.Err? {
        return Err(found.error);
      }
      if found.value.None? || !found.value.value.status.Live() {
        return Err(SessionNotFound);
      }
      var session := found.value.value;
      if session.key.ws != key.ws {
        return Err(WorkspaceMismatch);
      }
      session.status := Aborted;
      r := sessions.UpdateSession(session, WriteAborted in failing);
      if r.Err? {
        return r;
      }
      r := sessions.DeleteSession(key, Call.DeleteSession in failing);
      if r.Err? {
        return r;
      }
      var _ := limiter.Decrement(key.ws, failing);
      return Ok(());
    }
  }

  class CompleteUploadUseCase {
    const cfg: Config
    const redis: Redis
    const s3: S3StorageClient
    const bus: EventBus
    const sessions: RedisSessionStore
    const limiter: RedisRateLimiter
    const dedup: RedisDeduplicationStore

    ghost predicate Valid()
      reads s3
    {
      limiter.redis == redis && sessions.redis == redis && dedup.redis == redis && s3.cfg == cfg && s3.Valid()
    }

    constructor (cfg: Config, redis: Redis, s3: S3StorageClient, bus: EventBus,
                 sessions: RedisSessionStore, limiter: RedisRateLimiter, dedup: RedisDeduplicationStore)
      requires limiter.redis == redis && sessions.redis == redis && dedup.redis == redis && s3.cfg == cfg && s3.Valid()
      ensures Valid() && this.cfg == cfg && this.redis == redis && this.s3 == s3 && this.bus == bus
    {
      this.cfg, this.redis, this.s3, this.bus := cfg, redis, s3, bus;
      this.sessions, this.limiter, this.dedup := sessions, limiter, dedup;
    }

    function State(): World
      reads redis, s3, bus
    {
      World(redis.State(), s3.State(), bus.State())
    }

    method RetrieveChunks(key: Key, manifest: seq<ChunkMeta>, failing: set<Call>) returns (r: Result<seq<Bytes>>)
      ensures r == Protocol.Retrieve(redis.State(), key, SortByIndex(manifest), failing)
    {
      var sorted := SortByIndex(manifest);
      var chunks: seq<Bytes> := [];
      for i := 0 to |sorted|
        invariant Protocol.Retrieve(redis.State(), key, sorted[..i], failing) == Ok(chunks)
      {
        assert sorted[..i + 1][..i] == sorted[..i];
        var index := sorted[i].index;
        if ReadChunk(index) in failing {
          RetrieveStops(key, sorted, i + 1, failing);
          return Err(InfrastructureError);
        }
        if ChunkKey(key, index) !in redis.chunks {
          RetrieveStops(key, sorted, i + 1, failing);
          return Err(InvalidSessionState);
        }
        chunks := chunks + [redis.chunks[ChunkKey(key, index)].value];
      }
      assert sorted[..|sorted|] == sorted;
      return Ok(chunks);
    }

    /** The first error met is the answer, whatever follows in the list. */
    lemma {:induction false} RetrieveStops(key: Key, sorted: seq<ChunkMeta>, n: nat, failing: set<Call>)
      requires n <= |sorted|
      requires Protocol.Retrieve(redis.State(), key, sorted[..n], failing).Err?
      ensures Protocol.Retrieve(redis.State(), key, sorted, failing)
           == Protocol.Retrieve(redis.State(), key, sorted[..n], failing)
    {
      if n == |sorted| {
        assert sorted[..n] == sorted;
      } else {
        var init := sorted[..|sorted| - 1];
        assert init[..n] == sorted[..n];
        RetrieveStops(key, init, n, failing);
      }
    }

    method CleanupChunks(key: Key, manifest: seq<ChunkMeta>, failing: set<Call>)
      modifies redis
      ensures redis.State() == old(redis.State()).DeleteChunks(key, manifest, failing)
    {
      for i := 0 to |manifest|
        invariant redis.State() == old(redis.State()).DeleteChunks(key, manifest[..i], failing)
      {
        DeleteOneMore(old(redis.State()), key, manifest[..i], manifest[i], failing);
        assert manifest[..i + 1] == manifest[..i] + [manifest[i]];
        if DeleteChunk(manifest[i].index) !in failing {
          redis.chunks := redis.chunks - {ChunkKey(key, manifest[i].index)};
        }
      }
      assert manifest[..|manifest|] == manifest;
    }

    static lemma DeleteOneMore(r: RedisState, key: Key, manifest: seq<ChunkMeta>, c: ChunkMeta, failing: set<Call>)
      ensures r.DeleteChunks(key, manifest + [c], failing).chunks
           == r.DeleteChunks(key, manifest, failing).chunks
              - if DeleteChunk(c.index) in failing then {} else {ChunkKey(key, c.index)}
    {
      forall k | k in r.chunks
        ensures Deleted(k.index, manifest + [c], failing) <==>
                Deleted(k.index, manifest, failing) || (k.index == c.index && DeleteChunk(c.index) !in failing)
      {
        assert forall d :: d in manifest + [c] <==> d in manifest || d == c;
      }
    }

    /** The except clauses that mark the session FAILED on a best-effort basis before they raise again. */
    method Fail(session: UploadSession, error: Error, failing: set<Call>) returns (r: Result<Stored>)
      requires Valid()
      modifies redis, session
      ensures Valid()
      ensures (State(), r) == Protocol.FailedWith(old(State()), old(session.Value()), error, failing)
      ensures s3.State() == old(s3.State()) && bus.State() == old(bus.State())
    {
      session.MarkFailed();
      var _ := sessions.UpdateSession(session, WriteFailed in failing);
      return Err(error);
    }

    method Execute(key: Key, failing: set<Call>) returns (r: Result<Stored>)
      requires Valid()
      modifies redis, s3, bus
      ensures Valid()
      ensures (State(), r) == Protocol.CompleteUpload(cfg, old(State()), key, failing)
    {
      var found := sessions.GetSession(key, GetSession in failing);
      if found.Err? {
        return Err(found.error);
      }
      if found.value.None? {
        return Err(SessionNotFound);
      }
      var session := found.value.value;
      if session.key.ws != key.ws {
        return Err(WorkspaceMismatch);
      }
      if session.status != InProgress {
        return Err(InvalidSessionState);
      }
      if !IsComplete(session.manifest, session.size) {
        return Err(InvalidSessionState);
      }
      if session.offset != session.size {
        return Err(InvalidSessionState);
      }
      var chunks := RetrieveChunks(key, session.manifest, failing);
      if chunks == Err(InvalidSessionState) {
        return Err(InvalidSessionState);
      }
      if chunks.Err? {
        r := Fail(session, chunks.error, failing);
        return r;
      }
      r := AssembleAndPublish(session, key, chunks.value, failing);
    }

    method AssembleAndPublish(session: UploadSession, key: Key, chunks: seq<Bytes>, failing: set<Call>)
      returns (r: Result<Stored>)
      requires Valid()
      requires session.status == InProgress
      modifies redis, s3, bus, session
      ensures Valid()
      ensures (State(), r) == Protocol.StoreAndAnnounce(cfg, old(State()), old(session.Value()), chunks, key, failing)
    {
      var stored := s3.AssembleFile(key, chunks, session.checksum, failing);
      if stored.Err? {
        r := Fail(session, stored.error, failing);
        return r;
      }
      r := CheckAndPublish(session, key, stored.value, failing);
    }

    method CheckAndPublish(session: UploadSession, key: Key, stored: Stored, failing: set<Call>)
      returns (r: Result<Stored>)
      requires Valid()
      requires session.status == InProgress
      modifies redis, bus, session
      ensures Valid()
      ensures (State(), r) == Protocol.Announce(cfg, old(State()), old(session.Value()), key, stored, failing)
    {
      var existing := dedup.CheckDuplicate(Fingerprint(key.ws, session.checksum), CheckDuplicate in failing);
      if existing.Err? {
        r := Fail(session, existing.error, failing);
        return r;
      }
      if existing.value.Some? {
        session.MarkFailed();
        var written := sessions.UpdateSession(session, WriteDuplicate in failing);
        if written == Err(InfrastructureError) {
          r := Fail(session, written.error, failing);
          return r;
        }
        return Err(if written.Ok? then DuplicateFile(existing.value.value) else written.error);
      }
      var event := Protocol.CompletionEvent(cfg, key, session.checksum, stored.size, redis.now);
      if !Accepted(event) {
        r := Fail(session, ValueError, failing);
        return r;
      }
      var published := bus.Publish(event, Publish in failing);
      if published.Err? {
        session.MarkFailed();
        var written := sessions.UpdateSession(session, WriteUnpublished in failing);
        if written == Err(SessionNotFound) {
          return Err(SessionNotFound);
        }
        r := Fail(session, InfrastructureError, failing);
        return r;
      }
      r := Finish(session, key, stored, failing);
    }

    method Finish(session: UploadSession, key: Key, stored: Stored, failing: set<Call>) returns (r: Result<Stored>)
      requires Valid()
      requires session.status == InProgress
      modifies redis, session
      ensures Valid()
      ensures (State(), r) == Protocol.Commit(old(State()), old(session.Value()), key, stored, failing)
    {
      var marked := session.MarkComplete();
      if marked.Err? {
        r := Fail(session, marked.error, failing);
        return r;
      }
      var written := sessions.UpdateSession(session, WriteComplete in failing);
      if written == Err(InfrastructureError) {
        r := Fail(session, written.error, failing);
        return r;
      }
      if written.Err? {
        return Err(written.error);
      }
      Settle(session, key, stored, failing);
      return Ok(stored);
    }

    method Settle(session: UploadSession, key: Key, stored: Stored, failing: set<Call>)
      requires Valid()
      modifies redis
      ensures redis.State() == Protocol.Settled(old(redis.State()), session.Value(), key, stored, failing)
    {
      var _ := limiter.Decrement(key.ws, failing);
      var meta := FileMetadata(key.id, stored.path, stored.size, redis.now);
      var _ := dedup.RegisterFile(Fingerprint(key.ws, session.checksum), meta, Register in failing);
      CleanupChunks(key, session.manifest, failing);
    }
  }
}
