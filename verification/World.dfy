/** What the external systems hold between two calls, as values, and the effect of each command on it. */
module World {
  import opened Types
  import opened Events

  /** A Redis value together with the instant from which it is gone. */
  datatype Timed<+T> = Timed(value: T, deadline: int)

  datatype ChunkKey = ChunkKey(key: Key, index: int)

  datatype Fingerprint = Fingerprint(ws: Id, checksum: Digest)

  datatype RedisState = RedisState(
    now: int,
    sessions: map<Key, Timed<Session>>,
    expiry: map<Id, Timed<ExpiryMeta>>,
    chunks: map<ChunkKey, Timed<Bytes>>,
    counters: map<Id, int>,
    dedup: map<Fingerprint, FileMetadata>)
  {
    /** Both HSET commands of create_session with their EXPIRE, in one pipeline. */
    function CreateSession(s: Session): RedisState {
      this.(sessions := sessions[s.key := Timed(s, now + SESSION_TTL)],
            expiry := expiry[s.key.id := Timed(ExpiryMeta(s.key.ws, s.key.id, s.expiresAt, s.filename), now + EXPIRY_TTL)])
    }

    /** HSET on an existing key: the record changes, its deadline does not. */
    function PutSession(s: Session): RedisState
      requires s.key in sessions
    {
      this.(sessions := sessions[s.key := Timed(s, sessions[s.key].deadline)])
    }

    /** TTL, then HSET. */
    function UpdateSession(s: Session, fails: bool): (RedisState, Result<()>) {
      if fails then (this, Err(InfrastructureError))
      else if s.key !in sessions then (this, Err(SessionNotFound))
      else (PutSession(s), Ok(()))
    }

    function DeleteSession(key: Key): RedisState {
      this.(sessions := sessions - {key}, expiry := expiry - {key.id})
    }

    function SetChunk(key: Key, index: int, data: Bytes): RedisState {
      this.(chunks := chunks[ChunkKey(key, index) := Timed(data, now + SESSION_TTL)])
    }

    /** DEL for every chunk of the manifest whose call succeeds. */
    function DeleteChunks(key: Key, manifest: seq<ChunkMeta>, failing: set<Call>): RedisState {
      this.(chunks := map c | c in chunks && !(c.key == key && Deleted(c.index, manifest, failing)) :: chunks[c])
    }

    function Counter(ws: Id): int {
      CountOf(counters, ws)
    }

    function SetCounter(ws: Id, count: int): RedisState {
      this.(counters := counters[ws := count])
    }

    function Register(f: Fingerprint, m: FileMetadata): RedisState {
      this.(dedup := dedup[f := m])
    }

    /** The clock moves on and Redis drops what has expired. */
    function Tick(seconds: nat): RedisState {
      var later := now + seconds;
      this.(now := later,
            sessions := map k | k in sessions && later < sessions[k].deadline :: sessions[k],
            expiry := map k | k in expiry && later < expiry[k].deadline :: expiry[k],
            chunks := map k | k in chunks && later < chunks[k].deadline :: chunks[k])
    }
  }

  /** HGET: a missing field counts as 0. */
  function CountOf(counters: map<Id, int>, ws: Id): int {
    if ws in counters then counters[ws] else 0
  }

  predicate Deleted(index: int, manifest: seq<ChunkMeta>, failing: set<Call>) {
    DeleteChunk(index) !in failing && exists c :: c in manifest && c.index == index
  }

  /** Finished objects, the multipart uploads still open, and the next upload id. */
  datatype S3State = S3State(objects: map<Key, Bytes>, open: map<nat, Key>, next: nat)

  /** Every call of publish() so far, and the events that a call delivered. */
  datatype BusState = BusState(calls: seq<Event>, delivered: seq<Event>)

  datatype World = World(redis: RedisState, s3: S3State, bus: BusState)

  /** The external calls of the use cases, one name for each place in the code that makes one. */
  datatype Call =
    | GetSession | CreateSession | DeleteSession
    | WriteProgress | WriteAborted | WriteComplete | WriteDuplicate | WriteUnpublished | WriteFailed
    | SetChunk | ReadChunk(index: int) | DeleteChunk(index: int)
    | CounterRead | CounterAdd | CounterSubtract | CounterClamp
    | HeadObject | CreateMultipart | UploadIdMissing | UploadPart(number: int) | CompleteMultipart | AbortMultipart
    | DeleteObject
    | CheckDuplicate | Publish | Register
}
