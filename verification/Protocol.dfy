/**
 * The four operations of the upload protocol as functions from one world to the next. The argument `failing` names the
 * external calls that raise during the execution; a call that raises has no effect. An execution that is cut short
 * leaves the same world as one in which every later call raises.
 */
module Protocol {
  import opened Types
  import opened Events
  import opened World
  import opened Entity
  import opened Manifest
  import opened RateLimiter
  import opened Storage

  // ---- Initiate ----

  datatype UploadRequest = UploadRequest(filename: string, size: int, mime: string, checksum: string)

  function LowerChar(c: char): char {
    if 'A' <= c <= 'Z' then c - 'A' + 'a' else c
  }

  function Lower(s: string): string {
    seq(|s|, i requires 0 <= i < |s| => LowerChar(s[i]))
  }

  /** The four validate_ methods of the request, in the order in which they run. */
  function CheckRequest(q: UploadRequest): Option<Error> {
    if !FilenameAllowed(q.filename) then Some(ValueError)
    else if !IsDigestText(q.checksum) then Some(ValueError)
    else if q.size <= 0 then Some(ValueError)
    else if q.size > MAX_FILE_SIZE then Some(FileSizeLimitExceeded)
    else if Lower(q.mime) != PDF then Some(UnsupportedMediaType)
    else None
  }

  function NewSession(key: Key, q: UploadRequest, now: int): Session
    requires IsDigestText(q.checksum)
  {
    Session(key, q.filename, q.size, q.mime, q.checksum, 0, Pending, now, now + SESSION_TTL, [])
  }

  function InitiateUpload(cfg: Config, r: RedisState, key: Key, q: UploadRequest, failing: set<Call>):
      (RedisState, Result<Id>)
  {
    match CheckRequest(q)
    case Some(e) => (r, Err(e))
    case None =>
      var (taken, slot) := TakeSlot(cfg.limit, r, key.ws, failing);
      if slot.Err? then (taken, Err(slot.error)) else OpenSession(taken, NewSession(key, q, r.now), failing)
  }

  /** With the slot taken: build the entity and store it, or give the slot back. */
  function OpenSession(r: RedisState, s: Session, failing: set<Call>): (RedisState, Result<Id>) {
    match Validate(s)
    case Some(e) => (FreeSlot(r, s.key.ws, failing).0, Err(e))
    case None =>
      if CreateSession in failing then (FreeSlot(r, s.key.ws, failing).0, Err(InfrastructureError))
      else (r.CreateSession(s), Ok(s.key.id))
  }

  // ---- Process chunk ----

  datatype PatchRequest = PatchRequest(key: Key, offset: int, data: Bytes, checksum: string)

  /** Every check that runs before the chunk bytes are stored. */
  function CheckPatch(cfg: Config, s: Session, q: PatchRequest): Option<Error> {
    if !s.status.Live() then Some(InvalidSessionState)
    else if q.offset != s.offset then Some(OffsetMismatch(s.offset, q.offset))
    else if |q.data| == 0 || |q.data| > MAX_CHUNK_SIZE then Some(ValueError)
    else if !IsDigestText(q.checksum) then Some(ValueError)
    else if cfg.hash(q.data) != q.checksum then Some(ChecksumMismatch)
    else None
  }

  /** add_chunk, update_offset and mark_in_progress on the session in memory. */
  function Appended(s: Session, size: int, checksum: string): Option<Session> {
    var index := |s.manifest|;
    if size <= 0 || Blank(checksum) || HasIndex(s.manifest, index) then None
    else if !(0 <= s.offset + size && s.offset <= s.offset + size <= s.size) then None
    else Some(s.(manifest := s.manifest + [ChunkMeta(index, size, checksum)],
                 offset := s.offset + size,
                 status := if s.status == Pending then InProgress else s.status))
  }

  function ProcessChunk(cfg: Config, r: RedisState, q: PatchRequest, failing: set<Call>): (RedisState, Result<int>) {
    if GetSession in failing then (r, Err(InfrastructureError))
    else if q.key !in r.sessions then (r, Err(SessionNotFound))
    else
      var s := r.sessions[q.key].value;
      match CheckPatch(cfg, s, q)
      case Some(e) => (r, Err(e))
      case None =>
        if Call.SetChunk in failing then (r, Err(InfrastructureError))
        else
          var kept := r.SetChunk(q.key, |s.manifest|, q.data);
          match Appended(s, |q.data|, q.checksum)
          case None => (kept, Err(ValueError))
          case Some(s') =>
            var (r', written) := kept.UpdateSession(s', WriteProgress in failing);
            (r', if written.Ok? then Ok(s'.offset) else Err(written.error))
  }

  // ---- Abort ----

  function AbortUpload(r: RedisState, key: Key, failing: set<Call>): (RedisState, Result<()>) {
    if GetSession in failing then (r, Err(InfrastructureError))
    else if key !in r.sessions then (r, Err(SessionNotFound))
    else
      var s := r.sessions[key].value;
      if !s.status.Live() then (r, Err(SessionNotFound))
      else if s.key.ws != key.ws then (r, Err(WorkspaceMismatch))
      else
        var (marked, written) := r.UpdateSession(s.(status := Aborted), WriteAborted in failing);
        if written.Err? then (marked, written)
        else if Call.DeleteSession in failing then (marked, Err(InfrastructureError))
        else (FreeSlot(marked.DeleteSession(key), key.ws, failing).0, Ok(()))
  }

  // ---- Complete ----

  /** The chunk bytes in the order of the list, or the first error met. */
  function Retrieve(r: RedisState, key: Key, manifest: seq<ChunkMeta>, failing: set<Call>): Result<seq<Bytes>> {
    if manifest == [] then Ok([])
    else
      var index := manifest[|manifest| - 1].index;
      match Retrieve(r, key, manifest[..|manifest| - 1], failing)
      case Err(e) => Err(e)
      case Ok(chunks) =>
        if ReadChunk(index) in failing then Err(InfrastructureError)
        else if ChunkKey(key, index) !in r.chunks then Err(InvalidSessionState)
        else Ok(chunks + [r.chunks[ChunkKey(key, index)].value])
  }

  /** The last two except clauses: mark the session FAILED if that is possible, and raise. */
  function FailedWith(w: World, s: Session, error: Error, failing: set<Call>): (World, Result<Stored>) {
    (w.(redis := w.redis.UpdateSession(s.(status := Failed), WriteFailed in failing).0), Err(error))
  }

  function CompletionEvent(cfg: Config, key: Key, checksum: Digest, size: int, now: int): Event {
    Event(key, ObjectPath(cfg, key), checksum, size, now, now)
  }

  /**
   * Where the checks and the retrieval end: the request is refused and nothing is written, or a read raised and the
   * session is to be marked FAILED, or the chunks are there.
   */
  datatype Readiness = Refused(error: Error) | Broken(s: Session, error: Error) | Ready(s: Session, chunks: seq<Bytes>)

  function CheckComplete(r: RedisState, key: Key, failing: set<Call>): Readiness {
    if GetSession in failing then Refused(InfrastructureError)
    else if key !in r.sessions then Refused(SessionNotFound)
    else
      var s := r.sessions[key].value;
      if s.key.ws != key.ws then Refused(WorkspaceMismatch)
      else if s.status != InProgress then Refused(InvalidSessionState)
      else if !IsComplete(s.manifest, s.size) || s.offset != s.size then Refused(InvalidSessionState)
      else
        match Retrieve(r, key, SortByIndex(s.manifest), failing)
        case Err(InvalidSessionState) => Refused(InvalidSessionState)
        case Err(e) => Broken(s, e)
        case Ok(chunks) => Ready(s, chunks)
  }

  function CompleteUpload(cfg: Config, w: World, key: Key, failing: set<Call>): (World, Result<Stored>) {
    match CheckComplete(w.redis, key, failing)
    case Refused(e) => (w, Err(e))
    case Broken(s, e) => FailedWith(w, s, e, failing)
    case Ready(s, chunks) => StoreAndAnnounce(cfg, w, s, chunks, key, failing)
  }

  /** From the assembly on. */
  function StoreAndAnnounce(cfg: Config, w: World, s: Session, chunks: seq<Bytes>, key: Key, failing: set<Call>):
      (World, Result<Stored>)
  {
    var (s3, stored) := Assemble(cfg, w.s3, key, chunks, s.checksum, failing);
    if stored.Err? then FailedWith(w.(s3 := s3), s, stored.error, failing)
    else Announce(cfg, w.(s3 := s3), s, key, stored.value, failing)
  }

  /** Duplicate check, then one publish. */
  function Announce(cfg: Config, w: World, s: Session, key: Key, stored: Stored, failing: set<Call>):
      (World, Result<Stored>)
  {
    var mark := Fingerprint(key.ws, s.checksum);
    var event := CompletionEvent(cfg, key, s.checksum, stored.size, w.redis.now);
    if CheckDuplicate in failing then FailedWith(w, s, InfrastructureError, failing)
    else if mark in w.redis.dedup then RejectDuplicate(w, s, w.redis.dedup[mark], failing)
    else if !Accepted(event) then FailedWith(w, s, ValueError, failing)
    else
      var called := w.(bus := w.bus.(calls := w.bus.calls + [event]));
      if Publish in failing then Unpublished(called, s, failing)
      else Commit(called.(bus := called.bus.(delivered := w.bus.delivered + [event])), s, key, stored, failing)
  }

  function RejectDuplicate(w: World, s: Session, existing: FileMetadata, failing: set<Call>): (World, Result<Stored>) {
    var (r, written) := w.redis.UpdateSession(s.(status := Failed), WriteDuplicate in failing);
    if written == Err(InfrastructureError) then FailedWith(w, s, InfrastructureError, failing)
    else (w.(redis := r), Err(if written.Ok? then DuplicateFile(existing) else written.error))
  }

  /** The handler of the failed publish writes FAILED and raises again; the outer handler then does the same. */
  function Unpublished(w: World, s: Session, failing: set<Call>): (World, Result<Stored>) {
    var (r, written) := w.redis.UpdateSession(s.(status := Failed), WriteUnpublished in failing);
    if written == Err(SessionNotFound) then (w, Err(SessionNotFound))
    else FailedWith(w.(redis := r), s, InfrastructureError, failing)
  }

  /** The event is out: mark the session COMPLETE, then free the slot, register the fingerprint and clean up. */
  function Commit(w: World, s: Session, key: Key, stored: Stored, failing: set<Call>): (World, Result<Stored>) {
    if s.offset < s.size then FailedWith(w, s, ValueError, failing)
    else
      var (r, written) := w.redis.UpdateSession(s.(status := Status.Complete), WriteComplete in failing);
      if written == Err(InfrastructureError) then FailedWith(w, s, InfrastructureError, failing)
      else if written.Err? then (w, Err(written.error))
      else (w.(redis := Settled(r, s, key, stored, failing)), Ok(stored))
  }

  function Settled(r: RedisState, s: Session, key: Key, stored: Stored, failing: set<Call>): RedisState {
    var freed := FreeSlot(r, key.ws, failing).0;
    var meta := FileMetadata(key.id, stored.path, stored.size, freed.now);
    var registered :=
      if Call.Register in failing then freed else freed.Register(Fingerprint(key.ws, s.checksum), meta);
    registered.DeleteChunks(key, s.manifest, failing)
  }
}
