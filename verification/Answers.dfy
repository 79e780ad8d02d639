/**
 * What each operation answers and what it leaves in the stores, case by case, as conditions on the stored records, the
 * request and the names of the calls that raise.
 */
module Answers {
  import opened Types
  import opened Events
  import opened World
  import opened Entity
  import opened Manifest
  import opened RateLimiter
  import opened Storage
  import opened Protocol
  import opened Sessions
  import opened Actions
  import opened RoundTrip

  // ---- Initiate ----

  /** Blank, or with a separator or a null character, or too long. */
  predicate NameRefused(name: string) {
    || (forall i :: 0 <= i < |name| ==> IsSpace(name[i]))
    || (exists i :: 0 <= i < |name| && (name[i] == '/' || name[i] == '\\' || name[i] == '\0'))
    || 255 < |name|
  }

  /** Anything but 64 lower-case hexadecimal characters. */
  predicate DigestRefused(checksum: string) {
    |checksum| != 64 ||
    exists i :: 0 <= i < |checksum| && !('0' <= checksum[i] <= '9') && !('a' <= checksum[i] <= 'f')
  }

  /** The PDF media type, with its letters in either case. */
  predicate NamesPdf(mime: string) {
    && |mime| == 15
    && forall i :: 0 <= i < 15 ==>
         || mime[i] == "application/pdf"[i]
         || ('A' <= mime[i] <= 'Z' && mime[i] as int + 32 == "application/pdf"[i] as int)
  }

  predicate RequestPasses(q: UploadRequest) {
    !NameRefused(q.filename) && !DigestRefused(q.checksum) && 0 < q.size <= 1_073_741_824 && NamesPdf(q.mime)
  }

  lemma NameRefusedExactly(name: string)
    ensures NameRefused(name) <==> !FilenameAllowed(name)
  {
  }

  lemma DigestRefusedExactly(checksum: string)
    ensures DigestRefused(checksum) <==> !IsDigestText(checksum)
  {
    if IsDigestText(checksum) {
      assert forall i :: 0 <= i < |checksum| ==> IsHexDigit(checksum[i]);
    } else if |checksum| == 64 {
      var i :| 0 <= i < |checksum| && !IsHexDigit(checksum[i]);
    }
  }

  lemma NamesPdfExactly(mime: string)
    ensures NamesPdf(mime) <==> Lower(mime) == PDF
  {
    assert forall i :: 0 <= i < 15 ==> 'a' <= PDF[i] || PDF[i] == '/';
    if NamesPdf(mime) {
      forall i | 0 <= i < 15 ensures Lower(mime)[i] == PDF[i] {
      }
    } else if |mime| == 15 {
      var i :| && 0 <= i < 15 && mime[i] != "application/pdf"[i]
               && !('A' <= mime[i] <= 'Z' && mime[i] as int + 32 == "application/pdf"[i] as int);
      assert Lower(mime)[i] != PDF[i];
    }
  }

  /** The counters after a slot was taken and its return was tried. */
  function Undone(counters: map<Id, int>, ws: Id, failing: set<Call>): map<Id, int> {
    var count := CountOf(counters, ws);
    if CounterSubtract in failing then counters[ws := count + 1]
    else if 0 <= count || CounterClamp in failing then counters[ws := count]
    else counters[ws := 0]
  }

  /**
   * Every answer of an initiate and the state that goes with it. The request is checked before the counter is read, the
   * limit before the slot is taken, and the exact spelling of the media type only after that.
   */
  lemma StartAnswersExactly(cfg: Config, r: RedisState, key: Key, q: UploadRequest, failing: set<Call>)
    ensures var (r', answer) := InitiateUpload(cfg, r, key, q, failing);
            var count := CountOf(r.counters, key.ws);
            if NameRefused(q.filename) || DigestRefused(q.checksum) || q.size <= 0 then
              r' == r && answer == Err(ValueError)
            else if q.size > 1_073_741_824 then r' == r && answer == Err(FileSizeLimitExceeded)
            else if !NamesPdf(q.mime) then r' == r && answer == Err(UnsupportedMediaType)
            else if CounterRead in failing then r' == r && answer == Err(InfrastructureError)
            else if cfg.limit <= count then r' == r && answer == Err(RateLimitExceeded)
            else if CounterAdd in failing then r' == r && answer == Err(InfrastructureError)
            else if q.mime != "application/pdf" then
              r' == r.(counters := Undone(r.counters, key.ws, failing)) && answer == Err(UnsupportedMediaType)
            else if Call.CreateSession in failing then
              r' == r.(counters := Undone(r.counters, key.ws, failing)) && answer == Err(InfrastructureError)
            else
              && answer == Ok(key.id)
              && r' == r.(
                   sessions := r.sessions[key := Timed(
                     Session(key, q.filename, q.size, "application/pdf", q.checksum,
                             0, Pending, r.now, r.now + 86_400, []), r.now + 86_400)],
                   expiry := r.expiry[key.id := Timed(
                     ExpiryMeta(key.ws, key.id, r.now + 86_400, q.filename), r.now + 604_800)],
                   counters := r.counters[key.ws := count + 1])
    ensures InitiateUpload(cfg, r, key, q, failing).1 == Err(RateLimitExceeded) <==>
              RequestPasses(q) && CounterRead !in failing && cfg.limit <= CountOf(r.counters, key.ws)
  {
    NameRefusedExactly(q.filename);
    DigestRefusedExactly(q.checksum);
    NamesPdfExactly(q.mime);
    if CheckRequest(q) == None {
      CheckedStart(cfg, r, key, q, failing);
    }
  }

  /** From the limiter on. */
  lemma CheckedStart(cfg: Config, r: RedisState, key: Key, q: UploadRequest, failing: set<Call>)
    requires CheckRequest(q) == None
    ensures var (r', answer) := InitiateUpload(cfg, r, key, q, failing);
            var count := CountOf(r.counters, key.ws);
            if CounterRead in failing then r' == r && answer == Err(InfrastructureError)
            else if cfg.limit <= count then r' == r && answer == Err(RateLimitExceeded)
            else if CounterAdd in failing then r' == r && answer == Err(InfrastructureError)
            else if q.mime != PDF then
              r' == r.(counters := Undone(r.counters, key.ws, failing)) && answer == Err(UnsupportedMediaType)
            else if Call.CreateSession in failing then
              r' == r.(counters := Undone(r.counters, key.ws, failing)) && answer == Err(InfrastructureError)
            else
              && answer == Ok(key.id)
              && r' == r.SetCounter(key.ws, count + 1).CreateSession(NewSession(key, q, r.now))
  {
    UndoneExactly(r.counters, key.ws, failing);
  }

  lemma UndoneExactly(counters: map<Id, int>, ws: Id, failing: set<Call>)
    ensures Freed(counters[ws := CountOf(counters, ws) + 1], ws, failing).0 == Undone(counters, ws, failing)
  {
    var count := CountOf(counters, ws);
    var taken := counters[ws := count + 1];
    assert taken[ws := count] == counters[ws := count];
    assert taken[ws := 0] == counters[ws := 0];
  }

  // ---- Process chunk ----

  /**
   * Every answer of a PATCH and the state that goes with it, in the order of the checks. A PATCH that would overshoot
   * the file leaves its bytes as a stray chunk, and so does one whose record cannot be written; no other error leaves a
   * trace.
   */
  lemma SendAnswersExactly(cfg: Config, r: RedisState, q: PatchRequest, failing: set<Call>)
    requires SessionsOk(cfg, r)
    ensures var (r', answer) := ProcessChunk(cfg, r, q, failing);
            if GetSession in failing then r' == r && answer == Err(InfrastructureError)
            else if q.key !in r.sessions then r' == r && answer == Err(SessionNotFound)
            else
              var Timed(s, deadline) := r.sessions[q.key];
              var n := |s.manifest|;
              var stored := r.(chunks := r.chunks[ChunkKey(q.key, n) := Timed(q.data, r.now + 86_400)]);
              if s.status != Pending && s.status != InProgress then r' == r && answer == Err(InvalidSessionState)
              else if q.offset != s.offset then r' == r && answer == Err(OffsetMismatch(s.offset, q.offset))
              else if |q.data| == 0 || |q.data| > 10_485_760 then r' == r && answer == Err(ValueError)
              else if DigestRefused(q.checksum) then r' == r && answer == Err(ValueError)
              else if cfg.hash(q.data) != q.checksum then r' == r && answer == Err(ChecksumMismatch)
              else if Call.SetChunk in failing then r' == r && answer == Err(InfrastructureError)
              else if s.offset + |q.data| > s.size then r' == stored && answer == Err(ValueError)
              else if WriteProgress in failing then r' == stored && answer == Err(InfrastructureError)
              else
                && answer == Ok(s.offset + |q.data|)
                && r' == stored.(sessions := r.sessions[q.key := Timed(
                     s.(manifest := s.manifest + [ChunkMeta(n, |q.data|, q.checksum)],
                        offset := s.offset + |q.data|, status := InProgress), deadline)])
  {
    if q.key in r.sessions {
      assert SessionOk(cfg, r, q.key);
      DigestRefusedExactly(q.checksum);
      if GetSession !in failing && CheckPatch(cfg, r.sessions[q.key].value, q) == None {
        CheckedSend(cfg, r, q, failing);
      }
    }
  }

  /** From the store of the bytes on. */
  lemma CheckedSend(cfg: Config, r: RedisState, q: PatchRequest, failing: set<Call>)
    requires q.key in r.sessions && SessionOk(cfg, r, q.key) && GetSession !in failing
    requires CheckPatch(cfg, r.sessions[q.key].value, q) == None
    ensures var (r', answer) := ProcessChunk(cfg, r, q, failing);
            var Timed(s, deadline) := r.sessions[q.key];
            var n := |s.manifest|;
            var stored := r.(chunks := r.chunks[ChunkKey(q.key, n) := Timed(q.data, r.now + SESSION_TTL)]);
            if Call.SetChunk in failing then r' == r && answer == Err(InfrastructureError)
            else if s.offset + |q.data| > s.size then r' == stored && answer == Err(ValueError)
            else if WriteProgress in failing then r' == stored && answer == Err(InfrastructureError)
            else
              && answer == Ok(s.offset + |q.data|)
              && r' == stored.(sessions := r.sessions[q.key := Timed(
                   s.(manifest := s.manifest + [ChunkMeta(n, |q.data|, q.checksum)],
                      offset := s.offset + |q.data|, status := InProgress), deadline)])
  {
    var s := r.sessions[q.key].value;
    assert s.key == q.key && InOrder(s.manifest) && 0 <= s.offset by {
      TotalNonNegative(s.manifest);
    }
    NextIndexIsFree(s.manifest);
    DigestIsNotBlank(q.checksum);
  }

  // ---- Abort ----

  /**
   * Every answer of an abort and the state that goes with it. One that is not answered leaves the record ABORTED if and
   * only if the status was written and the delete then raised; otherwise it changes nothing.
   */
  lemma CancelAnswersExactly(cfg: Config, r: RedisState, key: Key, failing: set<Call>)
    requires SessionsOk(cfg, r)
    ensures var (r', answer) := AbortUpload(r, key, failing);
            if GetSession in failing then r' == r && answer == Err(InfrastructureError)
            else if key !in r.sessions then r' == r && answer == Err(SessionNotFound)
            else
              var Timed(s, deadline) := r.sessions[key];
              if s.status != Pending && s.status != InProgress then r' == r && answer == Err(SessionNotFound)
              else if WriteAborted in failing then r' == r && answer == Err(InfrastructureError)
              else if Call.DeleteSession in failing then
                && r' == r.(sessions := r.sessions[key := Timed(s.(status := Aborted), deadline)])
                && answer == Err(InfrastructureError)
              else
                && r' == r.(sessions := r.sessions - {key}, expiry := r.expiry - {key.id},
                            counters := GivenBack(r.counters, key.ws, failing))
                && answer == Ok(())
  {
    if key in r.sessions {
      assert r.sessions[key].value.key == key by {
        assert SessionOk(cfg, r, key);
      }
      if r.sessions[key].value.status.Live() && GetSession !in failing {
        LiveCancel(r, key, failing);
      }
    }
  }

  lemma LiveCancel(r: RedisState, key: Key, failing: set<Call>)
    requires key in r.sessions && r.sessions[key].value.key == key && r.sessions[key].value.status.Live()
    requires GetSession !in failing
    ensures var (r', answer) := AbortUpload(r, key, failing);
            var Timed(s, deadline) := r.sessions[key];
            if WriteAborted in failing then r' == r && answer == Err(InfrastructureError)
            else if Call.DeleteSession in failing then
              && r' == r.(sessions := r.sessions[key := Timed(s.(status := Aborted), deadline)])
              && answer == Err(InfrastructureError)
            else
              && r' == r.(sessions := r.sessions - {key}, expiry := r.expiry - {key.id},
                          counters := GivenBack(r.counters, key.ws, failing))
              && answer == Ok(())
  {
    var s := r.sessions[key].value;
    assert r.PutSession(s.(status := Aborted)).sessions - {key} == r.sessions - {key};
    GivenBackExactly(r.counters, key.ws, failing);
  }

  lemma GivenBackExactly(counters: map<Id, int>, ws: Id, failing: set<Call>)
    ensures Freed(counters, ws, failing).0 == GivenBack(counters, ws, failing)
  {
  }

  /** The counters after a decrement: one less, except that a negative result becomes 0 if the second command works. */
  function GivenBack(counters: map<Id, int>, ws: Id, failing: set<Call>): map<Id, int> {
    var count := CountOf(counters, ws) - 1;
    if CounterSubtract in failing then counters
    else if count < 0 && CounterClamp !in failing then counters[ws := 0]
    else counters[ws := count]
  }

  // ---- Complete ----

  /** All chunks are joined on S3: nothing is in the way and no call before the digest check raises. */
  predicate Joins(objects: map<Key, Bytes>, key: Key, chunks: seq<Bytes>, failing: set<Call>) {
    && 0 < |chunks| <= 10_000 && (forall i :: 0 <= i < |chunks| ==> chunks[i] != []) && key !in objects
    && HeadObject !in failing && CreateMultipart !in failing && UploadIdMissing !in failing
    && (forall number :: 1 <= number <= |chunks| ==> UploadPart(number) !in failing) && CompleteMultipart !in failing
  }

  function AssemblyError(cfg: Config, objects: map<Key, Bytes>, key: Key, chunks: seq<Bytes>, expected: Digest,
                         failing: set<Call>): Option<Error>
  {
    if |chunks| == 0 || |chunks| > 10_000 || (exists i :: 0 <= i < |chunks| && chunks[i] == []) then Some(ValueError)
    else if HeadObject in failing then Some(InfrastructureError)
    else if key in objects then Some(IntegrityError)
    else if !Joins(objects, key, chunks, failing) then Some(InfrastructureError)
    else if cfg.hash(Concat(chunks)) != expected then Some(IntegrityError)
    else None
  }

  function PathOf(cfg: Config, key: Key): string {
    "s3://" + cfg.bucket + "/" + ("workspace_" + key.ws + "/" + key.id + ".pdf")
  }

  /**
   * Every answer of the assembly and the object that goes with it: the joined chunks are left at the key if their digest
   * fits, or if it does not and the delete raises.
   */
  lemma AssembleAnswersExactly(cfg: Config, s: S3State, key: Key, chunks: seq<Bytes>, expected: Digest,
                               failing: set<Call>)
    ensures var (s', stored) := Assemble(cfg, s, key, chunks, expected, failing);
            && stored == (match AssemblyError(cfg, s.objects, key, chunks, expected, failing)
                          case Some(e) => Err(e)
                          case None => Ok(Stored(PathOf(cfg, key), |Concat(chunks)|)))
            && s'.objects == if Joins(s.objects, key, chunks, failing) &&
                                (cfg.hash(Concat(chunks)) == expected || DeleteObject in failing)
                             then s.objects[key := Concat(chunks)] else s.objects
  {
    assert SomePartFails(|chunks|, failing) <==>
           !(forall number :: 1 <= number <= |chunks| ==> UploadPart(number) !in failing);
  }

  /** How a completion ends: nothing is written, or an error after which the record is FAILED or not, or COMPLETE. */
  datatype Ending = Untouched(error: Error) | Stopped(error: Error, failed: bool) | Finished

  /** From the duplicate check on. */
  function AnnouncementEnding(dedup: map<Fingerprint, FileMetadata>, mark: Fingerprint, failing: set<Call>): Ending {
    if CheckDuplicate in failing then Stopped(InfrastructureError, WriteFailed !in failing)
    else if mark in dedup then
      (if WriteDuplicate in failing then Stopped(InfrastructureError, WriteFailed !in failing)
       else Stopped(DuplicateFile(dedup[mark]), true))
    else if Publish in failing then
      Stopped(InfrastructureError, WriteUnpublished !in failing || WriteFailed !in failing)
    else if WriteComplete in failing then Stopped(InfrastructureError, WriteFailed !in failing)
    else Finished
  }

  /** The chunks of the session, in the order of their indices. */
  function ChunksOf(r: RedisState, key: Key): seq<Bytes>
    requires key in r.sessions
  {
    Kept(r, key, |r.sessions[key].value.manifest|)
  }

  /** The completion gets past its checks: the session is IN_PROGRESS and has all its bytes. */
  predicate Received(r: RedisState, key: Key) {
    && key in r.sessions
    && r.sessions[key].value.status == InProgress && r.sessions[key].value.offset == r.sessions[key].value.size
  }

  /** The completion gets as far as the assembly. */
  predicate Assembles(r: RedisState, key: Key, failing: set<Call>) {
    && GetSession !in failing && Received(r, key)
    && forall i :: 0 <= i < |r.sessions[key].value.manifest| ==> ReadChunk(i) !in failing
  }

  /** The ending of a completion, from the record, the stores and the names of the calls that raise. */
  function EndingOf(cfg: Config, w: World, key: Key, failing: set<Call>): Ending {
    if GetSession in failing then Untouched(InfrastructureError)
    else if key !in w.redis.sessions then Untouched(SessionNotFound)
    else if !Received(w.redis, key) then Untouched(InvalidSessionState)
    else if !Assembles(w.redis, key, failing) then Stopped(InfrastructureError, WriteFailed !in failing)
    else
      var s := w.redis.sessions[key].value;
      match AssemblyError(cfg, w.s3.objects, key, ChunksOf(w.redis, key), s.checksum, failing)
      case Some(e) => Stopped(e, WriteFailed !in failing)
      case None => AnnouncementEnding(w.redis.dedup, Fingerprint(key.ws, s.checksum), failing)
  }

  function SizeOf(r: RedisState, key: Key): int {
    if key in r.sessions then r.sessions[key].value.size else 0
  }

  function AnswerOf(cfg: Config, key: Key, size: int, ending: Ending): Result<Stored> {
    match ending
    case Untouched(e) => Err(e)
    case Stopped(e, _) => Err(e)
    case Finished => Ok(Stored(PathOf(cfg, key), size))
  }

  /** The record with another status; everything else is as it was. */
  function Recorded(r: RedisState, key: Key, status: Status): RedisState
    requires key in r.sessions
  {
    var Timed(s, deadline) := r.sessions[key];
    r.(sessions := r.sessions[key := Timed(s.(status := status), deadline)])
  }

  /** The chunks that are not among the first n of the upload, or whose delete raises. */
  function Uncleared(chunks: map<ChunkKey, Timed<Bytes>>, key: Key, n: nat, failing: set<Call>):
      map<ChunkKey, Timed<Bytes>>
  {
    map c | c in chunks && !(c.key == key && 0 <= c.index < n && DeleteChunk(c.index) !in failing) :: chunks[c]
  }

  /** The record is COMPLETE, the slot given back, the content registered and the chunks gone, as far as calls work. */
  function Finishes(cfg: Config, r: RedisState, key: Key, failing: set<Call>): RedisState
    requires key in r.sessions
  {
    var s := r.sessions[key].value;
    var meta := FileMetadata(key.id, PathOf(cfg, key), s.size, r.now);
    Recorded(r, key, Status.Complete).(
      counters := GivenBack(r.counters, key.ws, failing),
      dedup := if Call.Register in failing then r.dedup else r.dedup[Fingerprint(key.ws, s.checksum) := meta],
      chunks := Uncleared(r.chunks, key, |s.manifest|, failing))
  }

  function LeftBy(cfg: Config, r: RedisState, key: Key, ending: Ending, failing: set<Call>): RedisState
    requires !ending.Untouched? ==> key in r.sessions
  {
    match ending
    case Untouched(_) => r
    case Stopped(_, failed) => if failed then Recorded(r, key, Failed) else r
    case Finished => Finishes(cfg, r, key, failing)
  }

  /** The publish call is made when no duplicate is known, and its event is delivered unless it raises. */
  function CallsOf(bus: BusState, dedup: map<Fingerprint, FileMetadata>, event: Event, failing: set<Call>): BusState {
    if CheckDuplicate in failing || Fingerprint(event.key.ws, event.checksum) in dedup then bus
    else BusState(bus.calls + [event], bus.delivered + if Publish in failing then [] else [event])
  }

  lemma FailedOnce(w: World, s: Session, error: Error, failing: set<Call>)
    requires s.key in w.redis.sessions && w.redis.sessions[s.key].value == s
    ensures var (w', answer) := FailedWith(w, s, error, failing);
            && answer == Err(error)
            && w' == w.(redis := if WriteFailed in failing then w.redis else Recorded(w.redis, s.key, Failed))
  {
  }

  lemma FailedTwice(r: RedisState, s: Session, first: bool, second: bool)
    requires s.key in r.sessions && r.sessions[s.key].value == s
    ensures r.UpdateSession(s.(status := Failed), first).0.UpdateSession(s.(status := Failed), second).0
         == if first && second then r else Recorded(r, s.key, Failed)
  {
    var put := r.PutSession(s.(status := Failed));
    assert put.PutSession(s.(status := Failed)).sessions == put.sessions;
  }

  lemma UnclearedExactly(r: RedisState, key: Key, manifest: seq<ChunkMeta>, failing: set<Call>)
    requires InOrder(manifest)
    ensures r.DeleteChunks(key, manifest, failing) == r.(chunks := Uncleared(r.chunks, key, |manifest|, failing))
  {
    forall i: int
      ensures Deleted(i, manifest, failing) <==> 0 <= i < |manifest| && DeleteChunk(i) !in failing
    {
      if 0 <= i < |manifest| {
        assert manifest[i].index == i && manifest[i] in manifest;
      }
    }
    assert r.DeleteChunks(key, manifest, failing).chunks == Uncleared(r.chunks, key, |manifest|, failing);
  }

  lemma FinishesExactly(cfg: Config, r: RedisState, key: Key, failing: set<Call>)
    requires key in r.sessions && r.sessions[key].value.key == key && InOrder(r.sessions[key].value.manifest)
    ensures var s := r.sessions[key].value;
            var stored := Stored(ObjectPath(cfg, key), s.size);
            var put := r.PutSession(s.(status := Status.Complete));
            Settled(put, s, key, stored, failing) == Finishes(cfg, r, key, failing)
  {
    var s := r.sessions[key].value;
    var put := r.PutSession(s.(status := Status.Complete));
    var freed := FreeSlot(put, key.ws, failing).0;
    var meta := FileMetadata(key.id, ObjectPath(cfg, key), s.size, r.now);
    var registered :=
      if Call.Register in failing then freed else freed.Register(Fingerprint(key.ws, s.checksum), meta);
    GivenBackExactly(r.counters, key.ws, failing);
    UnclearedExactly(registered, key, s.manifest, failing);
  }

  lemma CommitEnds(cfg: Config, w: World, s: Session, key: Key, failing: set<Call>)
    requires key in w.redis.sessions && w.redis.sessions[key].value == s && s.key == key && InOrder(s.manifest)
    requires s.offset == s.size
    ensures var (w', answer) := Commit(w, s, key, Stored(ObjectPath(cfg, key), s.size), failing);
            && w' == w.(redis := w'.redis)
            && if WriteComplete in failing then
                 && answer == Err(InfrastructureError)
                 && w'.redis == if WriteFailed in failing then w.redis else Recorded(w.redis, key, Failed)
               else answer == Ok(Stored(PathOf(cfg, key), s.size)) && w'.redis == Finishes(cfg, w.redis, key, failing)
  {
    FailedOnce(w, s, InfrastructureError, failing);
    FinishesExactly(cfg, w.redis, key, failing);
  }

  lemma AnnounceEnds(cfg: Config, w: World, s: Session, key: Key, failing: set<Call>)
    requires key in w.redis.sessions && w.redis.sessions[key].value == s && s.key == key && InOrder(s.manifest)
    requires s.offset == s.size && 0 < s.size <= MAX_FILE_SIZE
    ensures var (w', answer) := Announce(cfg, w, s, key, Stored(ObjectPath(cfg, key), s.size), failing);
            var ending := AnnouncementEnding(w.redis.dedup, Fingerprint(key.ws, s.checksum), failing);
            var event := Event(key, PathOf(cfg, key), s.checksum, s.size, w.redis.now, w.redis.now);
            && answer == AnswerOf(cfg, key, s.size, ending)
            && w' == World(LeftBy(cfg, w.redis, key, ending, failing), w.s3,
                           CallsOf(w.bus, w.redis.dedup, event, failing))
  {
    var event := CompletionEvent(cfg, key, s.checksum, s.size, w.redis.now);
    AssembledPathAccepted(cfg, key, s.checksum, s.size, w.redis.now);
    if CheckDuplicate in failing {
      FailedOnce(w, s, InfrastructureError, failing);
    } else if Fingerprint(key.ws, s.checksum) in w.redis.dedup {
      FailedOnce(w, s, InfrastructureError, failing);
    } else if Publish in failing {
      FailedTwice(w.redis, s, WriteUnpublished in failing, WriteFailed in failing);
    } else {
      CommitEnds(cfg, w.(bus := BusState(w.bus.calls + [event], w.bus.delivered + [event])), s, key, failing);
    }
  }

  /** The world that a completion leaves, piece by piece, once it has come as far as the assembly. */
  predicate LeftWorld(cfg: Config, w: World, w': World, key: Key, failing: set<Call>)
    requires key in w.redis.sessions
  {
    var s := w.redis.sessions[key].value;
    var chunks := ChunksOf(w.redis, key);
    var event := Event(key, PathOf(cfg, key), s.checksum, s.size, w.redis.now, w.redis.now);
    && w'.s3.objects == (if Joins(w.s3.objects, key, chunks, failing) &&
                            (cfg.hash(Concat(chunks)) == s.checksum || DeleteObject in failing)
                         then w.s3.objects[key := Concat(chunks)] else w.s3.objects)
    && w'.s3.open == (if LeavesOpen(w.s3, key, chunks, failing) then w.s3.open[w.s3.next := key] else w.s3.open)
    && w'.bus == (if AssemblyError(cfg, w.s3.objects, key, chunks, s.checksum, failing) == None
                  then CallsOf(w.bus, w.redis.dedup, event, failing) else w.bus)
  }

  lemma ReadyEnds(cfg: Config, w: World, s: Session, chunks: seq<Bytes>, key: Key, failing: set<Call>)
    requires Assembles(w.redis, key, failing) && w.redis.sessions[key].value == s && s.key == key && InOrder(s.manifest)
    requires 0 < s.size <= MAX_FILE_SIZE && chunks == ChunksOf(w.redis, key) && |Concat(chunks)| == s.size
    requires IdsBelowNext(w.s3)
    ensures var (w', answer) := StoreAndAnnounce(cfg, w, s, chunks, key, failing);
            var ending := EndingOf(cfg, w, key, failing);
            && answer == AnswerOf(cfg, key, s.size, ending)
            && w'.redis == LeftBy(cfg, w.redis, key, ending, failing)
            && LeftWorld(cfg, w, w', key, failing)
  {
    var (s3, stored) := Assemble(cfg, w.s3, key, chunks, s.checksum, failing);
    AssembleAnswersExactly(cfg, w.s3, key, chunks, s.checksum, failing);
    AssembleLeavesOpen(cfg, w.s3, key, chunks, s.checksum, failing);
    if stored.Err? {
      FailedOnce(w.(s3 := s3), s, stored.error, failing);
    } else {
      AnnounceEnds(cfg, w.(s3 := s3), s, key, failing);
    }
  }

  lemma UnassembledEnds(cfg: Config, w: World, key: Key, failing: set<Call>)
    requires SessionsOk(cfg, w.redis) && !Assembles(w.redis, key, failing)
    ensures var (w', answer) := CompleteUpload(cfg, w, key, failing);
            var ending := EndingOf(cfg, w, key, failing);
            && answer == AnswerOf(cfg, key, SizeOf(w.redis, key), ending)
            && w' == w.(redis := LeftBy(cfg, w.redis, key, ending, failing))
  {
    CheckCompleteOutcome(cfg, w.redis, key, failing);
    if GetSession !in failing && Received(w.redis, key) {
      var s := w.redis.sessions[key].value;
      assert SomeReadFails(|s.manifest|, failing);
      FailedOnce(w, s, InfrastructureError, failing);
    }
  }

  lemma AssembledEnds(cfg: Config, w: World, key: Key, failing: set<Call>)
    requires SessionsOk(cfg, w.redis) && IdsBelowNext(w.s3) && Assembles(w.redis, key, failing)
    ensures var (w', answer) := CompleteUpload(cfg, w, key, failing);
            var ending := EndingOf(cfg, w, key, failing);
            && answer == AnswerOf(cfg, key, SizeOf(w.redis, key), ending)
            && w'.redis == LeftBy(cfg, w.redis, key, ending, failing)
            && LeftWorld(cfg, w, w', key, failing)
  {
    var s := w.redis.sessions[key].value;
    var c := CheckComplete(w.redis, key, failing);
    CheckCompleteOutcome(cfg, w.redis, key, failing);
    assert InOrder(s.manifest) by {
      assert SessionOk(cfg, w.redis, key);
    }
    assert c == Ready(s, c.chunks) && c.chunks == ChunksOf(w.redis, key);
    ReadyEnds(cfg, w, s, c.chunks, key, failing);
  }

  /**
   * Every answer of a completion and the state that goes with it. The ending says which error is answered and whether
   * the record becomes FAILED; the path and size of an answer are those of the object and of the session.
   */
  lemma FinishAnswersExactly(cfg: Config, w: World, key: Key, failing: set<Call>)
    requires Inv(cfg, w)
    ensures var (w', answer) := CompleteUpload(cfg, w, key, failing);
            var ending := EndingOf(cfg, w, key, failing);
            && answer == AnswerOf(cfg, key, SizeOf(w.redis, key), ending)
            && w'.redis == LeftBy(cfg, w.redis, key, ending, failing)
            && if Assembles(w.redis, key, failing) then LeftWorld(cfg, w, w', key, failing)
               else w'.s3 == w.s3 && w'.bus == w.bus
  {
    if Assembles(w.redis, key, failing) {
      AssembledEnds(cfg, w, key, failing);
    } else {
      UnassembledEnds(cfg, w, key, failing);
    }
  }

  /** The duplicate check is reached: the file has been assembled. */
  predicate Assembled(cfg: Config, w: World, key: Key, failing: set<Call>) {
    && Assembles(w.redis, key, failing)
    && var s := w.redis.sessions[key].value;
       AssemblyError(cfg, w.s3.objects, key, ChunksOf(w.redis, key), s.checksum, failing) == None
  }

  predicate Duplicate(w: World, key: Key)
    requires key in w.redis.sessions
  {
    Fingerprint(key.ws, w.redis.sessions[key].value.checksum) in w.redis.dedup
  }

  /** One of the writes of FAILED on the way of a completion works. */
  predicate SomeFailedWriteWorks(cfg: Config, w: World, key: Key, failing: set<Call>)
    requires key in w.redis.sessions
  {
    var checked := Assembled(cfg, w, key, failing) && CheckDuplicate !in failing;
    || WriteFailed !in failing
    || (checked && Duplicate(w, key) && WriteDuplicate !in failing)
    || (checked && !Duplicate(w, key) && Publish in failing && WriteUnpublished !in failing)
  }

  lemma EndingFails(cfg: Config, w: World, key: Key, failing: set<Call>)
    requires key in w.redis.sessions
    ensures var ending := EndingOf(cfg, w, key, failing);
            && (ending.Stopped? && ending.failed <==>
                  && GetSession !in failing && Received(w.redis, key) && !ending.Finished?
                  && SomeFailedWriteWorks(cfg, w, key, failing))
            && (AnswerOf(cfg, key, SizeOf(w.redis, key), ending).Ok? <==> ending.Finished?)
  {
  }

  lemma LeftStatus(cfg: Config, r: RedisState, key: Key, ending: Ending, failing: set<Call>)
    requires key in r.sessions && r.sessions[key].value.status.Live()
    ensures var r' := LeftBy(cfg, r, key, ending, failing);
            && key in r'.sessions
            && (r'.sessions[key].value.status == Failed <==> ending.Stopped? && ending.failed)
            && (r'.sessions[key].value.status == Status.Complete <==> ending.Finished?)
  {
  }

  /**
   * When exactly a live session ends as FAILED, and when as COMPLETE: it had all its bytes and was loaded; and either
   * the completion is not answered and one of the writes of FAILED on its way works, or it is answered.
   */
  lemma FailsExactly(cfg: Config, w: World, key: Key, failing: set<Call>)
    requires Inv(cfg, w) && key in w.redis.sessions && w.redis.sessions[key].value.status.Live()
    ensures var r' := CompleteUpload(cfg, w, key, failing).0.redis;
            var done := Completable(cfg, w, key) && NoCallFails(|w.redis.sessions[key].value.manifest|, failing);
            && key in r'.sessions
            && (r'.sessions[key].value.status == Failed <==>
                  && GetSession !in failing && Received(w.redis, key) && !done
                  && SomeFailedWriteWorks(cfg, w, key, failing))
            && (r'.sessions[key].value.status == Status.Complete <==> done)
  {
    FinishAnswersExactly(cfg, w, key, failing);
    FinishSucceedsExactly(cfg, w, key, failing);
    EndingFails(cfg, w, key, failing);
    LeftStatus(cfg, w.redis, key, EndingOf(cfg, w, key, failing), failing);
  }
}
