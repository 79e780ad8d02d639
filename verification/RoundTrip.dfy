/** From the client's file to the object: an honest upload, resumed as often as needed, ends as the same bytes. */
module RoundTrip {
  import opened Types
  import opened Events
  import opened World
  import opened Entity
  import opened Manifest
  import opened SessionStore
  import opened RateLimiter
  import opened Storage
  import opened Protocol
  import opened Sessions
  import opened Shapes
  import opened Actions
  import opened Safety

  /** The bytes of the first n chunks stored for an upload. */
  function Kept(r: RedisState, key: Key, n: nat): seq<Bytes> {
    seq(n, i => if ChunkKey(key, i) in r.chunks then r.chunks[ChunkKey(key, i)].value else [])
  }

  /**
   * What arrives undamaged lies in the file where it says. What was damaged on the way, so that its digest does not fit,
   * and what does not fit into the file may be anything.
   */
  predicate HonestSend(cfg: Config, file: Bytes, q: PatchRequest) {
    && cfg.hash(q.data) == q.checksum
    && 0 <= q.offset && q.offset + |q.data| <= |file|
    ==> q.data == file[q.offset..q.offset + |q.data|]
  }

  predicate HonestAction(cfg: Config, a: Action, key: Key, file: Bytes) {
    && (a.Send? && a.patch.key == key ==> HonestSend(cfg, file, a.patch))
    && (a.Start? && a.key == key ==> a.request.size == |file|)
  }

  predicate Honest(cfg: Config, acts: seq<Action>, key: Key, file: Bytes) {
    forall a :: a in acts ==> HonestAction(cfg, a, key, file)
  }

  /** A live session holds the file up to its offset. */
  predicate HoldsFile(r: RedisState, key: Key, file: Bytes) {
    key in r.sessions && r.sessions[key].value.status.Live() ==>
      var s := r.sessions[key].value;
      s.size == |file| && 0 <= s.offset <= |file| && Concat(Kept(r, key, |s.manifest|)) == file[..s.offset]
  }

  /** The listed chunks are there before and after, with the same bytes. */
  predicate SameChunks(r: RedisState, r': RedisState, key: Key, n: nat) {
    forall i :: 0 <= i < n ==>
      && ChunkKey(key, i) in r.chunks && ChunkKey(key, i) in r'.chunks
      && r'.chunks[ChunkKey(key, i)].value == r.chunks[ChunkKey(key, i)].value
  }

  predicate NoChunkRewritten(r: RedisState, r': RedisState, key: Key) {
    forall c :: c in r.chunks && c in r'.chunks && c.key == key ==> r'.chunks[c] == r.chunks[c]
  }

  /** The session may have ended; if it is live, its record is as it was. */
  predicate RecordKept(r: RedisState, r': RedisState, key: Key) {
    key in r'.sessions && r'.sessions[key].value.status.Live() ==>
      key in r.sessions && r.sessions[key].value == r'.sessions[key].value
  }

  lemma ListedChunksKept(cfg: Config, r: RedisState, r': RedisState, key: Key)
    requires SessionsOk(cfg, r) && SessionsOk(cfg, r')
    requires key in r'.sessions && r'.sessions[key].value.status.Live()
    requires key in r.sessions && r.sessions[key].value == r'.sessions[key].value
    requires NoChunkRewritten(r, r', key)
    ensures SameChunks(r, r', key, |r.sessions[key].value.manifest|)
  {
    var manifest := r.sessions[key].value.manifest;
    forall i | 0 <= i < |manifest|
      ensures && ChunkKey(key, i) in r.chunks && ChunkKey(key, i) in r'.chunks
              && r'.chunks[ChunkKey(key, i)].value == r.chunks[ChunkKey(key, i)].value
    {
      ListedChunk(cfg, r, key, i);
      ListedChunk(cfg, r', key, i);
    }
  }

  lemma UntouchedHoldsFile(cfg: Config, r: RedisState, r': RedisState, key: Key, file: Bytes)
    requires SessionsOk(cfg, r) && SessionsOk(cfg, r') && HoldsFile(r, key, file)
    requires RecordKept(r, r', key) && NoChunkRewritten(r, r', key)
    ensures HoldsFile(r', key, file)
  {
    if key in r'.sessions && r'.sessions[key].value.status.Live() {
      var n := |r.sessions[key].value.manifest|;
      ListedChunksKept(cfg, r, r', key);
      assert Kept(r', key, n) == Kept(r, key, n);
    }
  }

  lemma ProgressedKept(r: RedisState, r': RedisState, q: PatchRequest)
    requires Progressed(r, r', q)
    ensures var n := |r.sessions[q.key].value.manifest|;
            Kept(r', q.key, n + 1) == Kept(r, q.key, n) + [q.data]
  {
    var key, n := q.key, |r.sessions[q.key].value.manifest|;
    forall i | 0 <= i < n ensures Kept(r', key, n + 1)[i] == Kept(r, key, n)[i] {
      assert ChunkKey(key, i) != ChunkKey(key, n);
    }
  }

  lemma ProgressedHoldsFile(cfg: Config, r: RedisState, r': RedisState, q: PatchRequest, file: Bytes)
    requires HoldsFile(r, q.key, file) && Progressed(r, r', q) && HonestSend(cfg, file, q)
    requires cfg.hash(q.data) == q.checksum
    ensures HoldsFile(r', q.key, file)
  {
    var s := r.sessions[q.key].value;
    ProgressedKept(r, r', q);
    ConcatAppend(Kept(r, q.key, |s.manifest|), q.data);
    assert file[..s.offset] + file[s.offset..s.offset + |q.data|] == file[..s.offset + |q.data|];
  }

  /** A stray chunk lands beyond the manifest, so a PATCH that is refused leaves the bytes held alone. */
  lemma RefusedHoldsFile(r: RedisState, r': RedisState, q: PatchRequest, file: Bytes)
    requires HoldsFile(r, q.key, file) && r'.sessions == r.sessions
    requires r'.chunks == r.chunks ||
             (q.key in r.sessions &&
              r'.chunks == r.SetChunk(q.key, |r.sessions[q.key].value.manifest|, q.data).chunks)
    ensures HoldsFile(r', q.key, file)
  {
    if q.key in r.sessions {
      var n := |r.sessions[q.key].value.manifest|;
      forall i | 0 <= i < n ensures Kept(r', q.key, n)[i] == Kept(r, q.key, n)[i] {
        assert ChunkKey(q.key, i) != ChunkKey(q.key, n);
      }
      assert Kept(r', q.key, n) == Kept(r, q.key, n);
    }
  }

  lemma SendHoldsFile(cfg: Config, r: RedisState, q: PatchRequest, failing: set<Call>, file: Bytes)
    requires KeyedRight(r) && HoldsFile(r, q.key, file) && HonestSend(cfg, file, q)
    ensures HoldsFile(ProcessChunk(cfg, r, q, failing).0, q.key, file)
  {
    var (r', answer) := ProcessChunk(cfg, r, q, failing);
    ProcessChunkShape(cfg, r, q, failing);
    if answer.Ok? {
      assert cfg.hash(q.data) == q.checksum;
      ProgressedHoldsFile(cfg, r, r', q, file);
    } else {
      RefusedHoldsFile(r, r', q, file);
    }
  }

  lemma OtherSendKeeps(cfg: Config, r: RedisState, q: PatchRequest, failing: set<Call>, key: Key)
    requires KeyedRight(r) && q.key != key
    ensures RecordKept(r, ProcessChunk(cfg, r, q, failing).0, key)
    ensures NoChunkRewritten(r, ProcessChunk(cfg, r, q, failing).0, key)
  {
    ProcessChunkShape(cfg, r, q, failing);
  }

  lemma OtherFinishKeeps(cfg: Config, w: World, k: Key, failing: set<Call>, key: Key)
    requires KeyedRight(w.redis) && IdsBelowNext(w.s3)
    ensures RecordKept(w.redis, CompleteUpload(cfg, w, k, failing).0.redis, key)
    ensures NoChunkRewritten(w.redis, CompleteUpload(cfg, w, k, failing).0.redis, key)
  {
    CompleteShape(cfg, w, k, failing);
  }

  /** Every operation but a PATCH or a start of this very upload leaves its record and its bytes alone. */
  lemma OthersKeep(cfg: Config, w: World, a: Action, key: Key)
    requires KeyedRight(w.redis) && IdsBelowNext(w.s3)
    requires a.Send? ==> a.patch.key != key
    requires a.Start? ==> a.key != key
    ensures RecordKept(w.redis, Apply(cfg, w, a).redis, key)
    ensures NoChunkRewritten(w.redis, Apply(cfg, w, a).redis, key)
  {
    match a
    case Start(k, request, failing) => InitiateShape(cfg, w.redis, k, request, failing);
    case Send(q, failing) => OtherSendKeeps(cfg, w.redis, q, failing, key);
    case Cancel(k, failing) => AbortShape(w.redis, k, failing);
    case Finish(k, failing) => OtherFinishKeeps(cfg, w, k, failing, key);
    case Wait(_) =>
    case ResetCounter(_) =>
  }

  lemma StartHoldsFile(cfg: Config, r: RedisState, key: Key, q: UploadRequest, failing: set<Call>, file: Bytes)
    requires HoldsFile(r, key, file) && q.size == |file|
    ensures HoldsFile(InitiateUpload(cfg, r, key, q, failing).0, key, file)
  {
    var (r', answer) := InitiateUpload(cfg, r, key, q, failing);
    InitiateShape(cfg, r, key, q, failing);
    if answer.Ok? {
      assert Kept(r', key, 0) == [];
    } else if key in r.sessions {
      var n := |r.sessions[key].value.manifest|;
      assert Kept(r', key, n) == Kept(r, key, n);
    }
  }

  lemma StepHoldsFile(cfg: Config, w: World, a: Action, key: Key, file: Bytes)
    requires Inv(cfg, w) && Inv(cfg, Apply(cfg, w, a))
    requires HoldsFile(w.redis, key, file) && HonestAction(cfg, a, key, file)
    ensures HoldsFile(Apply(cfg, w, a).redis, key, file)
  {
    KeyedRightAll(cfg, w.redis);
    if a.Send? && a.patch.key == key {
      SendHoldsFile(cfg, w.redis, a.patch, a.failing, file);
    } else if a.Start? && a.key == key {
      StartHoldsFile(cfg, w.redis, key, a.request, a.failing, file);
    } else {
      OthersKeep(cfg, w, a, key);
      UntouchedHoldsFile(cfg, w.redis, Apply(cfg, w, a).redis, key, file);
    }
  }

  lemma {:induction false} RunHoldsFile(cfg: Config, now: int, acts: seq<Action>, key: Key, file: Bytes)
    requires UniqueIds(acts) && Honest(cfg, acts, key, file)
    ensures HoldsFile(Run(cfg, Empty(now), acts).redis, key, file)
  {
    if acts != [] {
      var init, last := acts[..|acts| - 1], acts[|acts| - 1];
      LastIdIsNew(acts);
      RunHoldsFile(cfg, now, init, key, file);
      RunKeepsInv(cfg, now, init);
      RunKeepsInv(cfg, now, acts);
      StepHoldsFile(cfg, Run(cfg, Empty(now), init), last, key, file);
    }
  }

  // ---- When exactly each operation succeeds ----

  predicate Acceptable(q: UploadRequest) {
    && FilenameAllowed(q.filename) && IsDigestText(q.checksum) && 0 < q.size <= MAX_FILE_SIZE && q.mime == PDF
  }

  lemma AcceptableExactly(key: Key, q: UploadRequest, now: int)
    ensures Acceptable(q) <==> CheckRequest(q) == None && Validate(NewSession(key, q, now)) == None
  {
    assert Lower(PDF) == PDF;
  }

  /** An upload starts precisely under these conditions; it then has a new record, a note and one more slot. */
  lemma StartSucceedsExactly(cfg: Config, r: RedisState, key: Key, q: UploadRequest, failing: set<Call>)
    ensures var (r', answer) := InitiateUpload(cfg, r, key, q, failing);
            && (answer.Ok? <==>
                  && Acceptable(q) && CountOf(r.counters, key.ws) < cfg.limit
                  && CounterRead !in failing && CounterAdd !in failing && Call.CreateSession !in failing)
            && (answer.Ok? ==>
                  && answer.value == key.id
                  && r' == r.CreateSession(NewSession(key, q, r.now))
                            .SetCounter(key.ws, CountOf(r.counters, key.ws) + 1))
            && (answer.Err? ==> r' == r.(counters := r'.counters))
  {
    StartAnswers(cfg, r, key, q, failing);
    InitiateShape(cfg, r, key, q, failing);
  }

  lemma StartAnswers(cfg: Config, r: RedisState, key: Key, q: UploadRequest, failing: set<Call>)
    ensures var (r', answer) := InitiateUpload(cfg, r, key, q, failing);
            && (answer.Ok? <==>
                  && Acceptable(q) && CountOf(r.counters, key.ws) < cfg.limit
                  && CounterRead !in failing && CounterAdd !in failing && Call.CreateSession !in failing)
            && (answer.Ok? ==>
                  answer.value == key.id && r'.counters == r.counters[key.ws := CountOf(r.counters, key.ws) + 1])
  {
    if CheckRequest(q) == None {
      AcceptableExactly(key, q, r.now);
    } else {
      NotAcceptable(q);
    }
  }

  lemma NotAcceptable(q: UploadRequest)
    requires CheckRequest(q) != None
    ensures !Acceptable(q)
  {
    assert Lower(PDF) == PDF;
  }

  /** An abort is answered precisely under these conditions; a decrement that raises does not matter. */
  lemma CancelSucceedsExactly(cfg: Config, r: RedisState, key: Key, failing: set<Call>)
    requires SessionsOk(cfg, r)
    ensures var (r', answer) := AbortUpload(r, key, failing);
            && (answer.Ok? <==>
                  && key in r.sessions && r.sessions[key].value.status.Live()
                  && GetSession !in failing && WriteAborted !in failing && Call.DeleteSession !in failing)
            && (answer.Ok? ==>
                  && r'.sessions == r.sessions - {key} && r'.expiry == r.expiry - {key.id}
                  && r'.counters == Freed(r.counters, key.ws, failing).0)
            && (answer.Err? ==>
                  r'.sessions.Keys == r.sessions.Keys && r'.expiry == r.expiry && r'.counters == r.counters)
  {
    KeyedRightAll(cfg, r);
    AbortShape(r, key, failing);
  }

  lemma NextIndexIsFree(manifest: seq<ChunkMeta>)
    requires InOrder(manifest)
    ensures !HasIndex(manifest, |manifest|)
  {
    forall c | c in manifest ensures c.index != |manifest| {
      var i :| 0 <= i < |manifest| && manifest[i] == c;
    }
  }

  /** A PATCH is answered precisely under these conditions, and otherwise leaves the session record alone. */
  lemma SendSucceedsExactly(cfg: Config, r: RedisState, q: PatchRequest, failing: set<Call>)
    requires SessionsOk(cfg, r)
    ensures ProcessChunk(cfg, r, q, failing).1.Ok? <==>
            && GetSession !in failing && Call.SetChunk !in failing && WriteProgress !in failing
            && q.key in r.sessions
            && var s := r.sessions[q.key].value;
               && s.status.Live() && q.offset == s.offset
               && 0 < |q.data| <= MAX_CHUNK_SIZE && q.offset + |q.data| <= s.size
               && cfg.hash(q.data) == q.checksum
    ensures ProcessChunk(cfg, r, q, failing).1.Err? ==> ProcessChunk(cfg, r, q, failing).0.sessions == r.sessions
  {
    KeyedRightAll(cfg, r);
    ProcessChunkShape(cfg, r, q, failing);
    if q.key in r.sessions {
      assert SessionOk(cfg, r, q.key);
      var s := r.sessions[q.key].value;
      NextIndexIsFree(s.manifest);
      assert Total(s.manifest) == s.offset >= 0 by {
        TotalNonNegative(s.manifest);
      }
      if cfg.hash(q.data) == q.checksum {
        DigestIsNotBlank(q.checksum);
      }
    }
  }

  predicate NoCallFails(n: nat, failing: set<Call>) {
    && GetSession !in failing && !SomeReadFails(n, failing)
    && HeadObject !in failing && CreateMultipart !in failing && UploadIdMissing !in failing
    && !SomePartFails(n, failing) && CompleteMultipart !in failing
    && CheckDuplicate !in failing && Publish !in failing && WriteComplete !in failing
  }

  predicate Completable(cfg: Config, w: World, key: Key) {
    && key in w.redis.sessions && key !in w.s3.objects
    && var s := w.redis.sessions[key].value;
       && s.status == InProgress && s.offset == s.size && |s.manifest| <= MAX_PARTS
       && cfg.hash(Concat(Kept(w.redis, key, |s.manifest|))) == s.checksum
       && Fingerprint(key.ws, s.checksum) !in w.redis.dedup
  }

  lemma AnnounceSucceedsExactly(cfg: Config, w: World, s: Session, key: Key, stored: Stored, failing: set<Call>)
    requires key in w.redis.sessions && w.redis.sessions[key].value == s && s.key == key && s.status == InProgress
    requires s.offset == s.size == stored.size && 0 < s.size <= MAX_FILE_SIZE && stored.path == ObjectPath(cfg, key)
    ensures Announce(cfg, w, s, key, stored, failing).1.Ok? <==>
            && Fingerprint(key.ws, s.checksum) !in w.redis.dedup
            && CheckDuplicate !in failing && Publish !in failing && WriteComplete !in failing
  {
    AssembledPathAccepted(cfg, key, s.checksum, stored.size, w.redis.now);
  }

  lemma AssembleSucceedsExactly(cfg: Config, s: S3State, key: Key, chunks: seq<Bytes>, expected: Digest,
                                failing: set<Call>)
    requires forall i :: 0 <= i < |chunks| ==> |chunks[i]| > 0
    ensures var (s', stored) := Assemble(cfg, s, key, chunks, expected, failing);
            && (stored.Ok? <==>
                  && 0 < |chunks| <= MAX_PARTS && key !in s.objects && cfg.hash(Concat(chunks)) == expected
                  && HeadObject !in failing && CreateMultipart !in failing && UploadIdMissing !in failing
                  && !SomePartFails(|chunks|, failing) && CompleteMultipart !in failing)
            && (stored.Ok? ==>
                  && stored.value == Stored(ObjectPath(cfg, key), |Concat(chunks)|)
                  && key in s'.objects && s'.objects[key] == Concat(chunks))
  {
  }

  /** From the assembly on. */
  lemma ReadySucceedsExactly(cfg: Config, w: World, s: Session, chunks: seq<Bytes>, key: Key, failing: set<Call>)
    requires CheckComplete(w.redis, key, failing) == Ready(s, chunks)
    requires key in w.redis.sessions && w.redis.sessions[key].value == s && s.key == key && s.status == InProgress
    requires 0 < |chunks| == |s.manifest| && s.offset == s.size == |Concat(chunks)| && 0 < s.size <= MAX_FILE_SIZE
    requires forall i :: 0 <= i < |chunks| ==> |chunks[i]| > 0
    requires chunks == Kept(w.redis, key, |chunks|)
    requires GetSession !in failing && !SomeReadFails(|chunks|, failing)
    ensures var (w', answer) := CompleteUpload(cfg, w, key, failing);
            && (answer.Ok? <==> Completable(cfg, w, key) && NoCallFails(|chunks|, failing))
            && (answer.Ok? ==> key in w'.s3.objects && w'.s3.objects[key] == Concat(chunks))
  {
    var (s3, stored) := Assemble(cfg, w.s3, key, chunks, s.checksum, failing);
    AssembleSucceedsExactly(cfg, w.s3, key, chunks, s.checksum, failing);
    if stored.Ok? {
      AnnounceShape(cfg, w.(s3 := s3), s, key, stored.value, failing);
      AnnounceSucceedsExactly(cfg, w.(s3 := s3), s, key, stored.value, failing);
    }
  }

  /**
   * A completion is answered precisely under these conditions; a counter, a fingerprint or a cleanup that fails does
   * not matter. The object is then the stored chunks joined in order.
   */
  lemma FinishSucceedsExactly(cfg: Config, w: World, key: Key, failing: set<Call>)
    requires Inv(cfg, w)
    ensures var (w', answer) := CompleteUpload(cfg, w, key, failing);
            && (answer.Ok? <==>
                  Completable(cfg, w, key) && NoCallFails(|w.redis.sessions[key].value.manifest|, failing))
            && (answer.Ok? ==>
                  key in w'.s3.objects &&
                  w'.s3.objects[key] == Concat(Kept(w.redis, key, |w.redis.sessions[key].value.manifest|)))
  {
    CheckCompleteOutcome(cfg, w.redis, key, failing);
    var c := CheckComplete(w.redis, key, failing);
    if c.Ready? {
      assert c.chunks == Kept(w.redis, key, |c.chunks|);
      ReadySucceedsExactly(cfg, w, c.s, c.chunks, key, failing);
    }
  }

  lemma FinishGivesFile(cfg: Config, w: World, key: Key, failing: set<Call>, file: Bytes)
    requires Inv(cfg, w) && HoldsFile(w.redis, key, file) && CompleteUpload(cfg, w, key, failing).1.Ok?
    ensures var w' := CompleteUpload(cfg, w, key, failing).0;
            key in w'.s3.objects && w'.s3.objects[key] == file
  {
    FinishSucceedsExactly(cfg, w, key, failing);
    assert file[..|file|] == file;
  }

  lemma RunGivesFile(cfg: Config, now: int, acts: seq<Action>, key: Key, failing: set<Call>, file: Bytes)
    requires UniqueIds(acts) && Honest(cfg, acts, key, file)
    requires Succeeds(cfg, Run(cfg, Empty(now), acts), Finish(key, failing))
    ensures var w' := Apply(cfg, Run(cfg, Empty(now), acts), Finish(key, failing));
            key in w'.s3.objects && w'.s3.objects[key] == file
  {
    RunKeepsInv(cfg, now, acts);
    RunHoldsFile(cfg, now, acts, key, file);
    FinishGivesFile(cfg, Run(cfg, Empty(now), acts), key, failing, file);
  }

  /**
   * The round trip. Whatever else happens in a run — stale, repeated, oversized and failing PATCHes, other uploads,
   * retries, expiry — if the PATCHes that fit into the file carry the bytes of the file, then a completion that answers
   * leaves an object equal to the file, and it stays so.
   */
  lemma UploadedIsTheFile(cfg: Config, now: int, acts: seq<Action>, key: Key, failing: set<Call>, more: seq<Action>,
                          file: Bytes)
    requires UniqueIds((acts + [Finish(key, failing)]) + more) && Honest(cfg, acts, key, file)
    requires Succeeds(cfg, Run(cfg, Empty(now), acts), Finish(key, failing))
    ensures var later := Run(cfg, Empty(now), (acts + [Finish(key, failing)]) + more);
            key in later.s3.objects && later.s3.objects[key] == file
  {
    var finished := acts + [Finish(key, failing)];
    UniquePrefix(finished, more);
    UniquePrefix(acts, [Finish(key, failing)]);
    RunOne(cfg, Empty(now), acts, Finish(key, failing));
    RunGivesFile(cfg, now, acts, key, failing, file);
    RunGrows(cfg, now, finished, more);
  }

  // ---- The resume loop ----

  /** PATCH the rest of the file in pieces of at most `piece` bytes, from the offset that HEAD reported. */
  function ResumePlan(cfg: Config, key: Key, file: Bytes, offset: nat, piece: nat): seq<Action>
    requires offset <= |file| && 0 < piece
    decreases |file| - offset
  {
    if offset == |file| then []
    else
      var end := if offset + piece <= |file| then offset + piece else |file|;
      var data := file[offset..end];
      [Send(PatchRequest(key, offset, data, cfg.hash(data)), {})] + ResumePlan(cfg, key, file, end, piece)
  }

  predicate Resumable(w: World, key: Key, file: Bytes, offset: nat) {
    && key in w.redis.sessions && w.redis.sessions[key].value.status.Live()
    && w.redis.sessions[key].value.offset == offset && HoldsFile(w.redis, key, file)
  }

  /** What an accepted PATCH leaves alone, and by how much it moves the rest. */
  predicate OnePiece(r: RedisState, r': RedisState, key: Key, size: nat) {
    && key in r.sessions && key in r'.sessions && r'.dedup == r.dedup
    && var s, s' := r.sessions[key].value, r'.sessions[key].value;
       && s'.status.Live() && s'.offset == s.offset + size && s'.checksum == s.checksum
       && |s'.manifest| == |s.manifest| + 1
  }

  lemma AcceptedPiece(cfg: Config, r: RedisState, q: PatchRequest)
    requires KeyedRight(r) && ProcessChunk(cfg, r, q, {}).1.Ok?
    ensures OnePiece(r, ProcessChunk(cfg, r, q, {}).0, q.key, |q.data|)
  {
    ProcessChunkShape(cfg, r, q, {});
  }

  lemma PieceIsAccepted(cfg: Config, r: RedisState, q: PatchRequest, file: Bytes, offset: nat)
    requires SessionsOk(cfg, r) && HoldsFile(r, q.key, file)
    requires q.key in r.sessions && r.sessions[q.key].value.status.Live() && r.sessions[q.key].value.offset == offset
    requires 0 < |q.data| <= MAX_CHUNK_SIZE && offset + |q.data| <= |file| && q.data == file[offset..offset + |q.data|]
    requires q.offset == offset && q.checksum == cfg.hash(q.data)
    ensures ProcessChunk(cfg, r, q, {}).1.Ok?
    ensures OnePiece(r, ProcessChunk(cfg, r, q, {}).0, q.key, |q.data|)
  {
    KeyedRightAll(cfg, r);
    SendSucceedsExactly(cfg, r, q, {});
    AcceptedPiece(cfg, r, q);
  }

  lemma SendAdvancesPlan(cfg: Config, w: World, key: Key, file: Bytes, offset: nat, data: Bytes)
    requires Inv(cfg, w) && Resumable(w, key, file, offset)
    requires 0 < |data| <= MAX_CHUNK_SIZE && offset + |data| <= |file| && data == file[offset..offset + |data|]
    ensures var w' := Apply(cfg, w, Send(PatchRequest(key, offset, data, cfg.hash(data)), {}));
            && Inv(cfg, w') && Resumable(w', key, file, offset + |data|)
            && OnePiece(w.redis, w'.redis, key, |data|) && w' == w.(redis := w'.redis)
  {
    var q := PatchRequest(key, offset, data, cfg.hash(data));
    KeyedRightAll(cfg, w.redis);
    PieceIsAccepted(cfg, w.redis, q, file, offset);
    SendHoldsFile(cfg, w.redis, q, {}, file);
    StepKeepsInv(cfg, w, Send(q, {}));
  }

  /** When no call fails the resume loop reaches the end of the file, one manifest entry for each piece. */
  lemma {:induction false} ResumeReachesEnd(cfg: Config, w: World, key: Key, file: Bytes, offset: nat, piece: nat)
    requires Inv(cfg, w) && Resumable(w, key, file, offset)
    requires offset <= |file| && 0 < piece <= MAX_CHUNK_SIZE
    ensures var plan := ResumePlan(cfg, key, file, offset, piece);
            var w' := Run(cfg, w, plan);
            && Inv(cfg, w') && Resumable(w', key, file, |file|)
            && |w'.redis.sessions[key].value.manifest| == |w.redis.sessions[key].value.manifest| + |plan|
            && w' == w.(redis := w'.redis) && w'.redis.dedup == w.redis.dedup
            && w'.redis.sessions[key].value.checksum == w.redis.sessions[key].value.checksum
    decreases |file| - offset
  {
    if offset < |file| {
      var end := if offset + piece <= |file| then offset + piece else |file|;
      var data := file[offset..end];
      var first := [Send(PatchRequest(key, offset, data, cfg.hash(data)), {})];
      var rest := ResumePlan(cfg, key, file, end, piece);
      SendAdvancesPlan(cfg, w, key, file, offset, data);
      assert Run(cfg, w, first) == Apply(cfg, w, first[0]) by {
        assert first[..0] == [];
      }
      ResumeReachesEnd(cfg, Run(cfg, w, first), key, file, end, piece);
      RunAppend(cfg, w, first, rest);
    }
  }

  lemma ReceivedCompletes(cfg: Config, w: World, key: Key, file: Bytes)
    requires Inv(cfg, w) && Resumable(w, key, file, |file|) && |w.redis.sessions[key].value.manifest| <= MAX_PARTS
    requires w.redis.sessions[key].value.checksum == cfg.hash(file)
    requires key !in w.s3.objects && Fingerprint(key.ws, cfg.hash(file)) !in w.redis.dedup
    ensures Succeeds(cfg, w, Finish(key, {}))
    ensures var done := Apply(cfg, w, Finish(key, {}));
            key in done.s3.objects && done.s3.objects[key] == file
  {
    assert SessionOk(cfg, w.redis, key);
    assert file[..|file|] == file;
    FinishSucceedsExactly(cfg, w, key, {});
  }

  /**
   * An interrupted upload can always be finished: from any live session that holds the file up to its offset, resuming
   * and then completing succeeds and leaves the file, provided the digest is the file's, no object or fingerprint is in
   * the way, and the pieces fit into one multipart upload.
   */
  lemma ResumedUploadCompletes(cfg: Config, w: World, key: Key, file: Bytes, offset: nat, piece: nat)
    requires Inv(cfg, w) && Resumable(w, key, file, offset) && offset <= |file| && 0 < piece <= MAX_CHUNK_SIZE
    requires w.redis.sessions[key].value.checksum == cfg.hash(file)
    requires key !in w.s3.objects && Fingerprint(key.ws, cfg.hash(file)) !in w.redis.dedup
    requires |w.redis.sessions[key].value.manifest| + |ResumePlan(cfg, key, file, offset, piece)| <= MAX_PARTS
    ensures var received := Run(cfg, w, ResumePlan(cfg, key, file, offset, piece));
            && Succeeds(cfg, received, Finish(key, {}))
            && var done := Apply(cfg, received, Finish(key, {}));
               key in done.s3.objects && done.s3.objects[key] == file
  {
    ResumeReachesEnd(cfg, w, key, file, offset, piece);
    ReceivedCompletes(cfg, Run(cfg, w, ResumePlan(cfg, key, file, offset, piece)), key, file);
  }

  /** The same for a client that knows nothing but what HEAD answers: it takes the offset from there. */
  lemma HeadThenResume(cfg: Config, w: World, key: Key, file: Bytes, piece: nat)
    requires Inv(cfg, w) && HoldsFile(w.redis, key, file) && 0 < piece <= MAX_CHUNK_SIZE
    requires var (session, _) := Lookup(w.redis, key);
             && session.Some? && session.value.status.Live() && session.value.checksum == cfg.hash(file)
             && |session.value.manifest| + |ResumePlan(cfg, key, file, session.value.offset, piece)| <= MAX_PARTS
    requires key !in w.s3.objects && Fingerprint(key.ws, cfg.hash(file)) !in w.redis.dedup
    ensures var received := Run(cfg, w, ResumePlan(cfg, key, file, Lookup(w.redis, key).0.value.offset, piece));
            && Succeeds(cfg, received, Finish(key, {}))
            && var done := Apply(cfg, received, Finish(key, {}));
               key in done.s3.objects && done.s3.objects[key] == file
  {
    ResumedUploadCompletes(cfg, w, key, file, Lookup(w.redis, key).0.value.offset, piece);
  }
}
