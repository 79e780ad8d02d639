/** The invariant that ties a session record to the chunk bytes stored beside it, and why every operation keeps it. */
module Sessions {
  import opened Types
  import opened World
  import opened Entity
  import opened Manifest
  import opened RateLimiter
  import opened Protocol

  predicate WellFormed(s: Session) {
    && 0 < s.size <= MAX_FILE_SIZE
    && InOrder(s.manifest)
    && (forall i :: 0 <= i < |s.manifest| ==> s.manifest[i].size > 0)
    && Total(s.manifest) == s.offset <= s.size
    && s.expiresAt == s.createdAt + SESSION_TTL
    && (s.status == Pending ==> s.manifest == [])
    && (s.status == InProgress ==> s.manifest != [])
    && (s.status == Status.Complete ==> s.offset == s.size)
  }

  /** Chunk i of the session is stored, is what the manifest says, and outlives the session. */
  predicate ChunkBacked(cfg: Config, r: RedisState, key: Key, i: int)
    requires key in r.sessions && 0 <= i < |r.sessions[key].value.manifest|
  {
    var m := r.sessions[key].value.manifest[i];
    var c := ChunkKey(key, i);
    && c in r.chunks
    && |r.chunks[c].value| == m.size && cfg.hash(r.chunks[c].value) == m.checksum
    && r.sessions[key].deadline <= r.chunks[c].deadline
  }

  predicate Backed(cfg: Config, r: RedisState, key: Key)
    requires key in r.sessions
  {
    forall i :: 0 <= i < |r.sessions[key].value.manifest| ==> ChunkBacked(cfg, r, key, i)
  }

  /** At most one chunk is stored beyond the manifest, at the next index. */
  ghost predicate NoChunkBeyond(r: RedisState, key: Key, count: int) {
    forall c :: c in r.chunks && c.key == key ==> 0 <= c.index <= count
  }

  ghost predicate SessionOk(cfg: Config, r: RedisState, key: Key)
    requires key in r.sessions
  {
    var Timed(s, deadline) := r.sessions[key];
    && s.key == key
    && WellFormed(s)
    && s.createdAt <= r.now < deadline == s.expiresAt
    && (s.status.Live() ==> Backed(cfg, r, key) && NoChunkBeyond(r, key, |s.manifest|))
  }

  ghost predicate SessionsOk(cfg: Config, r: RedisState) {
    forall key :: key in r.sessions ==> SessionOk(cfg, r, key)
  }

  // ---- Each command keeps the invariant ----

  /** Counters and fingerprints play no part in it. */
  lemma OtherFieldsKeep(cfg: Config, r: RedisState, r': RedisState)
    requires SessionsOk(cfg, r)
    requires r'.now == r.now && r'.sessions == r.sessions && r'.chunks == r.chunks
    ensures SessionsOk(cfg, r')
  {
    forall key | key in r'.sessions ensures SessionOk(cfg, r', key) {
      assert SessionOk(cfg, r, key);
      forall i | 0 <= i < |r.sessions[key].value.manifest| && Backed(cfg, r, key) ensures ChunkBacked(cfg, r', key, i) {
        assert ChunkBacked(cfg, r, key, i);
      }
    }
  }

  lemma CreateKeeps(cfg: Config, r: RedisState, key: Key, q: UploadRequest)
    requires SessionsOk(cfg, r)
    requires CheckRequest(q) == None
    requires forall c :: c in r.chunks ==> c.key != key
    ensures SessionsOk(cfg, r.CreateSession(NewSession(key, q, r.now)))
  {
    var r' := r.CreateSession(NewSession(key, q, r.now));
    forall k | k in r'.sessions ensures SessionOk(cfg, r', k) {
      if k != key {
        assert SessionOk(cfg, r, k);
        KeyUntouched(cfg, r, r', k);
      }
    }
  }

  lemma KeyUntouched(cfg: Config, r: RedisState, r': RedisState, key: Key)
    requires key in r.sessions && SessionOk(cfg, r, key)
    requires key in r'.sessions && r'.sessions[key] == r.sessions[key] && r.now <= r'.now < r.sessions[key].deadline
    requires forall c: ChunkKey :: c.key == key ==>
               && (c in r'.chunks ==> c in r.chunks)
               && (c in r.chunks && r.sessions[key].deadline <= r.chunks[c].deadline ==>
                     c in r'.chunks && r'.chunks[c] == r.chunks[c])
    ensures SessionOk(cfg, r', key)
  {
    if r.sessions[key].value.status.Live() {
      forall i | 0 <= i < |r.sessions[key].value.manifest| ensures ChunkBacked(cfg, r', key, i) {
        assert ChunkBacked(cfg, r, key, i);
      }
    }
  }

  /** A chunk stored at the next index, or stored there again, leaves the manifest's own chunks alone. */
  lemma SetChunkKeeps(cfg: Config, r: RedisState, key: Key, data: Bytes)
    requires SessionsOk(cfg, r)
    requires key in r.sessions
    ensures SessionsOk(cfg, r.SetChunk(key, |r.sessions[key].value.manifest|, data))
  {
    var n := |r.sessions[key].value.manifest|;
    var r' := r.SetChunk(key, n, data);
    forall k | k in r'.sessions ensures SessionOk(cfg, r', k) {
      assert SessionOk(cfg, r, k);
      if k != key {
        KeyUntouched(cfg, r, r', k);
      } else if r.sessions[k].value.status.Live() {
        forall i | 0 <= i < n ensures ChunkBacked(cfg, r', k, i) {
          assert ChunkBacked(cfg, r, k, i);
        }
      }
    }
  }

  /** Ending a session needs nothing from the chunks. */
  lemma EndKeeps(cfg: Config, r: RedisState, key: Key, status: Status)
    requires SessionsOk(cfg, r)
    requires key in r.sessions && !status.Live()
    requires status == Status.Complete ==> r.sessions[key].value.offset == r.sessions[key].value.size
    ensures SessionsOk(cfg, r.PutSession(r.sessions[key].value.(status := status)))
  {
    assert SessionOk(cfg, r, key);
    var r' := r.PutSession(r.sessions[key].value.(status := status));
    forall k | k in r'.sessions ensures SessionOk(cfg, r', k) {
      assert SessionOk(cfg, r, k);
      if k != key {
        KeyUntouched(cfg, r, r', k);
      }
    }
  }

  lemma AppendedWellFormed(s: Session, size: int, checksum: string)
    requires WellFormed(s) && s.status.Live() && Appended(s, size, checksum).Some?
    ensures var s' := Appended(s, size, checksum).value;
            && WellFormed(s')
            && s' == s.(manifest := s.manifest + [ChunkMeta(|s.manifest|, size, checksum)],
                        offset := s.offset + size, status := InProgress)
  {
    TotalAppend(s.manifest, ChunkMeta(|s.manifest|, size, checksum));
  }

  lemma AppendedOk(cfg: Config, r: RedisState, key: Key, m: ChunkMeta, s': Session)
    requires key in r.sessions && SessionOk(cfg, r, key) && r.sessions[key].value.status.Live()
    requires var s := r.sessions[key].value;
             var c := ChunkKey(key, |s.manifest|);
             && WellFormed(s') && s' == s.(manifest := s.manifest + [m], offset := s'.offset, status := InProgress)
             && c in r.chunks && m.size == |r.chunks[c].value| && m.checksum == cfg.hash(r.chunks[c].value)
             && r.chunks[c].deadline == r.now + SESSION_TTL
    ensures SessionOk(cfg, r.PutSession(s'), key)
  {
    var n, r' := |r.sessions[key].value.manifest|, r.PutSession(s');
    forall i | 0 <= i < n + 1 ensures ChunkBacked(cfg, r', key, i) {
      if i < n {
        assert ChunkBacked(cfg, r, key, i);
      }
    }
  }

  lemma AppendKeeps(cfg: Config, r: RedisState, key: Key, data: Bytes, checksum: string)
    requires SessionsOk(cfg, r)
    requires key in r.sessions && r.sessions[key].value.status.Live()
    requires cfg.hash(data) == checksum
    requires var c := ChunkKey(key, |r.sessions[key].value.manifest|);
             c in r.chunks && r.chunks[c] == Timed(data, r.now + SESSION_TTL)
    requires Appended(r.sessions[key].value, |data|, checksum).Some?
    ensures SessionsOk(cfg, r.PutSession(Appended(r.sessions[key].value, |data|, checksum).value))
  {
    var s := r.sessions[key].value;
    assert SessionOk(cfg, r, key);
    AppendedWellFormed(s, |data|, checksum);
    AppendedOk(cfg, r, key, ChunkMeta(|s.manifest|, |data|, checksum), Appended(s, |data|, checksum).value);
    PutKeeps(cfg, r, Appended(s, |data|, checksum).value);
  }

  /** Writing one record leaves the other sessions in step with their chunks. */
  lemma PutKeeps(cfg: Config, r: RedisState, s: Session)
    requires SessionsOk(cfg, r)
    requires s.key in r.sessions && SessionOk(cfg, r.PutSession(s), s.key)
    ensures SessionsOk(cfg, r.PutSession(s))
  {
    var r' := r.PutSession(s);
    forall k | k in r'.sessions ensures SessionOk(cfg, r', k) {
      if k != s.key {
        assert SessionOk(cfg, r, k);
        KeyUntouched(cfg, r, r', k);
      }
    }
  }

  lemma DeleteKeeps(cfg: Config, r: RedisState, key: Key)
    requires SessionsOk(cfg, r)
    ensures SessionsOk(cfg, r.DeleteSession(key))
  {
    var r' := r.DeleteSession(key);
    forall k | k in r'.sessions ensures SessionOk(cfg, r', k) {
      assert SessionOk(cfg, r, k);
      KeyUntouched(cfg, r, r', k);
    }
  }

  lemma CleanupKeeps(cfg: Config, r: RedisState, key: Key, manifest: seq<ChunkMeta>, failing: set<Call>)
    requires SessionsOk(cfg, r)
    requires key in r.sessions && !r.sessions[key].value.status.Live()
    ensures SessionsOk(cfg, r.DeleteChunks(key, manifest, failing))
  {
    var r' := r.DeleteChunks(key, manifest, failing);
    forall k | k in r'.sessions ensures SessionOk(cfg, r', k) {
      assert SessionOk(cfg, r, k);
      if k != key {
        KeyUntouched(cfg, r, r', k);
      }
    }
  }

  lemma TickKeeps(cfg: Config, r: RedisState, seconds: nat)
    requires SessionsOk(cfg, r)
    ensures SessionsOk(cfg, r.Tick(seconds))
  {
    var r' := r.Tick(seconds);
    forall k | k in r'.sessions ensures SessionOk(cfg, r', k) {
      assert SessionOk(cfg, r, k);
      KeyUntouched(cfg, r, r', k);
    }
  }

  // ---- Each operation keeps the invariant ----

  lemma OpenShape(r: RedisState, s: Session, failing: set<Call>)
    ensures var (r', answer) := OpenSession(r, s, failing);
            if answer.Ok? then s.mime == PDF && r' == r.CreateSession(s) else r' == r.(counters := r'.counters)
  {
  }

  lemma StartedShape(cfg: Config, r: RedisState, key: Key, q: UploadRequest, failing: set<Call>)
    requires InitiateUpload(cfg, r, key, q, failing).1.Ok?
    ensures CheckRequest(q) == None && q.mime == PDF
    ensures InitiateUpload(cfg, r, key, q, failing).0
         == TakeSlot(cfg.limit, r, key.ws, failing).0.CreateSession(NewSession(key, q, r.now))
  {
  }

  lemma NotStartedShape(cfg: Config, r: RedisState, key: Key, q: UploadRequest, failing: set<Call>)
    requires InitiateUpload(cfg, r, key, q, failing).1.Err?
    ensures var r' := InitiateUpload(cfg, r, key, q, failing).0;
            r' == r.(counters := r'.counters)
  {
    var (taken, slot) := TakeSlot(cfg.limit, r, key.ws, failing);
    assert taken == r.(counters := taken.counters);
    if CheckRequest(q) == None && slot.Ok? {
      OpenShape(taken, NewSession(key, q, r.now), failing);
    }
  }

  /** Apart from the counter, an initiate either changes nothing or writes one new session record. */
  lemma InitiateShape(cfg: Config, r: RedisState, key: Key, q: UploadRequest, failing: set<Call>)
    ensures var (r', answer) := InitiateUpload(cfg, r, key, q, failing);
            if answer.Ok? then CheckRequest(q) == None && q.mime == PDF
                               && r' == r.CreateSession(NewSession(key, q, r.now)).(counters := r'.counters)
            else r' == r.(counters := r'.counters)
  {
    if InitiateUpload(cfg, r, key, q, failing).1.Ok? {
      StartedShape(cfg, r, key, q, failing);
    } else {
      NotStartedShape(cfg, r, key, q, failing);
    }
  }

  lemma InitiateKeeps(cfg: Config, r: RedisState, key: Key, q: UploadRequest, failing: set<Call>)
    requires SessionsOk(cfg, r)
    requires forall c :: c in r.chunks ==> c.key != key
    ensures SessionsOk(cfg, InitiateUpload(cfg, r, key, q, failing).0)
  {
    var (r', answer) := InitiateUpload(cfg, r, key, q, failing);
    InitiateShape(cfg, r, key, q, failing);
    if answer.Ok? {
      CreateKeeps(cfg, r, key, q);
      OtherFieldsKeep(cfg, r.CreateSession(NewSession(key, q, r.now)), r');
    } else {
      OtherFieldsKeep(cfg, r, r');
    }
  }

  /** Nothing, or the chunk alone, or the chunk and then the record. */
  lemma ProcessChunkStages(cfg: Config, r: RedisState, q: PatchRequest, failing: set<Call>)
    requires q.key in r.sessions ==> r.sessions[q.key].value.key == q.key
    ensures var r' := ProcessChunk(cfg, r, q, failing).0;
            r' == r ||
            (q.key in r.sessions &&
             var s := r.sessions[q.key].value;
             var kept := r.SetChunk(q.key, |s.manifest|, q.data);
             && s.status.Live() && cfg.hash(q.data) == q.checksum
             && (r' == kept ||
                 (Appended(s, |q.data|, q.checksum).Some? &&
                  r' == kept.PutSession(Appended(s, |q.data|, q.checksum).value))))
  {
  }

  /** The offset check, the bytes stored first and the record written last together keep session and chunks in step. */
  lemma ProcessChunkKeeps(cfg: Config, r: RedisState, q: PatchRequest, failing: set<Call>)
    requires SessionsOk(cfg, r)
    ensures SessionsOk(cfg, ProcessChunk(cfg, r, q, failing).0)
  {
    var r' := ProcessChunk(cfg, r, q, failing).0;
    assert q.key in r.sessions ==> SessionOk(cfg, r, q.key);
    ProcessChunkStages(cfg, r, q, failing);
    if r' != r {
      StoredThenWritten(cfg, r, r', q);
    }
  }

  lemma StoredThenWritten(cfg: Config, r: RedisState, r': RedisState, q: PatchRequest)
    requires SessionsOk(cfg, r) && q.key in r.sessions
    requires var s := r.sessions[q.key].value;
             var kept := r.SetChunk(q.key, |s.manifest|, q.data);
             && s.status.Live() && cfg.hash(q.data) == q.checksum
             && (r' == kept ||
                 (Appended(s, |q.data|, q.checksum).Some? &&
                  r' == kept.PutSession(Appended(s, |q.data|, q.checksum).value)))
    ensures SessionsOk(cfg, r')
  {
    var s := r.sessions[q.key].value;
    var kept := r.SetChunk(q.key, |s.manifest|, q.data);
    SetChunkKeeps(cfg, r, q.key, q.data);
    if r' != kept {
      AppendKeeps(cfg, kept, q.key, q.data, q.checksum);
    }
  }

  lemma AbortKeeps(cfg: Config, r: RedisState, key: Key, failing: set<Call>)
    requires SessionsOk(cfg, r)
    ensures SessionsOk(cfg, AbortUpload(r, key, failing).0)
  {
    if GetSession !in failing && key in r.sessions {
      var s := r.sessions[key].value;
      assert SessionOk(cfg, r, key);
      if s.status.Live() && WriteAborted !in failing {
        var marked := r.PutSession(s.(status := Aborted));
        EndKeeps(cfg, r, key, Aborted);
        DeleteKeeps(cfg, marked, key);
        var deleted := marked.DeleteSession(key);
        OtherFieldsKeep(cfg, deleted, FreeSlot(deleted, key.ws, failing).0);
      }
    }
  }

  // ---- Reading the chunks back ----

  predicate SomeReadFails(count: nat, failing: set<Call>) {
    exists i :: 0 <= i < count && ReadChunk(i) in failing
  }

  /** Entry i is the first of the list whose chunk cannot be had. */
  predicate StopsAt(r: RedisState, key: Key, manifest: seq<ChunkMeta>, failing: set<Call>, i: int) {
    && 0 <= i < |manifest|
    && (forall j :: 0 <= j < i ==>
          ReadChunk(manifest[j].index) !in failing && ChunkKey(key, manifest[j].index) in r.chunks)
    && (ReadChunk(manifest[i].index) in failing || ChunkKey(key, manifest[i].index) !in r.chunks)
  }

  ghost predicate StopsWith(r: RedisState, key: Key, manifest: seq<ChunkMeta>, failing: set<Call>, e: Error) {
    exists i :: StopsAt(r, key, manifest, failing, i) &&
      e == if ReadChunk(manifest[i].index) in failing then InfrastructureError else InvalidSessionState
  }

  lemma StopsLater(r: RedisState, key: Key, manifest: seq<ChunkMeta>, n: nat, failing: set<Call>, e: Error)
    requires n <= |manifest| && StopsWith(r, key, manifest[..n], failing, e)
    ensures StopsWith(r, key, manifest, failing, e)
  {
    var init := manifest[..n];
    var i :| StopsAt(r, key, init, failing, i) &&
             e == if ReadChunk(init[i].index) in failing then InfrastructureError else InvalidSessionState;
    assert StopsAt(r, key, manifest, failing, i);
  }

  predicate AllRead(r: RedisState, key: Key, manifest: seq<ChunkMeta>, failing: set<Call>, chunks: seq<Bytes>) {
    && |chunks| == |manifest|
    && forall i :: 0 <= i < |manifest| ==>
         && ReadChunk(manifest[i].index) !in failing && ChunkKey(key, manifest[i].index) in r.chunks
         && chunks[i] == r.chunks[ChunkKey(key, manifest[i].index)].value
  }

  /**
   * The retrieval in any state: all the listed chunks in list order, or the error of the first entry whose chunk cannot
   * be had, which depends on whether the read raised or the chunk is missing.
   */
  lemma {:induction false} RetrieveExactly(r: RedisState, key: Key, manifest: seq<ChunkMeta>, failing: set<Call>)
    ensures match Retrieve(r, key, manifest, failing)
            case Err(e) => StopsWith(r, key, manifest, failing, e)
            case Ok(chunks) => AllRead(r, key, manifest, failing, chunks)
  {
    if manifest != [] {
      var n := |manifest| - 1;
      RetrieveExactly(r, key, manifest[..n], failing);
      var before := Retrieve(r, key, manifest[..n], failing);
      if before.Err? {
        StopsLater(r, key, manifest, n, failing, before.error);
      } else if ReadChunk(manifest[n].index) in failing || ChunkKey(key, manifest[n].index) !in r.chunks {
        assert StopsAt(r, key, manifest, failing, n);
      }
    }
  }

  predicate KeptAsListed(r: RedisState, key: Key, m: ChunkMeta) {
    var c := ChunkKey(key, m.index);
    c in r.chunks && |r.chunks[c].value| == m.size
  }

  lemma {:induction false} RetrieveStored(r: RedisState, key: Key, manifest: seq<ChunkMeta>, failing: set<Call>)
    requires InOrder(manifest)
    requires forall i :: 0 <= i < |manifest| ==> KeptAsListed(r, key, manifest[i])
    ensures var chunks := Retrieve(r, key, manifest, failing);
            if SomeReadFails(|manifest|, failing) then chunks == Err(InfrastructureError)
            else && chunks.Ok? && |chunks.value| == |manifest|
                 && |Concat(chunks.value)| == Total(manifest)
                 && forall i :: 0 <= i < |manifest| ==>
                      ChunkKey(key, i) in r.chunks && chunks.value[i] == r.chunks[ChunkKey(key, i)].value
  {
    if manifest != [] {
      var n := |manifest| - 1;
      var init := manifest[..n];
      assert manifest[n].index == n && KeptAsListed(r, key, manifest[n]);
      RetrieveStored(r, key, init, failing);
      assert SomeReadFails(n, failing) ==> SomeReadFails(n + 1, failing);
      if ReadChunk(n) in failing {
        assert SomeReadFails(n + 1, failing);
      } else if !SomeReadFails(n, failing) {
        var before := Retrieve(r, key, init, failing).value;
        ConcatAppend(before, r.chunks[ChunkKey(key, n)].value);
      }
    }
  }

  predicate Retrieved(r: RedisState, key: Key, chunks: seq<Bytes>) {
    forall i :: 0 <= i < |chunks| ==>
      && ChunkKey(key, i) in r.chunks && chunks[i] == r.chunks[ChunkKey(key, i)].value
      && |chunks[i]| > 0
  }

  lemma LiveIsKept(cfg: Config, r: RedisState, key: Key)
    requires key in r.sessions && SessionOk(cfg, r, key) && r.sessions[key].value.status.Live()
    ensures forall i :: 0 <= i < |r.sessions[key].value.manifest| ==>
              KeptAsListed(r, key, r.sessions[key].value.manifest[i])
  {
    var manifest := r.sessions[key].value.manifest;
    forall i | 0 <= i < |manifest| ensures KeptAsListed(r, key, manifest[i]) {
      assert ChunkBacked(cfg, r, key, i);
    }
  }

  lemma LiveRetrieves(r: RedisState, key: Key, manifest: seq<ChunkMeta>, failing: set<Call>)
    requires InOrder(manifest)
    requires forall i :: 0 <= i < |manifest| ==> KeptAsListed(r, key, manifest[i]) && manifest[i].size > 0
    ensures var chunks := Retrieve(r, key, manifest, failing);
            if SomeReadFails(|manifest|, failing) then chunks == Err(InfrastructureError)
            else && chunks.Ok? && |chunks.value| == |manifest| && |Concat(chunks.value)| == Total(manifest)
                 && Retrieved(r, key, chunks.value)
  {
    RetrieveStored(r, key, manifest, failing);
    forall i | 0 <= i < |manifest|
      ensures ChunkKey(key, i) in r.chunks && |r.chunks[ChunkKey(key, i)].value| == manifest[i].size
    {
      assert KeptAsListed(r, key, manifest[i]);
    }
  }

  /**
   * For a live session the retrieval loop fails only when a read does: no chunk is ever missing. Otherwise it returns
   * the stored chunks in index order, none of them empty, and together they are as long as the session's offset.
   */
  lemma RetrieveLive(cfg: Config, r: RedisState, key: Key, failing: set<Call>)
    requires SessionsOk(cfg, r)
    requires key in r.sessions && r.sessions[key].value.status.Live()
    ensures var s := r.sessions[key].value;
            var chunks := Retrieve(r, key, SortByIndex(s.manifest), failing);
            && (IsComplete(s.manifest, s.size) <==> s.manifest != [] && s.offset == s.size)
            && if SomeReadFails(|s.manifest|, failing) then chunks == Err(InfrastructureError)
               else && chunks.Ok? && |chunks.value| == |s.manifest| && |Concat(chunks.value)| == s.offset
                    && Retrieved(r, key, chunks.value)
  {
    assert SessionOk(cfg, r, key);
    var s := r.sessions[key].value;
    InOrderIsSorted(s.manifest);
    InOrderIsComplete(s.manifest, s.size);
    LiveIsKept(cfg, r, key);
    LiveRetrieves(r, key, s.manifest, failing);
  }

  /** When exactly a completion gets as far as the assembly, and with what. */
  lemma CheckCompleteOutcome(cfg: Config, r: RedisState, key: Key, failing: set<Call>)
    requires SessionsOk(cfg, r)
    ensures var c := CheckComplete(r, key, failing);
            if GetSession in failing then c == Refused(InfrastructureError)
            else if key !in r.sessions then c == Refused(SessionNotFound)
            else
              var s := r.sessions[key].value;
              && s.key == key && 0 < s.size <= MAX_FILE_SIZE
              && if s.status != InProgress || s.offset != s.size then c == Refused(InvalidSessionState)
                 else if SomeReadFails(|s.manifest|, failing) then c == Broken(s, InfrastructureError)
                 else c.Ready? && c.s == s && |c.chunks| == |s.manifest| > 0 && |Concat(c.chunks)| == s.size
                      && Retrieved(r, key, c.chunks)
  {
    if key in r.sessions {
      assert SessionOk(cfg, r, key);
      if r.sessions[key].value.status == InProgress {
        RetrieveLive(cfg, r, key, failing);
      }
    }
  }
}
