/**
 * One upload session with the Redis commands of its requests interleaved: any number of chunk requests, aborts and
 * completions, each paused between any two commands, writing back records it read long ago.
 */
module WriterInterleaving {
  import opened Types
  import opened World
  import opened Manifest
  import opened Storage
  import opened Protocol

  /** Where a request stands between two commands. */
  datatype Task =
    | Verified(s: Session, q: PatchRequest)       // PATCH: HGETALL gave s and every check passed; SET chunk is next
    // s is the record to write; TTL is next. A completion whose publish raised writes FAILED again after that.
    | Prepared(s: Session, again: bool := false)
    | Confirmed(s: Session, again: bool := false) // TTL found the key; HSET is next
    | Deleting                                    // abort: ABORTED is written; DEL is next
    | Freeing                                     // the record is deleted or says COMPLETE; HINCRBY -1 is next
    | Reading(s: Session, chunks: seq<Bytes>)     // complete: these chunks are read; GET of the next one, or HEAD
    | Uploading(s: Session, data: Bytes)          // complete: HEAD found no object; the object is put next
    | Uploaded(s: Session)                        // complete: the object is there and its digest fits; publish is next

  /**
   * Redis, S3 and the publisher as far as they concern this session. `timed` says whether the session key has a TTL;
   * `calls` and `delivered` count publish calls and their successes, `freed` the slots that were given back.
   */
  datatype State = State(
    record: Option<Session>,
    timed: bool,
    chunks: map<int, Bytes>,
    uploaded: Option<Bytes>,
    calls: nat,
    delivered: nat,
    freed: nat,
    tasks: map<nat, Task>)

  datatype Command =
    | LoadToSend(p: nat, q: PatchRequest)
    | LoadToAbort(p: nat)
    | LoadToComplete(p: nat)
    | StoreChunk(p: nat)
    | ReadNext(p: nat)
    | Head(p: nat)        // the existence check
    | Upload(p: nat)      // the assembled bytes become the object; a digest mismatch deletes them again
    | Publish(p: nat, ok: bool)
    | GiveUp(p: nat)      // complete: a call raised, or a duplicate was found; FAILED is to be written
    | Confirm(p: nat)
    | Write(p: nat)
    | Delete(p: nat)
    | Free(p: nat)
    | Raise(p: nat)       // the request ends with an error
    | Expire              // the session key expires, if it has a TTL
    | DropChunk(index: int) // a chunk key expires, or the clean-up of a completion deletes it

  function Put(s: State, p: nat, t: Task): State {
    s.(tasks := s.tasks[p := t])
  }

  function Ended(s: State, p: nat): State {
    s.(tasks := s.tasks - {p})
  }

  /** A new request reads the record; what it decides from the record alone happens before its next command. */
  function Load(cfg: Config, s: State, c: Command): State
    requires Starts(c)
  {
    if c.p in s.tasks || s.record.None? then s
    else
      var r := s.record.value;
      match c
      case LoadToSend(p, q) => if CheckPatch(cfg, r, q).None? then Put(s, p, Verified(r, q)) else s
      case LoadToAbort(p) => if r.status.Live() then Put(s, p, Prepared(r.(status := Aborted))) else s
      case LoadToComplete(p) =>
        if r.status == InProgress && IsComplete(r.manifest, r.size) && r.offset == r.size
        then Put(s, p, Reading(r, []))
        else s
  }

  function AfterStore(s: State, p: nat, r: Session, q: PatchRequest): State {
    var kept := s.(chunks := s.chunks[|r.manifest| := q.data]);
    match Appended(r, |q.data|, q.checksum)
    case None => Ended(kept, p)
    case Some(r') => Put(kept, p, Prepared(r'))
  }

  function AfterRead(s: State, p: nat, r: Session, chunks: seq<Bytes>): State {
    var sorted := SortByIndex(r.manifest);
    if |chunks| >= |sorted| then s
    else if sorted[|chunks|].index !in s.chunks then Ended(s, p)
    else Put(s, p, Reading(r, chunks + [s.chunks[sorted[|chunks|].index]]))
  }

  /** HEAD comes when every chunk is read; an object that is there already fails the completion. */
  function AfterHead(s: State, p: nat, r: Session, chunks: seq<Bytes>): State {
    if |chunks| < |SortByIndex(r.manifest)| then s
    else if !ChunksAllowed(chunks) || s.uploaded.Some? then Put(s, p, Prepared(r.(status := Failed)))
    else Put(s, p, Uploading(r, Concat(chunks)))
  }

  /** The upload replaces whatever another request may have put since HEAD. */
  function AfterUpload(cfg: Config, s: State, p: nat, r: Session, data: Bytes): State {
    if cfg.hash(data) != r.checksum then Put(s.(uploaded := None), p, Prepared(r.(status := Failed)))
    else Put(s.(uploaded := Some(data)), p, Uploaded(r))
  }

  function AfterPublish(s: State, p: nat, r: Session, ok: bool): State {
    Put(s.(calls := s.calls + 1, delivered := s.delivered + if ok then 1 else 0), p,
        if ok then Prepared(r.(status := Complete)) else Prepared(r.(status := Failed), true))
  }

  /** HSET on a missing key creates it, without a TTL. The slot is given back after ABORTED and after COMPLETE. */
  function AfterWrite(s: State, p: nat, r: Session, again: bool): State {
    var s' := s.(record := Some(r), timed := s.record.Some? && s.timed);
    if again then Put(s', p, Prepared(r))
    else if r.status == Aborted then Put(s', p, Deleting)
    else if r.status == Complete then Put(s', p, Freeing)
    else Ended(s', p)
  }

  /** A completion that cannot announce or write COMPLETE tries to write FAILED instead. */
  function Recovered(s: State, p: nat, r: Session): State {
    if r.status == Complete || r.status == Failed then Put(s, p, Prepared(r.(status := Failed))) else s
  }

  predicate Starts(c: Command) {
    c.LoadToSend? || c.LoadToAbort? || c.LoadToComplete?
  }

  predicate Continues(c: Command) {
    !Starts(c) && !c.Expire? && !c.DropChunk?
  }

  /** The next command of a request that stands at t; any other command does not come next, and changes nothing. */
  function Continue(cfg: Config, s: State, c: Command, t: Task): State
    requires Continues(c)
  {
    if c.Raise? then Ended(s, c.p)
    else
      match t
      case Verified(r, q) => if c.StoreChunk? then AfterStore(s, c.p, r, q) else s
      case Prepared(r, again) =>
        if c.GiveUp? then Recovered(s, c.p, r)
        else if !c.Confirm? then s
        else if s.record.None? then Ended(s, c.p)
        else Put(s, c.p, Confirmed(r, again))
      case Confirmed(r, again) =>
        if c.GiveUp? then Recovered(s, c.p, r)
        else if c.Write? then AfterWrite(s, c.p, r, again)
        else s
      case Deleting => if c.Delete? then Put(s.(record := None), c.p, Freeing) else s
      case Freeing => if c.Free? then Ended(s.(freed := s.freed + 1), c.p) else s
      case Reading(r, chunks) =>
        if c.ReadNext? then AfterRead(s, c.p, r, chunks)
        else if c.Head? then AfterHead(s, c.p, r, chunks)
        else if c.GiveUp? then Put(s, c.p, Prepared(r.(status := Failed)))
        else s
      case Uploading(r, data) =>
        if c.Upload? then AfterUpload(cfg, s, c.p, r, data)
        else if c.GiveUp? then Put(s, c.p, Prepared(r.(status := Failed)))
        else s
      case Uploaded(r) =>
        if c.Publish? then AfterPublish(s, c.p, r, c.ok)
        else if c.GiveUp? then Put(s, c.p, Prepared(r.(status := Failed)))
        else s
  }

  function Exec(cfg: Config, s: State, c: Command): State {
    if c.Expire? then (if s.timed then s.(record := None) else s)
    else if c.DropChunk? then s.(chunks := s.chunks - {c.index})
    else if Starts(c) then Load(cfg, s, c)
    else if c.p in s.tasks then Continue(cfg, s, c, s.tasks[c.p])
    else s
  }

  function RunAll(cfg: Config, s: State, commands: seq<Command>): State {
    if commands == [] then s
    else Exec(cfg, RunAll(cfg, s, commands[..|commands| - 1]), commands[|commands| - 1])
  }

  lemma {:induction false} RunAppend(cfg: Config, s: State, first: seq<Command>, second: seq<Command>)
    ensures RunAll(cfg, s, first + second) == RunAll(cfg, RunAll(cfg, s, first), second)
  {
    if second == [] {
      assert first + second == first;
    } else {
      var init := second[..|second| - 1];
      RunAppend(cfg, s, first, init);
      assert (first + second)[..|first + second| - 1] == first + init;
    }
  }

  lemma RunOne(cfg: Config, s: State, c: Command)
    ensures RunAll(cfg, s, [c]) == Exec(cfg, s, c)
  {
    assert [c][..0] == [];
  }

  lemma RunTwo(cfg: Config, s: State, a: Command, b: Command)
    ensures RunAll(cfg, s, [a, b]) == Exec(cfg, Exec(cfg, s, a), b)
  {
    assert [a, b] == [a] + [b];
    RunAppend(cfg, s, [a], [b]);
    RunOne(cfg, s, a);
    RunOne(cfg, Exec(cfg, s, a), b);
  }

  // ---- The file and its chunks ----

  /** Where chunk n begins. */
  function Boundary(parts: seq<Bytes>, n: nat): nat
    requires n <= |parts|
  {
    |Concat(parts[..n])|
  }

  predicate NoneEmpty(parts: seq<Bytes>) {
    forall i :: 0 <= i < |parts| ==> |parts[i]| > 0
  }

  lemma NextBoundary(parts: seq<Bytes>, n: nat)
    requires n < |parts|
    ensures Boundary(parts, n + 1) == Boundary(parts, n) + |parts[n]|
  {
    assert parts[..n + 1] == parts[..n] + [parts[n]];
    ConcatAppend(parts[..n], parts[n]);
  }

  /** A boundary tells which chunk begins there. */
  lemma {:induction false} BoundariesRise(parts: seq<Bytes>, m: nat, n: nat)
    requires NoneEmpty(parts) && m < n <= |parts|
    ensures Boundary(parts, m) < Boundary(parts, n)
  {
    NextBoundary(parts, n - 1);
    if m < n - 1 {
      BoundariesRise(parts, m, n - 1);
    }
  }

  /** The session was created for this file: nothing is sent yet, and size and digest are those of the file. */
  predicate CreatedFor(cfg: Config, start: Session, parts: seq<Bytes>) {
    && NoneEmpty(parts)
    && start.status == Pending && start.offset == 0 && start.manifest == []
    && start.size == |Concat(parts)| && start.checksum == cfg.hash(Concat(parts))
  }

  /**
   * What the client sends from where a chunk begins is that chunk, unless it was damaged on the way. What it sends from
   * anywhere else, the end of the file included, may be anything.
   */
  predicate HonestRequest(cfg: Config, parts: seq<Bytes>, q: PatchRequest) {
    cfg.hash(q.data) == q.checksum ==>
      forall i :: 0 <= i < |parts| && q.offset == Boundary(parts, i) ==> q.data == parts[i]
  }

  predicate IsPart(parts: seq<Bytes>, q: PatchRequest, i: int) {
    0 <= i < |parts| && q.offset == Boundary(parts, i) && q.data == parts[i]
  }

  predicate HonestCommands(cfg: Config, parts: seq<Bytes>, commands: seq<Command>) {
    forall c :: c in commands && c.LoadToSend? ==> HonestRequest(cfg, parts, c.q)
  }

  // ---- The invariant ----

  predicate Lists(cfg: Config, parts: seq<Bytes>, manifest: seq<ChunkMeta>) {
    && |manifest| <= |parts|
    && forall i :: 0 <= i < |manifest| ==> manifest[i] == ChunkMeta(i, |parts[i]|, cfg.hash(parts[i]))
  }

  /** A record of the session that lists the first chunks of the file and whose offset is where the next one begins. */
  predicate OnFile(cfg: Config, start: Session, parts: seq<Bytes>, s: Session) {
    && s == start.(offset := s.offset, manifest := s.manifest, status := s.status)
    && Lists(cfg, parts, s.manifest)
    && s.offset == Boundary(parts, |s.manifest|)
  }

  predicate RecordOk(cfg: Config, start: Session, parts: seq<Bytes>, s: State, r: Session) {
    && OnFile(cfg, start, parts, r)
    && (r.status == Complete ==> s.uploaded == Some(Concat(parts)) && s.delivered >= 1)
  }

  predicate TaskOk(cfg: Config, start: Session, parts: seq<Bytes>, s: State, t: Task) {
    match t
    case Verified(r, q) =>
      && OnFile(cfg, start, parts, r) && r.status.Live() && CheckPatch(cfg, r, q).None?
      && (|r.manifest| < |parts| ==> IsPart(parts, q, |r.manifest|))
    case Prepared(r, _) => RecordOk(cfg, start, parts, s, r)
    case Confirmed(r, _) => RecordOk(cfg, start, parts, s, r)
    case Deleting => true
    case Freeing => true
    case Reading(r, chunks) =>
      OnFile(cfg, start, parts, r) && r.status == InProgress && |r.manifest| == |parts| && chunks <= parts
    case Uploading(r, data) => OnFile(cfg, start, parts, r) && r.status == InProgress && data == Concat(parts)
    case Uploaded(r) => OnFile(cfg, start, parts, r) && r.status == InProgress && s.uploaded == Some(Concat(parts))
  }

  predicate OnlyParts(parts: seq<Bytes>, chunks: map<int, Bytes>) {
    forall i :: i in chunks ==> 0 <= i <= |parts| && (i < |parts| ==> chunks[i] == parts[i])
  }

  predicate Consistent(cfg: Config, start: Session, parts: seq<Bytes>, s: State) {
    && (s.record.Some? ==> RecordOk(cfg, start, parts, s, s.record.value))
    && OnlyParts(parts, s.chunks)
    && (s.uploaded.Some? ==> s.uploaded.value == Concat(parts))
    && (s.calls >= 1 ==> s.uploaded.Some?)
    && forall p :: p in s.tasks ==> TaskOk(cfg, start, parts, s, s.tasks[p])
  }

  // ---- Each command keeps it ----

  /** A request that passes the checks against such a record carries exactly the next chunk, if there is one. */
  lemma VerifiedIsNext(cfg: Config, start: Session, parts: seq<Bytes>, r: Session, q: PatchRequest)
    requires OnFile(cfg, start, parts, r) && HonestRequest(cfg, parts, q)
    requires CheckPatch(cfg, r, q).None?
    ensures |r.manifest| < |parts| ==> IsPart(parts, q, |r.manifest|)
  {
    assert q.offset == Boundary(parts, |r.manifest|);
  }

  /** Beyond the last chunk nothing fits: the bytes are stored as a stray chunk, and the request is refused. */
  lemma NothingFits(cfg: Config, start: Session, parts: seq<Bytes>, r: Session, q: PatchRequest)
    requires CreatedFor(cfg, start, parts) && OnFile(cfg, start, parts, r) && |r.manifest| == |parts|
    requires CheckPatch(cfg, r, q).None?
    ensures Appended(r, |q.data|, q.checksum).None?
  {
    assert parts[..|parts|] == parts;
  }

  lemma AppendedOnFile(cfg: Config, start: Session, parts: seq<Bytes>, r: Session, q: PatchRequest)
    requires OnFile(cfg, start, parts, r) && IsPart(parts, q, |r.manifest|) && cfg.hash(q.data) == q.checksum
    requires r.status.Live() && Appended(r, |q.data|, q.checksum).Some?
    ensures OnFile(cfg, start, parts, Appended(r, |q.data|, q.checksum).value)
    ensures Appended(r, |q.data|, q.checksum).value.status.Live()
  {
    NextBoundary(parts, |r.manifest|);
  }

  /** A record that passes the completeness check lists every chunk of the file. */
  lemma FullManifest(cfg: Config, start: Session, parts: seq<Bytes>, r: Session)
    requires CreatedFor(cfg, start, parts) && OnFile(cfg, start, parts, r) && r.offset == r.size
    ensures |r.manifest| == |parts|
  {
    assert parts[..|parts|] == parts;
    if |r.manifest| < |parts| {
      BoundariesRise(parts, |r.manifest|, |parts|);
    }
  }

  lemma ListsInOrder(cfg: Config, parts: seq<Bytes>, manifest: seq<ChunkMeta>)
    requires Lists(cfg, parts, manifest)
    ensures SortByIndex(manifest) == manifest
  {
    InOrderIsSorted(manifest);
  }

  lemma PutKeeps(cfg: Config, start: Session, parts: seq<Bytes>, s: State, p: nat, t: Task)
    requires Consistent(cfg, start, parts, s) && TaskOk(cfg, start, parts, s, t)
    ensures Consistent(cfg, start, parts, Put(s, p, t))
  {
    var s' := Put(s, p, t);
    forall o | o in s'.tasks ensures TaskOk(cfg, start, parts, s', s'.tasks[o]) {
    }
  }

  lemma EndedKeeps(cfg: Config, start: Session, parts: seq<Bytes>, s: State, p: nat)
    requires Consistent(cfg, start, parts, s)
    ensures Consistent(cfg, start, parts, Ended(s, p))
  {
    var s' := Ended(s, p);
    forall o | o in s'.tasks ensures TaskOk(cfg, start, parts, s', s'.tasks[o]) {
    }
  }

  /** Replacing the record, the chunks or the object by sound ones keeps what the other requests hold sound. */
  lemma StoreKeeps(cfg: Config, start: Session, parts: seq<Bytes>, s: State, s': State)
    requires Consistent(cfg, start, parts, s) && s'.tasks == s.tasks
    requires s.uploaded.Some? ==> s'.uploaded == s.uploaded
    requires s.delivered <= s'.delivered && (s'.calls >= 1 ==> s'.uploaded.Some?)
    requires s'.uploaded.Some? ==> s'.uploaded.value == Concat(parts)
    requires s'.record.Some? ==> RecordOk(cfg, start, parts, s', s'.record.value)
    requires OnlyParts(parts, s'.chunks)
    ensures Consistent(cfg, start, parts, s')
  {
    forall o | o in s'.tasks ensures TaskOk(cfg, start, parts, s', s'.tasks[o]) {
      assert TaskOk(cfg, start, parts, s, s.tasks[o]);
    }
  }

  lemma LoadKeeps(cfg: Config, start: Session, parts: seq<Bytes>, s: State, c: Command)
    requires CreatedFor(cfg, start, parts) && Consistent(cfg, start, parts, s)
    requires Starts(c)
    requires c.LoadToSend? ==> HonestRequest(cfg, parts, c.q)
    ensures Consistent(cfg, start, parts, Load(cfg, s, c))
  {
    var s' := Load(cfg, s, c);
    if s' != s {
      var r := s.record.value;
      match c
      case LoadToSend(p, q) =>
        VerifiedIsNext(cfg, start, parts, r, q);
        PutKeeps(cfg, start, parts, s, p, Verified(r, q));
      case LoadToAbort(p) =>
        PutKeeps(cfg, start, parts, s, p, Prepared(r.(status := Aborted)));
      case LoadToComplete(p) =>
        FullManifest(cfg, start, parts, r);
        PutKeeps(cfg, start, parts, s, p, Reading(r, []));
    }
  }

  lemma AfterStoreKeeps(cfg: Config, start: Session, parts: seq<Bytes>, s: State, p: nat, r: Session, q: PatchRequest)
    requires CreatedFor(cfg, start, parts)
    requires Consistent(cfg, start, parts, s) && TaskOk(cfg, start, parts, s, Verified(r, q))
    ensures Consistent(cfg, start, parts, AfterStore(s, p, r, q))
  {
    if |r.manifest| == |parts| {
      NothingFits(cfg, start, parts, r, q);
    }
    var kept := s.(chunks := s.chunks[|r.manifest| := q.data]);
    StoreKeeps(cfg, start, parts, s, kept);
    match Appended(r, |q.data|, q.checksum)
    case None => EndedKeeps(cfg, start, parts, kept, p);
    case Some(r') =>
      AppendedOnFile(cfg, start, parts, r, q);
      PutKeeps(cfg, start, parts, kept, p, Prepared(r'));
  }

  lemma AfterReadKeeps(cfg: Config, start: Session, parts: seq<Bytes>, s: State, p: nat, r: Session, chunks: seq<Bytes>)
    requires Consistent(cfg, start, parts, s) && TaskOk(cfg, start, parts, s, Reading(r, chunks))
    ensures Consistent(cfg, start, parts, AfterRead(s, p, r, chunks))
  {
    ListsInOrder(cfg, parts, r.manifest);
    if |chunks| < |parts| {
      if |chunks| in s.chunks {
        assert chunks + [parts[|chunks|]] <= parts;
        PutKeeps(cfg, start, parts, s, p, Reading(r, chunks + [s.chunks[|chunks|]]));
      } else {
        EndedKeeps(cfg, start, parts, s, p);
      }
    }
  }

  lemma AfterHeadKeeps(cfg: Config, start: Session, parts: seq<Bytes>, s: State, p: nat, r: Session, chunks: seq<Bytes>)
    requires Consistent(cfg, start, parts, s) && TaskOk(cfg, start, parts, s, Reading(r, chunks))
    ensures Consistent(cfg, start, parts, AfterHead(s, p, r, chunks))
  {
    ListsInOrder(cfg, parts, r.manifest);
    if |chunks| >= |parts| {
      assert chunks == parts;
      PutKeeps(cfg, start, parts, s, p, Prepared(r.(status := Failed)));
      PutKeeps(cfg, start, parts, s, p, Uploading(r, Concat(chunks)));
    }
  }

  lemma AfterUploadKeeps(cfg: Config, start: Session, parts: seq<Bytes>, s: State, p: nat, r: Session, data: Bytes)
    requires CreatedFor(cfg, start, parts)
    requires Consistent(cfg, start, parts, s) && TaskOk(cfg, start, parts, s, Uploading(r, data))
    ensures Consistent(cfg, start, parts, AfterUpload(cfg, s, p, r, data))
  {
    var after := s.(uploaded := Some(data));
    StoreKeeps(cfg, start, parts, s, after);
    PutKeeps(cfg, start, parts, after, p, Uploaded(r));
  }

  lemma CountedKeeps(cfg: Config, start: Session, parts: seq<Bytes>, s: State, ok: bool)
    requires Consistent(cfg, start, parts, s) && s.uploaded.Some?
    ensures Consistent(cfg, start, parts, s.(calls := s.calls + 1, delivered := s.delivered + if ok then 1 else 0))
  {
    StoreKeeps(cfg, start, parts, s, s.(calls := s.calls + 1, delivered := s.delivered + if ok then 1 else 0));
  }

  lemma AfterPublishKeeps(cfg: Config, start: Session, parts: seq<Bytes>, s: State, p: nat, r: Session, ok: bool)
    requires Consistent(cfg, start, parts, s) && TaskOk(cfg, start, parts, s, Uploaded(r))
    ensures Consistent(cfg, start, parts, AfterPublish(s, p, r, ok))
  {
    var after := s.(calls := s.calls + 1, delivered := s.delivered + if ok then 1 else 0);
    CountedKeeps(cfg, start, parts, s, ok);
    if ok {
      PutKeeps(cfg, start, parts, after, p, Prepared(r.(status := Complete)));
    } else {
      PutKeeps(cfg, start, parts, after, p, Prepared(r.(status := Failed), true));
    }
  }

  lemma AfterWriteKeeps(cfg: Config, start: Session, parts: seq<Bytes>, s: State, p: nat, r: Session, again: bool)
    requires Consistent(cfg, start, parts, s) && RecordOk(cfg, start, parts, s, r)
    ensures Consistent(cfg, start, parts, AfterWrite(s, p, r, again))
  {
    var s' := s.(record := Some(r), timed := s.record.Some? && s.timed);
    StoreKeeps(cfg, start, parts, s, s');
    if again {
      PutKeeps(cfg, start, parts, s', p, Prepared(r));
    } else if r.status == Aborted {
      PutKeeps(cfg, start, parts, s', p, Deleting);
    } else if r.status == Complete {
      PutKeeps(cfg, start, parts, s', p, Freeing);
    } else {
      EndedKeeps(cfg, start, parts, s', p);
    }
  }

  lemma RecordGoneKeeps(cfg: Config, start: Session, parts: seq<Bytes>, s: State)
    requires Consistent(cfg, start, parts, s)
    ensures Consistent(cfg, start, parts, s.(record := None))
  {
    StoreKeeps(cfg, start, parts, s, s.(record := None));
  }

  lemma CompletionKeeps(cfg: Config, start: Session, parts: seq<Bytes>, s: State, c: Command, t: Task)
    requires CreatedFor(cfg, start, parts) && Consistent(cfg, start, parts, s) && TaskOk(cfg, start, parts, s, t)
    requires Continues(c) && (t.Reading? || t.Uploading? || t.Uploaded?)
    ensures Consistent(cfg, start, parts, Continue(cfg, s, c, t))
  {
    if c.Raise? {
      EndedKeeps(cfg, start, parts, s, c.p);
    } else if c.GiveUp? {
      PutKeeps(cfg, start, parts, s, c.p, Prepared(t.s.(status := Failed)));
    } else {
      match t
      case Reading(r, chunks) =>
        AfterReadKeeps(cfg, start, parts, s, c.p, r, chunks);
        AfterHeadKeeps(cfg, start, parts, s, c.p, r, chunks);
      case Uploading(r, data) => AfterUploadKeeps(cfg, start, parts, s, c.p, r, data);
      case Uploaded(r) =>
        if c.Publish? {
          AfterPublishKeeps(cfg, start, parts, s, c.p, r, c.ok);
        }
    }
  }

  lemma RecordWriteKeeps(cfg: Config, start: Session, parts: seq<Bytes>, s: State, c: Command, t: Task)
    requires Consistent(cfg, start, parts, s) && TaskOk(cfg, start, parts, s, t)
    requires Continues(c) && (t.Prepared? || t.Confirmed?)
    ensures Consistent(cfg, start, parts, Continue(cfg, s, c, t))
  {
    if c.Raise? {
      EndedKeeps(cfg, start, parts, s, c.p);
    } else if c.GiveUp? {
      PutKeeps(cfg, start, parts, s, c.p, Prepared(t.s.(status := Failed)));
    } else if t.Confirmed? {
      AfterWriteKeeps(cfg, start, parts, s, c.p, t.s, t.again);
    } else {
      EndedKeeps(cfg, start, parts, s, c.p);
      PutKeeps(cfg, start, parts, s, c.p, Confirmed(t.s, t.again));
    }
  }

  /** The deletion of an abort, and the decrement. */
  lemma AbortEndKeeps(cfg: Config, start: Session, parts: seq<Bytes>, s: State, p: nat)
    requires Consistent(cfg, start, parts, s)
    ensures Consistent(cfg, start, parts, Put(s.(record := None), p, Freeing))
    ensures Consistent(cfg, start, parts, Ended(s.(freed := s.freed + 1), p))
  {
    RecordGoneKeeps(cfg, start, parts, s);
    PutKeeps(cfg, start, parts, s.(record := None), p, Freeing);
    StoreKeeps(cfg, start, parts, s, s.(freed := s.freed + 1));
    EndedKeeps(cfg, start, parts, s.(freed := s.freed + 1), p);
  }

  lemma ContinueKeeps(cfg: Config, start: Session, parts: seq<Bytes>, s: State, c: Command, t: Task)
    requires CreatedFor(cfg, start, parts) && Consistent(cfg, start, parts, s) && TaskOk(cfg, start, parts, s, t)
    requires Continues(c)
    ensures Consistent(cfg, start, parts, Continue(cfg, s, c, t))
  {
    if t.Reading? || t.Uploading? || t.Uploaded? {
      CompletionKeeps(cfg, start, parts, s, c, t);
    } else if t.Prepared? || t.Confirmed? {
      RecordWriteKeeps(cfg, start, parts, s, c, t);
    } else if c.Raise? {
      EndedKeeps(cfg, start, parts, s, c.p);
    } else if t.Verified? {
      AfterStoreKeeps(cfg, start, parts, s, c.p, t.s, t.q);
    } else {
      AbortEndKeeps(cfg, start, parts, s, c.p);
    }
  }

  lemma ExecKeeps(cfg: Config, start: Session, parts: seq<Bytes>, s: State, c: Command)
    requires CreatedFor(cfg, start, parts) && Consistent(cfg, start, parts, s)
    requires c.LoadToSend? ==> HonestRequest(cfg, parts, c.q)
    ensures Consistent(cfg, start, parts, Exec(cfg, s, c))
  {
    if c.Expire? {
      RecordGoneKeeps(cfg, start, parts, s);
    } else if c.DropChunk? {
      StoreKeeps(cfg, start, parts, s, s.(chunks := s.chunks - {c.index}));
    } else if Starts(c) {
      LoadKeeps(cfg, start, parts, s, c);
    } else if c.p in s.tasks {
      ContinueKeeps(cfg, start, parts, s, c, s.tasks[c.p]);
    }
  }

  // ---- Main results ----

  function Created(start: Session): State {
    State(Some(start), true, map[], None, 0, 0, 0, map[])
  }

  lemma {:induction false} RunKeeps(cfg: Config, start: Session, parts: seq<Bytes>, commands: seq<Command>)
    requires CreatedFor(cfg, start, parts) && HonestCommands(cfg, parts, commands)
    ensures Consistent(cfg, start, parts, RunAll(cfg, Created(start), commands))
  {
    if commands == [] {
      assert parts[..0] == [];
    } else {
      var init, c := commands[..|commands| - 1], commands[|commands| - 1];
      RunKeeps(cfg, start, parts, init);
      ExecKeeps(cfg, start, parts, RunAll(cfg, Created(start), init), c);
    }
  }

  lemma {:induction false} ListedTotal(cfg: Config, parts: seq<Bytes>, manifest: seq<ChunkMeta>)
    requires Lists(cfg, parts, manifest)
    ensures Total(manifest) == Boundary(parts, |manifest|)
  {
    var n := |manifest|;
    if n > 0 {
      ListedTotal(cfg, parts, manifest[..n - 1]);
      NextBoundary(parts, n - 1);
    } else {
      assert parts[..0] == [];
    }
  }

  /**
   * Under every interleaving, stale writers, lost updates, expiry and deletes included: each stored chunk i is chunk i
   * of the file, apart from at most one stray chunk after the last; and a stored record lists the first n chunks with
   * their sizes and digests, with the offset at the boundary where chunk n begins.
   */
  lemma EveryInterleaving(cfg: Config, start: Session, parts: seq<Bytes>, commands: seq<Command>)
    requires CreatedFor(cfg, start, parts) && HonestCommands(cfg, parts, commands)
    ensures var s := RunAll(cfg, Created(start), commands);
            && (forall i :: i in s.chunks ==> 0 <= i <= |parts| && (i < |parts| ==> s.chunks[i] == parts[i]))
            && (s.record.Some? ==>
                  var n := |s.record.value.manifest|;
                  && n <= |parts|
                  && s.record.value.offset == Boundary(parts, n) == Total(s.record.value.manifest)
                  && forall i :: 0 <= i < n ==>
                    s.record.value.manifest[i] == ChunkMeta(i, |parts[i]|, cfg.hash(parts[i])))
  {
    RunKeeps(cfg, start, parts, commands);
    var s := RunAll(cfg, Created(start), commands);
    if s.record.Some? {
      ListedTotal(cfg, parts, s.record.value.manifest);
    }
  }

  lemma ObjectStays(cfg: Config, start: Session, parts: seq<Bytes>, s: State, c: Command)
    requires CreatedFor(cfg, start, parts) && Consistent(cfg, start, parts, s)
    ensures s.uploaded.Some? ==> Exec(cfg, s, c).uploaded == s.uploaded
  {
    if c.Upload? && c.p in s.tasks {
      assert TaskOk(cfg, start, parts, s, s.tasks[c.p]);
    }
  }

  /**
   * However completions race with writers and with each other, no object but the file is ever put and it is never taken
   * away again; publish is only called when it is there, and a record that says COMPLETE is only ever stored when it is
   * there and an event was delivered.
   */
  lemma ObjectIsAlwaysTheFile(cfg: Config, start: Session, parts: seq<Bytes>, commands: seq<Command>, c: Command)
    requires CreatedFor(cfg, start, parts) && HonestCommands(cfg, parts, commands + [c])
    ensures var s, s' := RunAll(cfg, Created(start), commands), RunAll(cfg, Created(start), commands + [c]);
            && (s'.uploaded.Some? ==> s'.uploaded.value == Concat(parts))
            && (s.uploaded.Some? ==> s'.uploaded == s.uploaded)
            && (s'.calls >= 1 ==> s'.uploaded == Some(Concat(parts)))
            && (s'.record.Some? && s'.record.value.status == Complete ==>
                  s'.uploaded == Some(Concat(parts)) && s'.delivered >= 1)
  {
    assert (commands + [c])[..|commands|] == commands;
    assert HonestCommands(cfg, parts, commands) by {
      forall d | d in commands && d.LoadToSend? ensures HonestRequest(cfg, parts, d.q) {
        assert d in commands + [c];
      }
    }
    RunKeeps(cfg, start, parts, commands);
    RunKeeps(cfg, start, parts, commands + [c]);
    ObjectStays(cfg, start, parts, RunAll(cfg, Created(start), commands), c);
  }

  // ---- Without interleaving ----

  /** The remaining commands of a verified chunk request. */
  function Landing(p: nat): seq<Command> {
    [StoreChunk(p)] + [Confirm(p), Write(p)]
  }

  lemma Lands(cfg: Config, s: State, p: nat, r: Session, q: PatchRequest)
    requires p in s.tasks && s.tasks[p] == Verified(r, q) && s.record.Some?
    requires r.status.Live() && Appended(r, |q.data|, q.checksum).Some?
    ensures RunAll(cfg, s, Landing(p)) ==
            s.(record := Appended(r, |q.data|, q.checksum), chunks := s.chunks[|r.manifest| := q.data],
               tasks := s.tasks - {p})
  {
    var r' := Appended(r, |q.data|, q.checksum).value;
    var s1 := Exec(cfg, s, StoreChunk(p));
    assert RunAll(cfg, s, [StoreChunk(p)]) == s1 by {
      assert [StoreChunk(p)][..0] == [];
    }
    RunAppend(cfg, s, [StoreChunk(p)], [Confirm(p), Write(p)]);
    RunTwo(cfg, s1, Confirm(p), Write(p));
    assert s.tasks[p := Prepared(r')][p := Confirmed(r')] - {p} == s.tasks - {p};
  }

  /** A chunk request whose commands run one after the other. */
  function Sending(p: nat, q: PatchRequest): seq<Command> {
    [LoadToSend(p, q)] + Landing(p)
  }

  lemma SendsAlone(cfg: Config, s: State, p: nat, r: Session, q: PatchRequest)
    requires p !in s.tasks && s.record == Some(r)
    requires CheckPatch(cfg, r, q).None? && Appended(r, |q.data|, q.checksum).Some?
    ensures RunAll(cfg, s, Sending(p, q)) ==
            s.(record := Appended(r, |q.data|, q.checksum), chunks := s.chunks[|r.manifest| := q.data])
  {
    var loaded := Put(s, p, Verified(r, q));
    assert RunAll(cfg, s, [LoadToSend(p, q)]) == loaded by {
      assert [LoadToSend(p, q)][..0] == [];
    }
    RunAppend(cfg, s, [LoadToSend(p, q)], Landing(p));
    Lands(cfg, loaded, p, r, q);
    assert loaded.tasks - {p} == s.tasks;
  }

  /** The state shows this session as the sequential model stores it. */
  ghost predicate Shows(r: RedisState, key: Key, s: State) {
    && s.record == (if key in r.sessions then Some(r.sessions[key].value) else None)
    && (forall i :: i in s.chunks <==> ChunkKey(key, i) in r.chunks)
    && (forall i :: i in s.chunks ==> s.chunks[i] == r.chunks[ChunkKey(key, i)].value)
  }

  lemma RefusedAlone(cfg: Config, s: State, p: nat, q: PatchRequest)
    requires p !in s.tasks
    requires s.record.None? || CheckPatch(cfg, s.record.value, q).Some?
    ensures RunAll(cfg, s, Sending(p, q)) == s
  {
    RunAppend(cfg, s, [LoadToSend(p, q)], Landing(p));
    assert [LoadToSend(p, q)][..0] == [];
    RunAppend(cfg, s, [StoreChunk(p)], [Confirm(p), Write(p)]);
    assert [StoreChunk(p)][..0] == [];
    RunTwo(cfg, s, Confirm(p), Write(p));
  }

  lemma OvershootAlone(cfg: Config, s: State, p: nat, r: Session, q: PatchRequest)
    requires p !in s.tasks && s.record == Some(r)
    requires CheckPatch(cfg, r, q).None? && Appended(r, |q.data|, q.checksum).None?
    ensures RunAll(cfg, s, Sending(p, q)) == s.(chunks := s.chunks[|r.manifest| := q.data])
  {
    var loaded, kept := Put(s, p, Verified(r, q)), s.(chunks := s.chunks[|r.manifest| := q.data]);
    RunAppend(cfg, s, [LoadToSend(p, q)], Landing(p));
    assert [LoadToSend(p, q)][..0] == [];
    RunAppend(cfg, loaded, [StoreChunk(p)], [Confirm(p), Write(p)]);
    assert [StoreChunk(p)][..0] == [];
    assert loaded.tasks - {p} == s.tasks;
    RunTwo(cfg, kept, Confirm(p), Write(p));
  }

  lemma AcceptedAlone(cfg: Config, r: RedisState, s: State, p: nat, q: PatchRequest)
    requires Shows(r, q.key, s) && p !in s.tasks && q.key in r.sessions && r.sessions[q.key].value.key == q.key
    requires CheckPatch(cfg, s.record.value, q).None?
    requires Appended(s.record.value, |q.data|, q.checksum).Some?
    ensures var s' := RunAll(cfg, s, Sending(p, q));
            Shows(ProcessChunk(cfg, r, q, {}).0, q.key, s') && s'.tasks == s.tasks
  {
    var n := |s.record.value.manifest|;
    SendsAlone(cfg, s, p, s.record.value, q);
    var r' := ProcessChunk(cfg, r, q, {}).0;
    assert r'.chunks == r.SetChunk(q.key, n, q.data).chunks;
    forall i ensures i in s.chunks[n := q.data] <==> ChunkKey(q.key, i) in r'.chunks {
    }
  }

  /** A chunk request that runs undisturbed does what the sequential model says, whatever it finds and carries. */
  lemma AloneIsSequential(cfg: Config, r: RedisState, s: State, p: nat, q: PatchRequest)
    requires Shows(r, q.key, s) && p !in s.tasks
    requires q.key in r.sessions ==> r.sessions[q.key].value.key == q.key
    ensures var s' := RunAll(cfg, s, Sending(p, q));
            Shows(ProcessChunk(cfg, r, q, {}).0, q.key, s') && s'.tasks == s.tasks
  {
    if s.record.None? || CheckPatch(cfg, s.record.value, q).Some? {
      RefusedAlone(cfg, s, p, q);
    } else if Appended(s.record.value, |q.data|, q.checksum).None? {
      OvershootAlone(cfg, s, p, s.record.value, q);
    } else {
      AcceptedAlone(cfg, r, s, p, q);
    }
  }
}
