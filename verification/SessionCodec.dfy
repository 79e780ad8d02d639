/** The session hash and the file metadata: what is written to Redis, and that reading it back gives the same record. */
module SessionCodec {
  import opened Types
  import opened World
  import opened Entity
  import opened Protocol
  import opened Sessions
  import opened Actions
  import opened Lifecycle
  import opened Safety
  import opened Answers
  import Decimal
  import J = Json

  /** isoformat() and fromisoformat(), as far as they matter here. */
  datatype Clock = Clock(format: int -> string, parse: string -> Option<int>)

  ghost predicate Invertible(clock: Clock) {
    forall t :: clock.parse(clock.format(t)) == Some(t)
  }

  // ---- Status names ----

  function StatusName(s: Status): string {
    match s
    case Pending => "pending"
    case InProgress => "in_progress"
    case Complete => "complete"
    case Failed => "failed"
    case Aborted => "aborted"
  }

  function StatusNamed(name: string): Option<Status> {
    if name == "pending" then Some(Pending)
    else if name == "in_progress" then Some(InProgress)
    else if name == "complete" then Some(Status.Complete)
    else if name == "failed" then Some(Failed)
    else if name == "aborted" then Some(Aborted)
    else None
  }

  lemma StatusReadsBack(s: Status)
    ensures StatusNamed(StatusName(s)) == Some(s)
  {
    assert |"pending"| == 7 && |"in_progress"| == 11 && |"complete"| == 8 && |"failed"| == 6 && |"aborted"| == 7;
    assert "pending"[0] != "aborted"[0];
  }

  // ---- Manifests as JSON ----

  function Lookup(fields: seq<J.Field>, name: string): Option<J.Json> {
    if fields == [] then None
    else if fields[|fields| - 1].name == name then Some(fields[|fields| - 1].value)
    else Lookup(fields[..|fields| - 1], name)
  }

  function EntryJson(c: ChunkMeta): J.Json {
    J.Obj([J.Field("index", J.Num(c.index)), J.Field("size", J.Num(c.size)), J.Field("checksum", J.Str(c.checksum))])
  }

  function ReadEntry(j: J.Json): Option<ChunkMeta> {
    if !j.Obj? then None
    else
      match (Lookup(j.fields, "index"), Lookup(j.fields, "size"), Lookup(j.fields, "checksum"))
      case (Some(Num(index)), Some(Num(size)), Some(Str(checksum))) => Some(ChunkMeta(index, size, checksum))
      case _ => None
  }

  function EntriesJson(manifest: seq<ChunkMeta>): seq<J.Json> {
    seq(|manifest|, i requires 0 <= i < |manifest| => EntryJson(manifest[i]))
  }

  function ReadEntries(items: seq<J.Json>): Option<seq<ChunkMeta>> {
    if items == [] then Some([])
    else
      match (ReadEntries(items[..|items| - 1]), ReadEntry(items[|items| - 1]))
      case (Some(manifest), Some(c)) => Some(manifest + [c])
      case _ => None
  }

  function ManifestText(manifest: seq<ChunkMeta>): string {
    J.Text(J.List(EntriesJson(manifest)))
  }

  /** The manifest must be a JSON list. */
  function ReadManifest(s: string): Option<seq<ChunkMeta>> {
    match J.Loads(s)
    case Some(List(items)) => ReadEntries(items)
    case _ => None
  }

  lemma LookupLast(fields: seq<J.Field>, f: J.Field, name: string)
    ensures Lookup(fields + [f], name) == if f.name == name then Some(f.value) else Lookup(fields, name)
  {
    assert (fields + [f])[..|fields|] == fields;
  }

  lemma EntryReadsBack(c: ChunkMeta)
    ensures ReadEntry(EntryJson(c)) == Some(c)
  {
    var index, size := J.Field("index", J.Num(c.index)), J.Field("size", J.Num(c.size));
    var checksum := J.Field("checksum", J.Str(c.checksum));
    assert "index"[0] != "size"[0] && "index"[0] != "checksum"[0] && "size"[0] != "checksum"[0];
    assert EntryJson(c).fields == [index] + [size] + [checksum];
    assert [index] == [] + [index];
    LookupLast([], index, "index");
    LookupLast([index], size, "index");
    LookupLast([index], size, "size");
    LookupLast([index] + [size], checksum, "index");
    LookupLast([index] + [size], checksum, "size");
    LookupLast([index] + [size], checksum, "checksum");
  }

  lemma {:induction false} EntriesReadBack(manifest: seq<ChunkMeta>)
    ensures ReadEntries(EntriesJson(manifest)) == Some(manifest)
  {
    if manifest != [] {
      var init, last := manifest[..|manifest| - 1], manifest[|manifest| - 1];
      EntriesReadBack(init);
      EntryReadsBack(last);
      assert EntriesJson(manifest)[..|manifest| - 1] == EntriesJson(init);
      assert init + [last] == manifest;
    }
  }

  lemma ManifestReadsBack(manifest: seq<ChunkMeta>)
    ensures ReadManifest(ManifestText(manifest)) == Some(manifest)
  {
    J.LoadsUndoesDumps(J.List(EntriesJson(manifest)));
    EntriesReadBack(manifest);
  }

  // ---- The session hash ----

  /** The fields of the hash as text. */
  datatype Hash = Hash(
    sessionId: string, workspaceId: string, filename: string, size: string, mimeType: string, checksum: string,
    offset: string, status: string, createdAt: string, expiresAt: string, chunkManifest: string)

  function Serialize(clock: Clock, s: Session): Hash {
    Hash(s.key.id, s.key.ws, s.filename, Decimal.Text(s.size), s.mime, s.checksum, Decimal.Text(s.offset),
         StatusName(s.status), clock.format(s.createdAt), clock.format(s.expiresAt), ManifestText(s.manifest))
  }

  predicate IsIdText(s: string) {
    IsUuidText(s) && s != NIL_UUID
  }

  /** A ValueError while reading becomes a SerializationError; the size and media type errors pass through. */
  function Wrapped(e: Error): Error {
    if e == ValueError then SerializationError else e
  }

  function Deserialize(clock: Clock, h: Hash): Result<Session> {
    if !IsIdText(h.sessionId) || !IsIdText(h.workspaceId) || !IsDigestText(h.checksum) then Err(SerializationError)
    else
      match (ReadManifest(h.chunkManifest), Decimal.Read(h.size), Decimal.Read(h.offset), StatusNamed(h.status),
             clock.parse(h.createdAt), clock.parse(h.expiresAt))
      case (Some(manifest), Some(size), Some(offset), Some(status), Some(createdAt), Some(expiresAt)) =>
        Built(Session(Key(h.workspaceId, h.sessionId), h.filename, size, h.mimeType, h.checksum, offset, status,
                      createdAt, expiresAt, manifest))
      case _ => Err(SerializationError)
  }

  /** The constructor of the entity validates it. */
  function Built(s: Session): Result<Session> {
    match Validate(s)
    case None => Ok(s)
    case Some(e) => Err(Wrapped(e))
  }

  /**
   * A record reads back as itself if the entity accepts it, and otherwise as the error of the first check that fails: a
   * value that is merely wrong is reported as a serialization error, the size limit and the media type as themselves.
   */
  lemma SessionReadsBack(clock: Clock, s: Session)
    requires Invertible(clock)
    ensures Deserialize(clock, Serialize(clock, s)) ==
            if NameRefused(s.filename) || s.size <= 0 then Err(SerializationError)
            else if s.size > 1_073_741_824 then Err(FileSizeLimitExceeded)
            else if s.mime != "application/pdf" then Err(UnsupportedMediaType)
            else if s.offset < 0 || s.offset > s.size || s.expiresAt <= s.createdAt then Err(SerializationError)
            else Ok(s)
    ensures Deserialize(clock, Serialize(clock, s)) == Ok(s) <==> Validate(s) == None
  {
    NameRefusedExactly(s.filename);
    ManifestReadsBack(s.manifest);
    Decimal.ReadsBack(s.size);
    Decimal.ReadsBack(s.offset);
    StatusReadsBack(s.status);
  }

  // ---- File metadata as JSON ----

  function MetadataText(zulu: Clock, m: FileMetadata): string {
    J.Text(J.Obj([J.Field("file_id", J.Str(m.fileId)), J.Field("s3_path", J.Str(m.path)),
                  J.Field("size", J.Num(m.size)), J.Field("uploaded_at", J.Str(zulu.format(m.uploadedAt)))]))
  }

  /** The file metadata record refuses a negative size and a blank path. */
  predicate MetadataAccepted(m: FileMetadata) {
    m.size >= 0 && !Blank(m.path)
  }

  function ReadMetadata(zulu: Clock, s: string): Result<FileMetadata> {
    match J.Loads(s)
    case Some(Obj(fields)) =>
      (match (Lookup(fields, "file_id"), Lookup(fields, "s3_path"), Lookup(fields, "size"), Lookup(fields, "uploaded_at"))
       case (Some(Str(id)), Some(Str(path)), Some(Num(size)), Some(Str(at))) => MetadataFrom(zulu, id, path, size, at)
       case _ => Err(SerializationError))
    case _ => Err(SerializationError)
  }

  function MetadataFrom(zulu: Clock, id: string, path: string, size: int, at: string): Result<FileMetadata> {
    if !IsIdText(id) || zulu.parse(at) == None then Err(SerializationError)
    else
      var m := FileMetadata(id, path, size, zulu.parse(at).value);
      if MetadataAccepted(m) then Ok(m) else Err(SerializationError)
  }

  /** A name that occurs once among four is found with its value. */
  lemma FourFields(names: seq<string>, values: seq<J.Json>, i: nat)
    requires |names| == |values| == 4 && i < 4
    requires forall j, k :: 0 <= j < k < 4 ==> names[j] != names[k]
    ensures var fields := [J.Field(names[0], values[0]), J.Field(names[1], values[1]),
                           J.Field(names[2], values[2]), J.Field(names[3], values[3])];
            Lookup(fields, names[i]) == Some(values[i])
  {
    var a, b := J.Field(names[0], values[0]), J.Field(names[1], values[1]);
    var c, d := J.Field(names[2], values[2]), J.Field(names[3], values[3]);
    assert [a] == [] + [a] && [a, b] == [a] + [b] && [a, b, c] == [a, b] + [c] && [a, b, c, d] == [a, b, c] + [d];
    LookupLast([], a, names[i]);
    LookupLast([a], b, names[i]);
    LookupLast([a, b], c, names[i]);
    LookupLast([a, b, c], d, names[i]);
  }

  lemma MetadataNames()
    ensures var names := ["file_id", "s3_path", "size", "uploaded_at"];
            forall j, k :: 0 <= j < k < 4 ==> names[j] != names[k]
  {
    var names := ["file_id", "s3_path", "size", "uploaded_at"];
    assert |names[0]| == 7 && |names[1]| == 7 && |names[2]| == 4 && |names[3]| == 11;
    assert names[0][0] == 'f' && names[1][0] == 's';
  }

  lemma MetadataFields(a: J.Json, b: J.Json, c: J.Json, d: J.Json)
    ensures var fields := [J.Field("file_id", a), J.Field("s3_path", b), J.Field("size", c), J.Field("uploaded_at", d)];
            && Lookup(fields, "file_id") == Some(a) && Lookup(fields, "s3_path") == Some(b)
            && Lookup(fields, "size") == Some(c) && Lookup(fields, "uploaded_at") == Some(d)
  {
    var names, values := ["file_id", "s3_path", "size", "uploaded_at"], [a, b, c, d];
    MetadataNames();
    FourFields(names, values, 0);
    FourFields(names, values, 1);
    FourFields(names, values, 2);
    FourFields(names, values, 3);
  }

  /** Registered metadata reads back as itself exactly when the record type accepts it, whatever the bucket is called. */
  lemma MetadataReadsBack(zulu: Clock, m: FileMetadata)
    requires Invertible(zulu)
    ensures ReadMetadata(zulu, MetadataText(zulu, m)) == if MetadataAccepted(m) then Ok(m) else Err(SerializationError)
  {
    var a, b, c, d := J.Str(m.fileId), J.Str(m.path), J.Num(m.size), J.Str(zulu.format(m.uploadedAt));
    MetadataFields(a, b, c, d);
    J.LoadsUndoesDumps(
      J.Obj([J.Field("file_id", a), J.Field("s3_path", b), J.Field("size", c), J.Field("uploaded_at", d)]));
  }

  // ---- Over whole runs every stored record reads back ----

  /** The parts of the entity's validation that no operation touches after creation. */
  predicate Named(s: Session) {
    FilenameAllowed(s.filename) && s.mime == PDF
  }

  predicate AllNamed(r: RedisState) {
    forall key :: key in r.sessions ==> Named(r.sessions[key].value)
  }

  lemma StartNames(cfg: Config, r: RedisState, key: Key, request: UploadRequest, failing: set<Call>)
    requires AllNamed(r)
    ensures AllNamed(InitiateUpload(cfg, r, key, request, failing).0)
  {
    InitiateShape(cfg, r, key, request, failing);
  }

  lemma StepNames(cfg: Config, w: World, a: Action)
    requires Inv(cfg, w) && AllNamed(w.redis)
    ensures AllNamed(Apply(cfg, w, a).redis)
  {
    if a.Start? {
      StartNames(cfg, w.redis, a.key, a.request, a.failing);
    } else {
      var r' := Apply(cfg, w, a).redis;
      forall key | key in r'.sessions ensures Named(r'.sessions[key].value) {
        StepAdvances(cfg, w, a, key);
      }
    }
  }

  lemma {:induction false} RunNames(cfg: Config, now: int, acts: seq<Action>)
    requires UniqueIds(acts)
    ensures AllNamed(Run(cfg, Empty(now), acts).redis)
  {
    if acts != [] {
      var init := acts[..|acts| - 1];
      LastIdIsNew(acts);
      RunNames(cfg, now, init);
      RunKeepsInv(cfg, now, init);
      StepNames(cfg, Run(cfg, Empty(now), init), acts[|acts| - 1]);
    }
  }

  /** Whatever has happened, the hash of a stored session reads back as the record that was last written to it. */
  lemma StoredSessionReadsBack(cfg: Config, clock: Clock, now: int, acts: seq<Action>, key: Key)
    requires UniqueIds(acts) && Invertible(clock)
    requires key in Run(cfg, Empty(now), acts).redis.sessions
    ensures var s := Run(cfg, Empty(now), acts).redis.sessions[key].value;
            Deserialize(clock, Serialize(clock, s)) == Ok(s)
  {
    RunNames(cfg, now, acts);
    RunKeepsInv(cfg, now, acts);
    StoredIsValid(cfg, Run(cfg, Empty(now), acts).redis, key);
    SessionReadsBack(clock, Run(cfg, Empty(now), acts).redis.sessions[key].value);
  }

  /** And so does the metadata of every registered fingerprint. */
  lemma StoredMetadataReadsBack(cfg: Config, zulu: Clock, now: int, acts: seq<Action>, f: Fingerprint)
    requires UniqueIds(acts) && Invertible(zulu)
    requires f in Run(cfg, Empty(now), acts).redis.dedup
    ensures var m := Run(cfg, Empty(now), acts).redis.dedup[f];
            ReadMetadata(zulu, MetadataText(zulu, m)) == Ok(m)
  {
    var m := Run(cfg, Empty(now), acts).redis.dedup[f];
    assert acts + [] == acts;
    FingerprintsAreSound(cfg, now, acts, [], f);
    assert m.path[0] == 's' && !IsSpace(m.path[0]);
    MetadataReadsBack(zulu, m);
  }

  lemma StoredIsValid(cfg: Config, r: RedisState, key: Key)
    requires SessionsOk(cfg, r) && AllNamed(r) && key in r.sessions
    ensures Validate(r.sessions[key].value) == None
  {
    assert SessionOk(cfg, r, key);
    TotalNonNegative(r.sessions[key].value.manifest);
  }
}
