/** Values that several components share: identifiers, digests, records and errors. */
module Types {

  datatype Option<+T> = None | Some(value: T)

  /** A call either returns a value or raises one of the errors below. */
  datatype Result<+T> = Ok(value: T) | Err(error: Error)

  datatype Error =
    | SessionNotFound
    | WorkspaceMismatch
    | InvalidSessionState
    | OffsetMismatch(expected: int, received: int)
    | ChecksumMismatch
    | FileSizeLimitExceeded
    | UnsupportedMediaType
    | RateLimitExceeded
    | DuplicateFile(existing: FileMetadata)
    | IntegrityError
    | InfrastructureError
    | ValueError
    | SerializationError
    | Cancelled

  newtype Byte = x: int | 0 <= x < 256
  type Bytes = seq<Byte>

  // ---- Digests and identifiers ----

  predicate IsHexDigit(c: char) {
    '0' <= c <= '9' || 'a' <= c <= 'f'
  }

  predicate IsDigestText(s: string) {
    |s| == 64 && forall i :: 0 <= i < |s| ==> IsHexDigit(s[i])
  }

  /** A SHA-256 value object: 64 lower-case hexadecimal characters. */
  type Digest = s: string | IsDigestText(s) witness seq(64, i => '0')

  predicate IsUuidText(s: string) {
    && |s| == 36
    && forall i :: 0 <= i < |s| ==>
      if i == 8 || i == 13 || i == 18 || i == 23 then s[i] == '-' else IsHexDigit(s[i])
  }

  /** The canonical text of a UUID (section 4 of RFC 9562). */
  type Uuid = s: string | IsUuidText(s) witness "00000000-0000-0000-0000-000000000000"

  const NIL_UUID: Uuid := "00000000-0000-0000-0000-000000000000"

  /** The identifiers that the key builder accepts: every UUID but the nil one. */
  type Id = s: Uuid | s != NIL_UUID witness "00000000-0000-0000-0000-000000000001"

  /** Names one upload: the workspace that owns it and its session id, which is also its file id. */
  datatype Key = Key(ws: Id, id: Id)

  // ---- Upload sessions ----

  datatype Status = Pending | InProgress | Complete | Failed | Aborted {
    predicate Live() {
      Pending? || InProgress?
    }
  }

  datatype ChunkMeta = ChunkMeta(index: int, size: int, checksum: string)

  /** A session record, as the session hash stores it. Instants are whole seconds. */
  datatype Session = Session(
    key: Key,
    filename: string,
    size: int,
    mime: string,
    checksum: Digest,
    offset: int,
    status: Status,
    createdAt: int,
    expiresAt: int,
    manifest: seq<ChunkMeta>)

  datatype FileMetadata = FileMetadata(fileId: Id, path: string, size: int, uploadedAt: int)

  datatype ExpiryMeta = ExpiryMeta(ws: Id, id: Id, expiresAt: int, filename: string)

  // ---- Deployment settings ----

  type Positive = n: int | 0 < n witness 1

  /** SHA-256 is any function to digests: nothing below depends on which one it is. */
  datatype Config = Config(hash: Bytes -> Digest, limit: Positive, bucket: string)

  const MAX_FILE_SIZE := 1_073_741_824
  const MAX_CHUNK_SIZE := 10_485_760
  const MAX_PARTS := 10_000
  const SESSION_TTL := 86_400
  const EXPIRY_TTL := 604_800

  // ---- Byte strings and manifests ----

  function Concat(chunks: seq<Bytes>): Bytes {
    if chunks == [] then [] else Concat(chunks[..|chunks| - 1]) + chunks[|chunks| - 1]
  }

  function Total(manifest: seq<ChunkMeta>): int {
    if manifest == [] then 0 else Total(manifest[..|manifest| - 1]) + manifest[|manifest| - 1].size
  }

  lemma ConcatAppend(chunks: seq<Bytes>, last: Bytes)
    ensures Concat(chunks + [last]) == Concat(chunks) + last
  {
    assert (chunks + [last])[..|chunks|] == chunks;
  }

  lemma TotalAppend(manifest: seq<ChunkMeta>, last: ChunkMeta)
    ensures Total(manifest + [last]) == Total(manifest) + last.size
  {
    assert (manifest + [last])[..|manifest|] == manifest;
  }

  lemma {:induction false} TotalNonNegative(manifest: seq<ChunkMeta>)
    requires forall i :: 0 <= i < |manifest| ==> manifest[i].size > 0
    ensures 0 <= Total(manifest)
  {
    if manifest != [] {
      TotalNonNegative(manifest[..|manifest| - 1]);
    }
  }
}
