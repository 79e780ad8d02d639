/** The upload session entity: validation on construction, and the methods that update it in place. */
module Entity {
  import opened Types

  predicate IsSpace(c: char) {
    var u := c as int;
    || 0x09 <= u <= 0x0D || 0x1C <= u <= 0x20 || u == 0x85 || u == 0xA0 || u == 0x1680
    || 0x2000 <= u <= 0x200A || u == 0x2028 || u == 0x2029 || u == 0x202F || u == 0x205F || u == 0x3000
  }

  /** True of a string that strip() leaves empty. */
  predicate Blank(s: string) {
    forall i :: 0 <= i < |s| ==> IsSpace(s[i])
  }

  lemma DigestIsNotBlank(checksum: string)
    requires IsDigestText(checksum)
    ensures !Blank(checksum)
  {
    assert IsHexDigit(checksum[0]) && !IsSpace(checksum[0]);
  }

  predicate FilenameAllowed(filename: string) {
    && !Blank(filename)
    && '/' !in filename && '\\' !in filename && '\0' !in filename
    && |filename| <= 255
  }

  const PDF := "application/pdf"

  /** __post_init__: the first check that fails, in the order of the checks. */
  function Validate(s: Session): Option<Error> {
    if !FilenameAllowed(s.filename) then Some(ValueError)
    else if s.size <= 0 then Some(ValueError)
    else if s.size > MAX_FILE_SIZE then Some(FileSizeLimitExceeded)
    else if s.mime != PDF then Some(UnsupportedMediaType)
    else if s.offset < 0 || s.offset > s.size then Some(ValueError)
    else if s.expiresAt <= s.createdAt then Some(ValueError)
    else None
  }

  predicate HasIndex(manifest: seq<ChunkMeta>, index: int) {
    exists c :: c in manifest && c.index == index
  }

  class UploadSession {
    const key: Key
    const filename: string
    const size: int
    const mime: string
    const checksum: Digest
    const createdAt: int
    const expiresAt: int
    var offset: int
    var status: Status
    var manifest: seq<ChunkMeta>

    function Value(): Session
      reads this
    {
      Session(key, filename, size, mime, checksum, offset, status, createdAt, expiresAt, manifest)
    }

    constructor (s: Session)
      ensures Value() == s
    {
      key, filename, size, mime, checksum := s.key, s.filename, s.size, s.mime, s.checksum;
      createdAt, expiresAt := s.createdAt, s.expiresAt;
      offset, status, manifest := s.offset, s.status, s.manifest;
    }

    method AddChunk(index: int, size: int, checksum: string) returns (r: Result<()>)
      modifies this`manifest
      ensures r.Ok? <==> 0 <= index && 0 < size && !Blank(checksum) && !HasIndex(old(manifest), index)
      ensures r.Ok? ==> manifest == old(manifest) + [ChunkMeta(index, size, checksum)]
      ensures r.Err? ==> r == Err(ValueError) && manifest == old(manifest)
    {
      if index < 0 || size <= 0 || Blank(checksum) || (exists c | c in manifest :: c.index == index) {
        return Err(ValueError);
      }
      manifest := manifest + [ChunkMeta(index, size, checksum)];
      return Ok(());
    }

    method UpdateOffset(newOffset: int) returns (r: Result<()>)
      modifies this`offset
      ensures r.Ok? <==> 0 <= newOffset && old(offset) <= newOffset <= size
      ensures r.Ok? ==> offset == newOffset
      ensures r.Err? ==> r == Err(ValueError) && offset == old(offset)
    {
      if newOffset < 0 || newOffset < offset || newOffset > size {
        return Err(ValueError);
      }
      offset := newOffset;
      return Ok(());
    }

    method MarkInProgress() returns (r: Result<()>)
      modifies this`status
      ensures r.Ok? <==> old(status).Live()
      ensures status == if r.Ok? then InProgress else old(status)
      ensures r.Err? ==> r == Err(ValueError)
    {
      if status == Complete || status == Failed || status == Aborted {
        return Err(ValueError);
      }
      status := InProgress;
      return Ok(());
    }

    method MarkComplete() returns (r: Result<()>)
      modifies this`status
      ensures r.Ok? <==> old(status).Live() && offset >= size
      ensures status == if r.Ok? then Complete else old(status)
      ensures r.Err? ==> r == Err(ValueError)
    {
      if status == Complete || status == Failed || status == Aborted || offset < size {
        return Err(ValueError);
      }
      status := Complete;
      return Ok(());
    }

    /** Unguarded: it overwrites any status. */
    method MarkFailed()
      modifies this`status
      ensures status == Failed
    {
      status := Failed;
    }
  }
}
