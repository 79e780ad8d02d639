/** Multipart assembly of a file on S3. */
module Storage {
  import opened Types
  import opened Events
  import opened World

  datatype Stored = Stored(path: string, size: int)

  predicate ChunksAllowed(chunks: seq<Bytes>) {
    0 < |chunks| <= MAX_PARTS && forall i :: 0 <= i < |chunks| ==> |chunks[i]| > 0
  }

  predicate SomePartFails(count: nat, failing: set<Call>) {
    exists number :: 1 <= number <= count && UploadPart(number) in failing
  }

  /** Upload ids are drawn in increasing order, so the next one is not in use. */
  predicate IdsBelowNext(s: S3State) {
    forall id :: id in s.open ==> id < s.next
  }

  /** What one call of assemble_file leaves behind and answers, as a function of the calls that raise. */
  function Assemble(cfg: Config, s: S3State, key: Key, chunks: seq<Bytes>, expected: Digest, failing: set<Call>):
      (S3State, Result<Stored>)
  {
    var file := Concat(chunks);
    if !ChunksAllowed(chunks) then (s, Err(ValueError))
    else if HeadObject in failing then (s, Err(InfrastructureError))
    else if key in s.objects then (s, Err(IntegrityError))
    else if CreateMultipart in failing then (s, Err(InfrastructureError))
    else
      var done := s.(next := s.next + 1);
      var stuck := done.(open := s.open[s.next := key]);
      if UploadIdMissing in failing then (stuck, Err(InfrastructureError))
      else if SomePartFails(|chunks|, failing) || CompleteMultipart in failing then
        (if AbortMultipart in failing then stuck else done, Err(InfrastructureError))
      else if cfg.hash(file) != expected then
        (if DeleteObject in failing then done.(objects := s.objects[key := file]) else done, Err(IntegrityError))
      else
        (done.(objects := s.objects[key := file]), Ok(Stored(ObjectPath(cfg, key), |file|)))
  }

  /** The assembly gets an upload open and then cannot close it: no id came back, or a step and the abort after it raise. */
  predicate LeavesOpen(s: S3State, key: Key, chunks: seq<Bytes>, failing: set<Call>) {
    && ChunksAllowed(chunks) && HeadObject !in failing && key !in s.objects && CreateMultipart !in failing
    && (UploadIdMissing in failing ||
        ((SomePartFails(|chunks|, failing) || CompleteMultipart in failing) && AbortMultipart in failing))
  }

  lemma AssembleAnswers(cfg: Config, s: S3State, key: Key, chunks: seq<Bytes>, expected: Digest, failing: set<Call>)
    requires IdsBelowNext(s)
    ensures var (s', r) := Assemble(cfg, s, key, chunks, expected, failing);
            r.Ok? ==>
              && key !in s.objects && key in s'.objects
              && s'.objects[key] == Concat(chunks) && cfg.hash(s'.objects[key]) == expected
              && r.value.size == |s'.objects[key]| && s'.open == s.open
  {
  }

  lemma AssembleCorrupts(cfg: Config, s: S3State, key: Key, chunks: seq<Bytes>, expected: Digest, failing: set<Call>)
    requires IdsBelowNext(s)
    ensures var (s', r) := Assemble(cfg, s, key, chunks, expected, failing);
            r.Err? && key !in s.objects && key in s'.objects ==>
              && r.error == IntegrityError && DeleteObject in failing
              && s'.objects[key] == Concat(chunks) && cfg.hash(s'.objects[key]) != expected
  {
  }

  lemma AssembleLeavesOpen(cfg: Config, s: S3State, key: Key, chunks: seq<Bytes>, expected: Digest, failing: set<Call>)
    requires IdsBelowNext(s)
    ensures var (s', r) := Assemble(cfg, s, key, chunks, expected, failing);
            && IdsBelowNext(s')
            && (s'.open != s.open <==> LeavesOpen(s, key, chunks, failing))
            && (s'.open != s.open ==>
                  s'.open == s.open[s.next := key] && s'.next == s.next + 1 && r == Err(InfrastructureError))
  {
    assert s.next !in s.open && s.next in s.open[s.next := key];
  }

  lemma AssembleTouchesOneKey(cfg: Config, s: S3State, key: Key, chunks: seq<Bytes>, expected: Digest, failing: set<Call>)
    ensures var s' := Assemble(cfg, s, key, chunks, expected, failing).0;
            && (forall k :: k != key ==> (k in s'.objects <==> k in s.objects))
            && (forall k :: k in s.objects ==> k in s'.objects && s'.objects[k] == s.objects[k])
  {
  }

  /**
   * Every exit. A return leaves the chunks joined in list order at the key, matching the digest. A raise leaves the key
   * as it was, except that a mismatch whose delete fails leaves the corrupt object there. An object already present is
   * never touched. A multipart upload stays open exactly when the create response had no id, or when a part or the
   * completion raises and then the abort raises too.
   */
  lemma AssembleExits(cfg: Config, s: S3State, key: Key, chunks: seq<Bytes>, expected: Digest, failing: set<Call>)
    requires IdsBelowNext(s)
    ensures var (s', r) := Assemble(cfg, s, key, chunks, expected, failing);
            && IdsBelowNext(s')
            && (forall k :: k != key ==> (k in s'.objects <==> k in s.objects))
            && (forall k :: k in s.objects ==> k in s'.objects && s'.objects[k] == s.objects[k])
            && (r.Ok? ==>
                  && key !in s.objects && key in s'.objects
                  && s'.objects[key] == Concat(chunks) && cfg.hash(s'.objects[key]) == expected
                  && r.value.size == |s'.objects[key]| && s'.open == s.open)
            && (r.Err? && key !in s.objects && key in s'.objects ==>
                  && r.error == IntegrityError && DeleteObject in failing
                  && s'.objects[key] == Concat(chunks) && cfg.hash(s'.objects[key]) != expected)
            && (s'.open != s.open <==> LeavesOpen(s, key, chunks, failing))
            && (s'.open != s.open ==>
                  s'.open == s.open[s.next := key] && s'.next == s.next + 1 && r == Err(InfrastructureError))
  {
    AssembleAnswers(cfg, s, key, chunks, expected, failing);
    AssembleCorrupts(cfg, s, key, chunks, expected, failing);
    AssembleLeavesOpen(cfg, s, key, chunks, expected, failing);
    AssembleTouchesOneKey(cfg, s, key, chunks, expected, failing);
  }

  class S3StorageClient {
    const cfg: Config
    /** The order in which the parallel part uploads of an n-part file finish. */
    const finishing: nat -> seq<nat>
    var objects: map<Key, Bytes>
    var open: map<nat, Key>
    var next: nat
    var parts: map<(nat, nat), Bytes>

    function State(): S3State
      reads this
    {
      S3State(objects, open, next)
    }

    ghost predicate Valid()
      reads this
    {
      IdsBelowNext(State()) && forall n: nat :: EveryPartRuns(finishing(n), n)
    }

    static ghost predicate EveryPartRuns(order: seq<nat>, n: nat) {
      && (forall j :: 0 <= j < |order| ==> 1 <= order[j] <= n)
      && (forall number :: 1 <= number <= n ==> number in order)
    }

    constructor (cfg: Config, finishing: nat -> seq<nat>)
      requires forall n: nat :: EveryPartRuns(finishing(n), n)
      ensures Valid() && this.cfg == cfg
      ensures State() == S3State(map[], map[], 0)
    {
      this.cfg, this.finishing := cfg, finishing;
      objects, open, next, parts := map[], map[], 0, map[];
    }

    /** gather: the part uploads run in any order, and one that raises fails the whole. */
    method UploadParts(upload: nat, chunks: seq<Bytes>, failing: set<Call>) returns (uploaded: bool)
      requires Valid()
      modifies this`parts
      ensures uploaded <==> !SomePartFails(|chunks|, failing)
      ensures uploaded ==>
                forall number :: 1 <= number <= |chunks| ==>
                  (upload, number) in parts && parts[(upload, number)] == chunks[number - 1]
    {
      var order := finishing(|chunks|);
      uploaded := true;
      for j := 0 to |order|
        invariant uploaded <==> forall i :: 0 <= i < j ==> UploadPart(order[i]) !in failing
        invariant uploaded ==> forall i :: 0 <= i < j ==>
                    (upload, order[i]) in parts && parts[(upload, order[i])] == chunks[order[i] - 1]
      {
        var number := order[j];
        if UploadPart(number) in failing {
          uploaded := false;
        } else {
          parts := parts[(upload, number) := chunks[number - 1]];
        }
      }
      forall number | 1 <= number <= |chunks|
        ensures uploaded ==> UploadPart(number) !in failing
        ensures uploaded ==> (upload, number) in parts && parts[(upload, number)] == chunks[number - 1]
      {
        assert number in order;
      }
    }

    /** The server side of complete_multipart_upload: the parts in the order of the list it is given. */
    method JoinParts(upload: nat, chunks: seq<Bytes>) returns (joined: Bytes)
      requires forall number :: 1 <= number <= |chunks| ==>
                 (upload, number) in parts && parts[(upload, number)] == chunks[number - 1]
      ensures joined == Concat(chunks)
    {
      joined := [];
      for i := 0 to |chunks|
        invariant joined == Concat(chunks[..i])
      {
        assert chunks[..i + 1] == chunks[..i] + [chunks[i]];
        ConcatAppend(chunks[..i], chunks[i]);
        joined := joined + parts[(upload, i + 1)];
      }
      assert chunks[..|chunks|] == chunks;
    }

    /** One pass over the chunks feeds the hasher and adds up the size. */
    method DigestAndSize(chunks: seq<Bytes>) returns (computed: Digest, totalSize: nat)
      ensures computed == cfg.hash(Concat(chunks)) && totalSize == |Concat(chunks)|
    {
      var fed: Bytes;
      fed, totalSize := [], 0;
      for i := 0 to |chunks|
        invariant fed == Concat(chunks[..i]) && totalSize == |fed|
      {
        assert chunks[..i + 1] == chunks[..i] + [chunks[i]];
        ConcatAppend(chunks[..i], chunks[i]);
        fed := fed + chunks[i];
        totalSize := totalSize + |chunks[i]|;
      }
      assert chunks[..|chunks|] == chunks;
      computed := cfg.hash(fed);
    }

    method AssembleFile(key: Key, chunks: seq<Bytes>, expected: Digest, failing: set<Call>) returns (r: Result<Stored>)
      requires Valid()
      modifies this
      ensures Valid()
      ensures (State(), r) == Assemble(cfg, old(State()), key, chunks, expected, failing)
    {
      if !ChunksAllowed(chunks) {
        return Err(ValueError);
      }

      var computed, totalSize := DigestAndSize(chunks);

      if HeadObject in failing {
        return Err(InfrastructureError);
      }
      if key in objects {
        return Err(IntegrityError);
      }
      if CreateMultipart in failing {
        return Err(InfrastructureError);
      }
      r := MultipartUpload(key, chunks, computed, totalSize, expected, failing);
    }

    /** From the create on: upload the parts, join them, and check the digest. */
    method MultipartUpload(key: Key, chunks: seq<Bytes>, computed: Digest, totalSize: nat, expected: Digest,
                           failing: set<Call>)
      returns (r: Result<Stored>)
      requires Valid()
      requires ChunksAllowed(chunks) && HeadObject !in failing && key !in objects && CreateMultipart !in failing
      requires computed == cfg.hash(Concat(chunks)) && totalSize == |Concat(chunks)|
      modifies this
      ensures Valid()
      ensures (State(), r) == Assemble(cfg, old(State()), key, chunks, expected, failing)
    {
      var upload := next;
      open, next := open[upload := key], next + 1;
      if UploadIdMissing in failing {
        return Err(InfrastructureError);
      }
      assert open - {upload} == old(open);
      var uploaded := UploadParts(upload, chunks, failing);
      if !uploaded || CompleteMultipart in failing {
        if AbortMultipart !in failing {
          open := open - {upload};
        }
        return Err(InfrastructureError);
      }
      var file := JoinParts(upload, chunks);
      objects, open := objects[key := file], open - {upload};
      if computed != expected {
        if DeleteObject !in failing {
          objects := objects - {key};
          assert objects == old(objects);
        }
        return Err(IntegrityError);
      }
      return Ok(Stored(ObjectPath(cfg, key), totalSize));
    }
  }
}
