/** The FILE_LOAD_COMPLETED event and the guards that its constructor checks. */
module Events {
  import opened Types

  datatype Event = Event(
    key: Key,
    path: string,
    checksum: Digest,
    size: int,
    uploadedAt: int,
    timestamp: int)

  const MAX_SAFE_JSON_INTEGER := 9_007_199_254_740_991

  predicate StartsWith(s: string, prefix: string) {
    |prefix| <= |s| && s[..|prefix|] == prefix
  }

  predicate OccursAt(s: string, part: string, i: int) {
    0 <= i <= |s| - |part| && s[i..i + |part|] == part
  }

  predicate Contains(s: string, part: string) {
    exists i :: 0 <= i <= |s| && OccursAt(s, part, i)
  }

  /** What __post_init__ demands; the UUID and digest formats are already in the types. */
  predicate Accepted(e: Event) {
    && 0 < e.size <= MAX_SAFE_JSON_INTEGER
    && StartsWith(e.path, "s3://")
    && Contains(e.path, "/workspace_" + e.key.ws + "/")
    && Contains(e.path, e.key.id)
    && e.uploadedAt <= e.timestamp
  }

  /** The object key inside the bucket. */
  function ObjectKey(key: Key): string {
    "workspace_" + key.ws + "/" + key.id + ".pdf"
  }

  function ObjectPath(cfg: Config, key: Key): string {
    "s3://" + cfg.bucket + "/" + ObjectKey(key)
  }

  lemma ContainedIn(before: string, part: string, after: string)
    ensures Contains(before + part + after, part)
  {
    assert OccursAt(before + part + after, part, |before|);
  }

  lemma Regroup(scheme: string, bucket: string, slash: string, tag: string, ws: string, id: string, extension: string)
    ensures scheme + bucket + slash + (tag + ws + slash + id + extension)
         == (scheme + bucket) + (slash + tag + ws + slash) + (id + extension)
         == (scheme + bucket + slash + tag + ws + slash) + id + extension
  {
  }

  /** The path that assembly returns passes every path guard of the event, whatever the bucket is called. */
  lemma AssembledPathAccepted(cfg: Config, key: Key, checksum: Digest, size: int, now: int)
    ensures Accepted(Event(key, ObjectPath(cfg, key), checksum, size, now, now)) <==> 0 < size <= MAX_SAFE_JSON_INTEGER
  {
    var path := ObjectPath(cfg, key);
    Regroup("s3://", cfg.bucket, "/", "workspace_", key.ws, key.id, ".pdf");
    assert "/" + "workspace_" == "/workspace_";
    assert path[..5] == "s3://";
    ContainedIn("s3://" + cfg.bucket, "/workspace_" + key.ws + "/", key.id + ".pdf");
    ContainedIn("s3://" + cfg.bucket + "/" + "workspace_" + key.ws + "/", key.id, ".pdf");
  }
}
