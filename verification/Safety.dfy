/** Completion over whole runs: what is published is genuine, is published once, and stays. */
module Safety {
  import opened Types
  import opened Events
  import opened World
  import opened Protocol
  import opened Sessions
  import opened Publication
  import opened Shapes
  import opened Actions

  lemma StepGrows(cfg: Config, w: World, a: Action)
    requires Inv(cfg, w)
    ensures Grown(w, Apply(cfg, w, a))
  {
    KeyedRightAll(cfg, w.redis);
    if a.Finish? {
      CompleteShape(cfg, w, a.key, a.failing);
    }
  }

  /** No object is ever removed or changed once an operation has ended, and no call or delivery is forgotten. */
  lemma {:induction false} RunGrows(cfg: Config, now: int, acts: seq<Action>, more: seq<Action>)
    requires UniqueIds(acts + more)
    ensures Grown(Run(cfg, Empty(now), acts), Run(cfg, Empty(now), acts + more))
  {
    if more == [] {
      assert acts + more == acts;
    } else {
      var init, last := more[..|more| - 1], more[|more| - 1];
      assert acts + more == (acts + init) + [last];
      assert (acts + more)[..|acts + more| - 1] == acts + init;
      UniquePrefix(acts + init, [last]);
      RunGrows(cfg, now, acts, init);
      RunKeepsInv(cfg, now, acts + init);
      StepGrows(cfg, Run(cfg, Empty(now), acts + init), last);
    }
  }

  lemma EventOfComplete(cfg: Config, w: World, key: Key) returns (e: Event)
    requires PublicationOk(cfg, w)
    requires key in w.redis.sessions && w.redis.sessions[key].value.status == Status.Complete
    ensures var s := w.redis.sessions[key].value;
            && s.offset == s.size
            && e in w.bus.delivered && e.key == key && e.checksum == s.checksum && e.size == s.size
            && Genuine(cfg, w.s3, e)
  {
    var s := w.redis.sessions[key].value;
    assert Announced(w.bus, key, s.checksum, s.size);
    e :| e in w.bus.delivered && e.key == key && e.checksum == s.checksum && e.size == s.size;
  }

  lemma GrownKeepsEvent(cfg: Config, w: World, later: World, e: Event)
    requires Grown(w, later) && e in w.bus.delivered && Genuine(cfg, w.s3, e)
    ensures e in later.bus.delivered && Genuine(cfg, later.s3, e)
    ensures Announced(later.bus, e.key, e.checksum, e.size)
  {
    assert later.bus.delivered[..|w.bus.delivered|] == w.bus.delivered;
  }

  /**
   * If a session is COMPLETE at some point of a run, then there and in every later state all its bytes were received,
   * its event has been delivered, and its object exists, has the session's size and hashes to the session's digest.
   */
  lemma CompletionSafety(cfg: Config, now: int, acts: seq<Action>, more: seq<Action>, key: Key)
    requires UniqueIds(acts + more)
    requires key in Run(cfg, Empty(now), acts).redis.sessions
    requires Run(cfg, Empty(now), acts).redis.sessions[key].value.status == Status.Complete
    ensures var s := Run(cfg, Empty(now), acts).redis.sessions[key].value;
            var later := Run(cfg, Empty(now), acts + more);
            && s.offset == s.size
            && Announced(later.bus, key, s.checksum, s.size)
            && key in later.s3.objects
            && |later.s3.objects[key]| == s.size && cfg.hash(later.s3.objects[key]) == s.checksum
  {
    UniquePrefix(acts, more);
    RunKeepsInv(cfg, now, acts);
    RunGrows(cfg, now, acts, more);
    var e := EventOfComplete(cfg, Run(cfg, Empty(now), acts), key);
    GrownKeepsEvent(cfg, Run(cfg, Empty(now), acts), Run(cfg, Empty(now), acts + more), e);
  }

  /**
   * However often completion is retried and whatever fails, publish is called at most once for each session; at the
   * call and ever after, the object it announces is there, unchanged and not corrupt; only what was called is delivered.
   */
  lemma PublishedAtMostOnce(cfg: Config, now: int, acts: seq<Action>, more: seq<Action>)
    requires UniqueIds(acts + more)
    ensures var w, later := Run(cfg, Empty(now), acts), Run(cfg, Empty(now), acts + more);
            && (forall i, j :: 0 <= i < j < |later.bus.calls| ==> later.bus.calls[i].key != later.bus.calls[j].key)
            && (forall e :: e in w.bus.calls ==>
                  && e.key in w.s3.objects && e.key in later.s3.objects
                  && later.s3.objects[e.key] == w.s3.objects[e.key]
                  && |later.s3.objects[e.key]| == e.size && cfg.hash(later.s3.objects[e.key]) == e.checksum)
            && (forall e :: e in later.bus.delivered ==> e in later.bus.calls)
  {
    var w := Run(cfg, Empty(now), acts);
    UniquePrefix(acts, more);
    RunKeepsInv(cfg, now, acts);
    RunKeepsInv(cfg, now, acts + more);
    RunGrows(cfg, now, acts, more);
    forall e | e in w.bus.calls ensures Genuine(cfg, w.s3, e) {
    }
  }

  lemma EventOfFingerprint(cfg: Config, w: World, f: Fingerprint) returns (e: Event)
    requires PublicationOk(cfg, w) && f in w.redis.dedup
    ensures var m := w.redis.dedup[f];
            && e in w.bus.delivered && e.key == Key(f.ws, m.fileId) && e.checksum == f.checksum && e.size == m.size
            && m.path == ObjectPath(cfg, e.key) && Genuine(cfg, w.s3, e)
  {
    var m := w.redis.dedup[f];
    assert FingerprintOk(cfg, w.bus, f, m);
    e :| e in w.bus.delivered && e.key == Key(f.ws, m.fileId) && e.checksum == f.checksum && e.size == m.size;
  }

  /**
   * Fingerprints are sound under all failures: what a workspace's fingerprint points to is a file of that workspace
   * whose event has been delivered and whose object is there, with that digest and that size, then and ever after.
   */
  lemma FingerprintsAreSound(cfg: Config, now: int, acts: seq<Action>, more: seq<Action>, f: Fingerprint)
    requires UniqueIds(acts + more)
    requires f in Run(cfg, Empty(now), acts).redis.dedup
    ensures var m := Run(cfg, Empty(now), acts).redis.dedup[f];
            var key := Key(f.ws, m.fileId);
            var later := Run(cfg, Empty(now), acts + more);
            && m.path == ObjectPath(cfg, key) && Announced(later.bus, key, f.checksum, m.size)
            && key in later.s3.objects
            && |later.s3.objects[key]| == m.size && cfg.hash(later.s3.objects[key]) == f.checksum
  {
    UniquePrefix(acts, more);
    RunKeepsInv(cfg, now, acts);
    RunGrows(cfg, now, acts, more);
    var e := EventOfFingerprint(cfg, Run(cfg, Empty(now), acts), f);
    GrownKeepsEvent(cfg, Run(cfg, Empty(now), acts), Run(cfg, Empty(now), acts + more), e);
  }

  /** One chunk of the manifest of a live session. */
  lemma ListedChunk(cfg: Config, r: RedisState, key: Key, i: nat)
    requires SessionsOk(cfg, r)
    requires key in r.sessions && r.sessions[key].value.status.Live() && i < |r.sessions[key].value.manifest|
    ensures var m := r.sessions[key].value.manifest[i];
            var c := ChunkKey(key, i);
            && m.index == i && c in r.chunks
            && |r.chunks[c].value| == m.size && cfg.hash(r.chunks[c].value) == m.checksum
            && r.now < r.sessions[key].deadline <= r.chunks[c].deadline
  {
    assert SessionOk(cfg, r, key) && ChunkBacked(cfg, r, key, i);
  }

  lemma LiveRecord(cfg: Config, r: RedisState, key: Key)
    requires SessionsOk(cfg, r)
    requires key in r.sessions && r.sessions[key].value.status.Live()
    ensures var s := r.sessions[key].value;
            && Total(s.manifest) == s.offset <= s.size
            && forall c :: c in r.chunks && c.key == key ==> 0 <= c.index <= |s.manifest|
  {
    assert SessionOk(cfg, r, key);
  }

  /**
   * What a live session record says about the chunks stored beside it: indices 0..n-1 in order, sizes that add up to
   * the offset, sizes and digests those of the stored bytes, and at most one more chunk, at index n. The chunks listed
   * expire no earlier than the session does.
   */
  lemma AppendInvariant(cfg: Config, now: int, acts: seq<Action>, key: Key)
    requires UniqueIds(acts)
    requires key in Run(cfg, Empty(now), acts).redis.sessions
    requires Run(cfg, Empty(now), acts).redis.sessions[key].value.status.Live()
    ensures var r := Run(cfg, Empty(now), acts).redis;
            var s := r.sessions[key].value;
            && Total(s.manifest) == s.offset <= s.size
            && (forall i :: 0 <= i < |s.manifest| ==>
                  && s.manifest[i].index == i && ChunkKey(key, i) in r.chunks
                  && |r.chunks[ChunkKey(key, i)].value| == s.manifest[i].size
                  && cfg.hash(r.chunks[ChunkKey(key, i)].value) == s.manifest[i].checksum
                  && r.sessions[key].deadline <= r.chunks[ChunkKey(key, i)].deadline)
            && (forall c :: c in r.chunks && c.key == key ==> 0 <= c.index <= |s.manifest|)
  {
    RunKeepsInv(cfg, now, acts);
    var r := Run(cfg, Empty(now), acts).redis;
    LiveRecord(cfg, r, key);
    var manifest := r.sessions[key].value.manifest;
    forall i | 0 <= i < |manifest|
      ensures && manifest[i].index == i && ChunkKey(key, i) in r.chunks
              && |r.chunks[ChunkKey(key, i)].value| == manifest[i].size
              && cfg.hash(r.chunks[ChunkKey(key, i)].value) == manifest[i].checksum
              && r.sessions[key].deadline <= r.chunks[ChunkKey(key, i)].deadline
    {
      ListedChunk(cfg, r, key, i);
    }
  }

  /**
   * So no completion is ever refused because a chunk is missing: after the state checks of an IN_PROGRESS session whose
   * bytes are all received, only a failing read stands between the request and the assembly.
   */
  lemma NoChunkIsMissing(cfg: Config, now: int, acts: seq<Action>, key: Key, failing: set<Call>)
    requires UniqueIds(acts)
    requires key in Run(cfg, Empty(now), acts).redis.sessions && GetSession !in failing
    ensures var r := Run(cfg, Empty(now), acts).redis;
            var s := r.sessions[key].value;
            var c := CheckComplete(r, key, failing);
            && (c == Refused(InvalidSessionState) <==> s.status != InProgress || s.offset != s.size)
            && (c.Broken? <==>
                  s.status == InProgress && s.offset == s.size && SomeReadFails(|s.manifest|, failing))
            && (c.Ready? <==>
                  s.status == InProgress && s.offset == s.size && !SomeReadFails(|s.manifest|, failing))
  {
    RunKeepsInv(cfg, now, acts);
    CheckCompleteOutcome(cfg, Run(cfg, Empty(now), acts).redis, key, failing);
  }
}
