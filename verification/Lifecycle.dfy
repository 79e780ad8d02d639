/** How a persisted session record can change over a run, and what a lookup answers at every age. */
module Lifecycle {
  import opened Types
  import opened World
  import opened SessionStore
  import opened Storage
  import opened Protocol
  import opened Sessions
  import opened Shapes
  import opened Actions

  // ---- Records ----

  predicate StatusStep(before: Status, after: Status) {
    || before == after
    || (before == Pending && (after == InProgress || after == Aborted))
    || (before == InProgress && !after.Live())
  }

  /** The reflexive and transitive closure of the above. */
  predicate StatusReaches(before: Status, after: Status) {
    before == after || before == Pending || (before == InProgress && !after.Live())
  }

  /** Everything but offset, status and manifest is fixed; those only advance, and nothing moves after the end. */
  predicate Advances(before: Timed<Session>, after: Timed<Session>) {
    var s, s' := before.value, after.value;
    && after.deadline == before.deadline
    && s' == s.(offset := s'.offset, status := s'.status, manifest := s'.manifest)
    && s.offset <= s'.offset && s.manifest <= s'.manifest
    && StatusReaches(s.status, s'.status)
    && (!s.status.Live() ==> s' == s)
  }

  predicate AdvancesStep(r: RedisState, r': RedisState, key: Key) {
    key in r'.sessions ==>
      && key in r.sessions && Advances(r.sessions[key], r'.sessions[key])
      && StatusStep(r.sessions[key].value.status, r'.sessions[key].value.status)
  }

  lemma SendAdvances(cfg: Config, r: RedisState, patch: PatchRequest, failing: set<Call>, key: Key)
    requires KeyedRight(r) && (key in r.sessions ==> WellFormed(r.sessions[key].value))
    ensures AdvancesStep(r, ProcessChunk(cfg, r, patch, failing).0, key)
  {
    ProcessChunkShape(cfg, r, patch, failing);
  }

  lemma CancelAdvances(r: RedisState, k: Key, failing: set<Call>, key: Key)
    requires KeyedRight(r)
    ensures AdvancesStep(r, AbortUpload(r, k, failing).0, key)
  {
    AbortShape(r, k, failing);
  }

  lemma FinishAdvances(cfg: Config, w: World, k: Key, failing: set<Call>, key: Key)
    requires KeyedRight(w.redis) && IdsBelowNext(w.s3)
    ensures AdvancesStep(w.redis, CompleteUpload(cfg, w, k, failing).0.redis, key)
  {
    CompleteShape(cfg, w, k, failing);
  }

  /** One operation moves a record by at most one step of PENDING, IN_PROGRESS, end or PENDING, ABORTED. */
  lemma StepAdvances(cfg: Config, w: World, a: Action, key: Key)
    requires Inv(cfg, w)
    requires a.Start? ==> a.key != key
    ensures AdvancesStep(w.redis, Apply(cfg, w, a).redis, key)
  {
    KeyedRightAll(cfg, w.redis);
    assert key in w.redis.sessions ==> SessionOk(cfg, w.redis, key);
    match a
    case Start(k, request, failing) => InitiateShape(cfg, w.redis, k, request, failing);
    case Send(patch, failing) => SendAdvances(cfg, w.redis, patch, failing, key);
    case Cancel(k, failing) => CancelAdvances(w.redis, k, failing, key);
    case Finish(k, failing) => FinishAdvances(cfg, w, k, failing, key);
    case Wait(_) =>
    case ResetCounter(_) =>
  }

  lemma StartedPrefix(acts: seq<Action>, more: seq<Action>)
    ensures Started(acts) <= Started(acts + more)
  {
    forall id | id in Started(acts) ensures id in Started(acts + more) {
      var a :| a in acts && id in StartedBy(a);
      assert a in acts + more;
    }
  }

  lemma RecordWasStarted(cfg: Config, now: int, acts: seq<Action>, key: Key)
    requires UniqueIds(acts) && key in Run(cfg, Empty(now), acts).redis.sessions
    ensures key.id in Started(acts)
  {
    RunKeepsInv(cfg, now, acts);
  }

  lemma RunStepAdvances(cfg: Config, now: int, acts: seq<Action>, last: Action, key: Key)
    requires UniqueIds(acts + [last]) && key.id in Started(acts)
    ensures Run(cfg, Empty(now), acts + [last]) == Apply(cfg, Run(cfg, Empty(now), acts), last)
    ensures AdvancesStep(Run(cfg, Empty(now), acts).redis, Run(cfg, Empty(now), acts + [last]).redis, key)
  {
    assert (acts + [last])[..|acts|] == acts;
    LastIdIsNew(acts + [last]);
    RunKeepsInv(cfg, now, acts);
    StepAdvances(cfg, Run(cfg, Empty(now), acts), last, key);
  }

  lemma AdvancesTransitive(a: Timed<Session>, b: Timed<Session>, c: Timed<Session>)
    requires Advances(a, b) && Advances(b, c)
    ensures Advances(a, c)
  {
  }

  /** A record seen at two points of a run is one upload's, and has only advanced in between. */
  lemma {:induction false} RecordsOnlyAdvance(cfg: Config, now: int, acts: seq<Action>, more: seq<Action>, key: Key)
    requires UniqueIds(acts + more)
    requires key in Run(cfg, Empty(now), acts).redis.sessions
    requires key in Run(cfg, Empty(now), acts + more).redis.sessions
    ensures Advances(Run(cfg, Empty(now), acts).redis.sessions[key],
                     Run(cfg, Empty(now), acts + more).redis.sessions[key])
  {
    if more == [] {
      assert acts + more == acts;
    } else {
      var init, last := more[..|more| - 1], more[|more| - 1];
      assert acts + more == (acts + init) + [last];
      UniquePrefix(acts + init, [last]);
      UniquePrefix(acts, init);
      RecordWasStarted(cfg, now, acts, key);
      StartedPrefix(acts, init);
      RunStepAdvances(cfg, now, acts + init, last, key);
      RecordsOnlyAdvance(cfg, now, acts, init, key);
      AdvancesTransitive(Run(cfg, Empty(now), acts).redis.sessions[key],
                         Run(cfg, Empty(now), acts + init).redis.sessions[key],
                         Run(cfg, Empty(now), acts + more).redis.sessions[key]);
    }
  }

  // ---- Lookups ----

  /** Has an abort of this upload succeeded in the course of these actions? */
  predicate WasAborted(cfg: Config, w: World, acts: seq<Action>, key: Key) {
    acts != [] &&
    var init, last := acts[..|acts| - 1], acts[|acts| - 1];
    WasAborted(cfg, w, init, key) ||
    (last.Cancel? && last.key == key && Succeeds(cfg, Run(cfg, w, init), last))
  }

  /** The record is there exactly until it expires or is aborted, and no other record shares its id. */
  predicate RecordAged(r: RedisState, key: Key, born: int, aborted: bool) {
    && (key in r.sessions <==> !aborted && r.now < born + SESSION_TTL)
    && (key in r.sessions ==> r.sessions[key].deadline == born + SESSION_TTL && r.sessions[key].value.createdAt == born)
    && (forall k :: k in r.sessions && k.id == key.id ==> k == key)
  }

  predicate NoteAged(r: RedisState, key: Key, note: ExpiryMeta, born: int, aborted: bool) {
    && (key.id in r.expiry <==> !aborted && r.now < born + EXPIRY_TTL)
    && (key.id in r.expiry ==> r.expiry[key.id] == Timed(note, born + EXPIRY_TTL))
  }

  predicate Aged(r: RedisState, key: Key, note: ExpiryMeta, born: int, aborted: bool) {
    born <= r.now && RecordAged(r, key, born, aborted) && NoteAged(r, key, note, born, aborted)
  }

  lemma StartAged(cfg: Config, r: RedisState, k: Key, request: UploadRequest, failing: set<Call>,
                  key: Key, note: ExpiryMeta, born: int, aborted: bool)
    requires Aged(r, key, note, born, aborted) && k.id != key.id
    ensures Aged(InitiateUpload(cfg, r, k, request, failing).0, key, note, born, aborted)
  {
    InitiateShape(cfg, r, k, request, failing);
  }

  lemma SendAged(cfg: Config, r: RedisState, patch: PatchRequest, failing: set<Call>,
                 key: Key, note: ExpiryMeta, born: int, aborted: bool)
    requires KeyedRight(r) && Aged(r, key, note, born, aborted)
    ensures Aged(ProcessChunk(cfg, r, patch, failing).0, key, note, born, aborted)
  {
    ProcessChunkShape(cfg, r, patch, failing);
  }

  lemma CancelAged(r: RedisState, k: Key, failing: set<Call>, key: Key, note: ExpiryMeta, born: int, aborted: bool)
    requires KeyedRight(r) && Aged(r, key, note, born, aborted)
    ensures var (r', answer) := AbortUpload(r, k, failing);
            Aged(r', key, note, born, aborted || (k == key && answer.Ok?))
  {
    AbortShape(r, k, failing);
  }

  lemma FinishAged(cfg: Config, w: World, k: Key, failing: set<Call>, key: Key, note: ExpiryMeta, born: int, aborted: bool)
    requires KeyedRight(w.redis) && IdsBelowNext(w.s3) && Aged(w.redis, key, note, born, aborted)
    ensures Aged(CompleteUpload(cfg, w, k, failing).0.redis, key, note, born, aborted)
  {
    CompleteShape(cfg, w, k, failing);
  }

  lemma StepAged(cfg: Config, w: World, a: Action, key: Key, note: ExpiryMeta, born: int, aborted: bool)
    requires Inv(cfg, w) && Aged(w.redis, key, note, born, aborted)
    requires a.Start? ==> a.key.id != key.id
    ensures Aged(Apply(cfg, w, a).redis, key, note, born,
                 aborted || (a.Cancel? && a.key == key && Succeeds(cfg, w, a)))
  {
    KeyedRightAll(cfg, w.redis);
    match a
    case Start(k, request, failing) => StartAged(cfg, w.redis, k, request, failing, key, note, born, aborted);
    case Send(patch, failing) => SendAged(cfg, w.redis, patch, failing, key, note, born, aborted);
    case Cancel(k, failing) => CancelAged(w.redis, k, failing, key, note, born, aborted);
    case Finish(k, failing) => FinishAged(cfg, w, k, failing, key, note, born, aborted);
    case Wait(_) =>
    case ResetCounter(_) =>
  }

  /** The world right after an upload was started with success. */
  lemma StartedAged(cfg: Config, now: int, acts: seq<Action>)
    requires UniqueIds(acts) && acts != [] && acts[|acts| - 1].Start?
    requires Succeeds(cfg, Run(cfg, Empty(now), acts[..|acts| - 1]), acts[|acts| - 1])
    ensures var a := acts[|acts| - 1];
            var r := Run(cfg, Empty(now), acts).redis;
            Aged(r, a.key, ExpiryMeta(a.key.ws, a.key.id, r.now + SESSION_TTL, a.request.filename), r.now, false)
  {
    var init, a := acts[..|acts| - 1], acts[|acts| - 1];
    LastIdIsNew(acts);
    RunKeepsInv(cfg, now, init);
    InitiateShape(cfg, Run(cfg, Empty(now), init).redis, a.key, a.request, a.failing);
  }

  lemma RunStepAged(cfg: Config, now: int, acts: seq<Action>, last: Action,
                    key: Key, note: ExpiryMeta, born: int, aborted: bool)
    requires UniqueIds(acts + [last]) && key.id in Started(acts)
    requires Aged(Run(cfg, Empty(now), acts).redis, key, note, born, aborted)
    ensures Aged(Run(cfg, Empty(now), acts + [last]).redis, key, note, born,
                 aborted || (last.Cancel? && last.key == key && Succeeds(cfg, Run(cfg, Empty(now), acts), last)))
  {
    assert (acts + [last])[..|acts|] == acts;
    LastIdIsNew(acts + [last]);
    RunKeepsInv(cfg, now, acts);
    StepAged(cfg, Run(cfg, Empty(now), acts), last, key, note, born, aborted);
  }

  lemma {:induction false} RunAged(cfg: Config, now: int, acts: seq<Action>, more: seq<Action>,
                                   key: Key, note: ExpiryMeta, born: int)
    requires UniqueIds(acts + more) && key.id in Started(acts)
    requires Aged(Run(cfg, Empty(now), acts).redis, key, note, born, false)
    ensures Aged(Run(cfg, Empty(now), acts + more).redis, key, note, born,
                 WasAborted(cfg, Run(cfg, Empty(now), acts), more, key))
  {
    if more == [] {
      assert acts + more == acts;
    } else {
      var init, last := more[..|more| - 1], more[|more| - 1];
      assert acts + more == (acts + init) + [last];
      UniquePrefix(acts + init, [last]);
      StartedPrefix(acts, init);
      RunAged(cfg, now, acts, init, key, note, born);
      RunAppend(cfg, Empty(now), acts, init);
      RunStepAged(cfg, now, acts + init, last, key, note, born,
                  WasAborted(cfg, Run(cfg, Empty(now), acts), init, key));
    }
  }

  lemma LookupOfAged(r: RedisState, key: Key, note: ExpiryMeta, born: int, aborted: bool)
    requires Aged(r, key, note, born, aborted) && note.ws == key.ws
    ensures var age := r.now - born;
            var (session, found) := Lookup(r, key);
            && 0 <= age
            && if aborted then session == None && found == None
               else if age < 86_400 then
                 key in r.sessions && session == Some(r.sessions[key].value) && found == None
               else if age < 604_800 then session == None && found == Some(note)
               else session == None && found == None
  {
  }

  lemma LastIsStarted(acts: seq<Action>)
    requires acts != [] && acts[|acts| - 1].Start?
    ensures acts[|acts| - 1].key.id in Started(acts)
  {
    var a := acts[|acts| - 1];
    assert a in acts && a.key.id in StartedBy(a);
  }

  function NoteOf(a: Action, born: int): ExpiryMeta
    requires a.Start?
  {
    ExpiryMeta(a.key.ws, a.key.id, born + 86_400, a.request.filename)
  }

  lemma AgedAfterStart(cfg: Config, now: int, acts: seq<Action>, more: seq<Action>)
    requires UniqueIds(acts + more) && acts != [] && acts[|acts| - 1].Start?
    requires Succeeds(cfg, Run(cfg, Empty(now), acts[..|acts| - 1]), acts[|acts| - 1])
    ensures var a, started := acts[|acts| - 1], Run(cfg, Empty(now), acts);
            Aged(Run(cfg, Empty(now), acts + more).redis, a.key, NoteOf(a, started.redis.now), started.redis.now,
                 WasAborted(cfg, started, more, a.key))
  {
    var a, born := acts[|acts| - 1], Run(cfg, Empty(now), acts).redis.now;
    assert UniqueIds(acts) by {
      UniquePrefix(acts, more);
    }
    assert Aged(Run(cfg, Empty(now), acts).redis, a.key, NoteOf(a, born), born, false) by {
      StartedAged(cfg, now, acts);
    }
    assert a.key.id in Started(acts) by {
      LastIsStarted(acts);
    }
    RunAged(cfg, now, acts, more, a.key, NoteOf(a, born), born);
  }

  /**
   * What a client learns about an upload at any age, whatever has happened since it was started: the record for one
   * day, then for six more days only the note that it expired, then nothing; and nothing once it has been aborted.
   */
  lemma LookupByAge(cfg: Config, now: int, acts: seq<Action>, more: seq<Action>)
    requires UniqueIds(acts + more) && acts != [] && acts[|acts| - 1].Start?
    requires Succeeds(cfg, Run(cfg, Empty(now), acts[..|acts| - 1]), acts[|acts| - 1])
    ensures var a := acts[|acts| - 1];
            var started, later := Run(cfg, Empty(now), acts), Run(cfg, Empty(now), acts + more);
            var age := later.redis.now - started.redis.now;
            var (session, note) := Lookup(later.redis, a.key);
            && 0 <= age
            && if WasAborted(cfg, started, more, a.key) then session == None && note == None
               else if age < 86_400 then
                 a.key in later.redis.sessions && session == Some(later.redis.sessions[a.key].value) && note == None
               else if age < 604_800 then
                 session == None &&
                 note == Some(ExpiryMeta(a.key.ws, a.key.id, started.redis.now + 86_400, a.request.filename))
               else session == None && note == None
  {
    var a, started := acts[|acts| - 1], Run(cfg, Empty(now), acts);
    var aborted := WasAborted(cfg, started, more, a.key);
    AgedAfterStart(cfg, now, acts, more);
    LookupOfAged(Run(cfg, Empty(now), acts + more).redis, a.key, NoteOf(a, started.redis.now), started.redis.now, aborted);
  }

  // ---- The offset that HEAD reports ----

  /** None of these actions is an accepted PATCH of this upload. */
  predicate NoSendAccepted(cfg: Config, w: World, acts: seq<Action>, key: Key) {
    acts != [] ==>
      var init, last := acts[..|acts| - 1], acts[|acts| - 1];
      && NoSendAccepted(cfg, w, init, key)
      && !(last.Send? && last.patch.key == key && Succeeds(cfg, Run(cfg, w, init), last))
  }

  predicate SameOffset(r: RedisState, r': RedisState, key: Key) {
    key in r'.sessions ==> key in r.sessions && r'.sessions[key].value.offset == r.sessions[key].value.offset
  }

  lemma SendKeepsOffset(cfg: Config, r: RedisState, q: PatchRequest, failing: set<Call>, key: Key)
    requires KeyedRight(r)
    requires q.key == key ==> ProcessChunk(cfg, r, q, failing).1.Err?
    ensures SameOffset(r, ProcessChunk(cfg, r, q, failing).0, key)
  {
    ProcessChunkShape(cfg, r, q, failing);
  }

  lemma CancelKeepsOffset(r: RedisState, k: Key, failing: set<Call>, key: Key)
    requires KeyedRight(r)
    ensures SameOffset(r, AbortUpload(r, k, failing).0, key)
  {
    AbortShape(r, k, failing);
  }

  lemma FinishKeepsOffset(cfg: Config, w: World, k: Key, failing: set<Call>, key: Key)
    requires KeyedRight(w.redis) && IdsBelowNext(w.s3)
    ensures SameOffset(w.redis, CompleteUpload(cfg, w, k, failing).0.redis, key)
  {
    CompleteShape(cfg, w, k, failing);
  }

  lemma StepKeepsOffset(cfg: Config, w: World, a: Action, key: Key)
    requires Inv(cfg, w)
    requires a.Start? ==> a.key != key
    requires a.Send? && a.patch.key == key ==> !Succeeds(cfg, w, a)
    ensures SameOffset(w.redis, Apply(cfg, w, a).redis, key)
  {
    KeyedRightAll(cfg, w.redis);
    match a
    case Start(k, request, failing) => InitiateShape(cfg, w.redis, k, request, failing);
    case Send(patch, failing) => SendKeepsOffset(cfg, w.redis, patch, failing, key);
    case Cancel(k, failing) => CancelKeepsOffset(w.redis, k, failing, key);
    case Finish(k, failing) => FinishKeepsOffset(cfg, w, k, failing, key);
    case Wait(_) =>
    case ResetCounter(_) =>
  }

  lemma {:induction false} RunKeepsOffset(cfg: Config, now: int, acts: seq<Action>, more: seq<Action>, key: Key)
    requires UniqueIds(acts + more) && key.id in Started(acts)
    requires NoSendAccepted(cfg, Run(cfg, Empty(now), acts), more, key)
    ensures SameOffset(Run(cfg, Empty(now), acts).redis, Run(cfg, Empty(now), acts + more).redis, key)
  {
    if more == [] {
      assert acts + more == acts;
    } else {
      var init, last := more[..|more| - 1], more[|more| - 1];
      assert acts + more == (acts + init) + [last];
      UniquePrefix(acts + init, [last]);
      StartedPrefix(acts, init);
      RunKeepsOffset(cfg, now, acts, init, key);
      RunAppend(cfg, Empty(now), acts, init);
      RunOne(cfg, Empty(now), acts + init, last);
      assert (acts + more)[..|acts + more| - 1] == acts + init;
      LastIdIsNew(acts + more);
      RunKeepsInv(cfg, now, acts + init);
      StepKeepsOffset(cfg, Run(cfg, Empty(now), acts + init), last, key);
    }
  }

  lemma AcceptedOffset(cfg: Config, r: RedisState, q: PatchRequest, failing: set<Call>)
    requires KeyedRight(r) && ProcessChunk(cfg, r, q, failing).1.Ok?
    ensures var (r', answer) := ProcessChunk(cfg, r, q, failing);
            && answer == Ok(q.offset + |q.data|) && q.key in r.sessions
            && q.key in r'.sessions && r'.sessions[q.key].value.offset == q.offset + |q.data|
  {
    ProcessChunkShape(cfg, r, q, failing);
  }

  /**
   * After a PATCH was answered with an offset, and until another PATCH of this upload is accepted, a HEAD that finds the
   * session reports that offset, whatever else happens: refused PATCHes, raising calls, other operations, time.
   */
  lemma HeadAfterSend(cfg: Config, now: int, acts: seq<Action>, q: PatchRequest, failing: set<Call>, more: seq<Action>)
    requires UniqueIds((acts + [Send(q, failing)]) + more)
    requires Succeeds(cfg, Run(cfg, Empty(now), acts), Send(q, failing))
    requires NoSendAccepted(cfg, Run(cfg, Empty(now), acts + [Send(q, failing)]), more, q.key)
    ensures var answer := ProcessChunk(cfg, Run(cfg, Empty(now), acts).redis, q, failing).1;
            var (session, _) := Lookup(Run(cfg, Empty(now), (acts + [Send(q, failing)]) + more).redis, q.key);
            && answer == Ok(q.offset + |q.data|)
            && (session.Some? ==> session.value.offset == answer.value)
  {
    var sent := acts + [Send(q, failing)];
    UniquePrefix(sent, more);
    UniquePrefix(acts, [Send(q, failing)]);
    RunOne(cfg, Empty(now), acts, Send(q, failing));
    RunKeyedRight(cfg, now, acts);
    AcceptedOffset(cfg, Run(cfg, Empty(now), acts).redis, q, failing);
    RecordWasStarted(cfg, now, acts, q.key);
    StartedPrefix(acts, [Send(q, failing)]);
    RunKeepsOffset(cfg, now, sent, more, q.key);
  }

  // ---- Chunk bytes are temporary ----

  /** Every chunk still has a time to live, and at most a day. */
  predicate ChunksTimed(r: RedisState) {
    forall c :: c in r.chunks ==> r.now < r.chunks[c].deadline <= r.now + 86_400
  }

  lemma StoredTimed(r: RedisState, key: Key, index: int, data: Bytes)
    requires ChunksTimed(r)
    ensures ChunksTimed(r.SetChunk(key, index, data))
  {
  }

  lemma SendTimed(cfg: Config, r: RedisState, q: PatchRequest, failing: set<Call>)
    requires KeyedRight(r) && ChunksTimed(r)
    ensures ChunksTimed(ProcessChunk(cfg, r, q, failing).0)
  {
    var r' := ProcessChunk(cfg, r, q, failing).0;
    ProcessChunkShape(cfg, r, q, failing);
    if r'.chunks != r.chunks {
      var n := |r.sessions[q.key].value.manifest|;
      StoredTimed(r, q.key, n, q.data);
      assert r'.now == r.now && r'.chunks == r.SetChunk(q.key, n, q.data).chunks;
    }
  }

  lemma FinishTimed(cfg: Config, w: World, key: Key, failing: set<Call>)
    requires KeyedRight(w.redis) && IdsBelowNext(w.s3) && ChunksTimed(w.redis)
    ensures ChunksTimed(CompleteUpload(cfg, w, key, failing).0.redis)
  {
    CompleteShape(cfg, w, key, failing);
  }

  lemma StepTimed(cfg: Config, w: World, a: Action)
    requires Inv(cfg, w) && ChunksTimed(w.redis)
    ensures ChunksTimed(Apply(cfg, w, a).redis)
  {
    KeyedRightAll(cfg, w.redis);
    match a
    case Start(key, request, failing) => InitiateShape(cfg, w.redis, key, request, failing);
    case Send(q, failing) => SendTimed(cfg, w.redis, q, failing);
    case Cancel(key, failing) => AbortShape(w.redis, key, failing);
    case Finish(key, failing) => FinishTimed(cfg, w, key, failing);
    case Wait(_) =>
    case ResetCounter(_) =>
  }

  /**
   * Stray chunks, chunks of ended uploads and chunks whose cleanup raised go away by themselves: in every reachable
   * state each chunk has been stored less than a day ago.
   */
  lemma {:induction false} ChunksAreTemporary(cfg: Config, now: int, acts: seq<Action>)
    requires UniqueIds(acts)
    ensures ChunksTimed(Run(cfg, Empty(now), acts).redis)
  {
    if acts != [] {
      var init, last := acts[..|acts| - 1], acts[|acts| - 1];
      LastIdIsNew(acts);
      ChunksAreTemporary(cfg, now, init);
      RunKeepsInv(cfg, now, init);
      StepTimed(cfg, Run(cfg, Empty(now), init), last);
    }
  }

  lemma RunKeyedRight(cfg: Config, now: int, acts: seq<Action>)
    requires UniqueIds(acts)
    ensures KeyedRight(Run(cfg, Empty(now), acts).redis)
  {
    RunKeepsInv(cfg, now, acts);
    KeyedRightAll(cfg, Run(cfg, Empty(now), acts).redis);
  }
}
