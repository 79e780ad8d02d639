/** When a workspace hears of the same content at most once, and when it does not. */
module DedupOnce {
  import opened Types
  import opened Events
  import opened World
  import opened Entity
  import opened Storage
  import opened Protocol
  import opened Sessions
  import opened Shapes
  import opened Actions
  import opened Safety
  import opened RoundTrip
  import opened Slots

  function PrintOf(e: Event): Fingerprint {
    Fingerprint(e.key.ws, e.checksum)
  }

  /** No two delivered events of a workspace announce the same digest. */
  predicate OncePerContent(bus: BusState) {
    forall i, j :: 0 <= i < j < |bus.delivered| ==> PrintOf(bus.delivered[i]) != PrintOf(bus.delivered[j])
  }

  predicate AllRegistered(w: World) {
    forall e :: e in w.bus.delivered ==> PrintOf(e) in w.redis.dedup
  }

  /** The two calls between a delivery and its fingerprint. */
  predicate Unregistered(failing: set<Call>) {
    WriteComplete in failing || Call.Register in failing
  }

  predicate Delivers(cfg: Config, w: World, key: Key, failing: set<Call>) {
    Completable(cfg, w, key) && NoCallFails(|w.redis.sessions[key].value.manifest|, failing - {WriteComplete})
  }

  /** A delivery is of content that had no fingerprint; it gets one exactly if neither of the two calls raises. */
  predicate Delivered(w: World, w': World, event: Event, failing: set<Call>) {
    && PrintOf(event) !in w.redis.dedup
    && w'.bus.delivered == w.bus.delivered + [event]
    && w'.redis.dedup.Keys == w.redis.dedup.Keys + if Unregistered(failing) then {} else {PrintOf(event)}
  }

  predicate NotDelivered(w: World, w': World) {
    w'.bus.delivered == w.bus.delivered && w'.redis.dedup == w.redis.dedup
  }

  lemma CommitDelivery(w: World, s: Session, key: Key, stored: Stored, failing: set<Call>)
    requires key in w.redis.sessions && w.redis.sessions[key].value == s && s.key == key && s.offset == s.size
    ensures var w' := Commit(w, s, key, stored, failing).0;
            && w'.bus == w.bus
            && w'.redis.dedup.Keys == w.redis.dedup.Keys +
                 if Unregistered(failing) then {} else {Fingerprint(key.ws, s.checksum)}
  {
  }

  lemma AnnounceDelivery(cfg: Config, w: World, s: Session, key: Key, stored: Stored, failing: set<Call>)
    requires key in w.redis.sessions && w.redis.sessions[key].value == s && s.key == key && s.status == InProgress
    requires s.offset == s.size == stored.size && 0 < s.size <= MAX_FILE_SIZE && stored.path == ObjectPath(cfg, key)
    ensures var w' := Announce(cfg, w, s, key, stored, failing).0;
            var event := CompletionEvent(cfg, key, s.checksum, s.size, w.redis.now);
            if CheckDuplicate !in failing && PrintOf(event) !in w.redis.dedup && Publish !in failing
            then Delivered(w, w', event, failing) else NotDelivered(w, w')
  {
    var event := CompletionEvent(cfg, key, s.checksum, s.size, w.redis.now);
    AssembledPathAccepted(cfg, key, s.checksum, stored.size, w.redis.now);
    if CheckDuplicate !in failing && PrintOf(event) !in w.redis.dedup && Publish !in failing {
      var bus' := BusState(w.bus.calls + [event], w.bus.delivered + [event]);
      CommitDelivery(w.(bus := bus'), s, key, stored, failing);
    }
  }

  lemma ReadyDelivery(cfg: Config, w: World, s: Session, chunks: seq<Bytes>, key: Key, failing: set<Call>)
    requires CheckComplete(w.redis, key, failing) == Ready(s, chunks)
    requires key in w.redis.sessions && w.redis.sessions[key].value == s && s.key == key && s.status == InProgress
    requires 0 < |chunks| == |s.manifest| && s.offset == s.size == |Concat(chunks)| && 0 < s.size <= MAX_FILE_SIZE
    requires forall i :: 0 <= i < |chunks| ==> |chunks[i]| > 0
    requires chunks == Kept(w.redis, key, |chunks|)
    requires GetSession !in failing && !SomeReadFails(|chunks|, failing)
    ensures var w' := CompleteUpload(cfg, w, key, failing).0;
            if Delivers(cfg, w, key, failing)
            then Delivered(w, w', CompletionEvent(cfg, key, s.checksum, s.size, w.redis.now), failing)
            else NotDelivered(w, w')
  {
    var (s3, stored) := Assemble(cfg, w.s3, key, chunks, s.checksum, failing);
    AssembleSucceedsExactly(cfg, w.s3, key, chunks, s.checksum, failing);
    FailureFlags(|chunks|, failing);
    if stored.Ok? {
      AnnounceDelivery(cfg, w.(s3 := s3), s, key, stored.value, failing);
    }
  }

  lemma FailureFlags(n: nat, failing: set<Call>)
    ensures SomeReadFails(n, failing - {WriteComplete}) <==> SomeReadFails(n, failing)
    ensures SomePartFails(n, failing - {WriteComplete}) <==> SomePartFails(n, failing)
  {
    forall i | 0 <= i < n && ReadChunk(i) in failing ensures ReadChunk(i) in failing - {WriteComplete} {
    }
    forall i | 1 <= i <= n && UploadPart(i) in failing ensures UploadPart(i) in failing - {WriteComplete} {
    }
  }

  /** Which completions deliver their event, and what that does to the fingerprints. */
  lemma FinishDelivery(cfg: Config, w: World, key: Key, failing: set<Call>)
    requires Inv(cfg, w)
    ensures var w' := CompleteUpload(cfg, w, key, failing).0;
            if Delivers(cfg, w, key, failing) then
              var s := w.redis.sessions[key].value;
              Delivered(w, w', CompletionEvent(cfg, key, s.checksum, s.size, w.redis.now), failing)
            else NotDelivered(w, w')
  {
    CheckCompleteOutcome(cfg, w.redis, key, failing);
    var c := CheckComplete(w.redis, key, failing);
    if key in w.redis.sessions {
      FailureFlags(|w.redis.sessions[key].value.manifest|, failing);
    }
    if c.Ready? {
      assert c.chunks == Kept(w.redis, key, |c.chunks|);
      ReadyDelivery(cfg, w, c.s, c.chunks, key, failing);
    }
  }

  lemma QuietStep(cfg: Config, w: World, a: Action)
    requires KeyedRight(w.redis) && !a.Finish?
    ensures NotDelivered(w, Apply(cfg, w, a))
  {
    match a
    case Start(key, request, failing) => InitiateShape(cfg, w.redis, key, request, failing);
    case Send(q, failing) => ProcessChunkShape(cfg, w.redis, q, failing);
    case Cancel(key, failing) => AbortShape(w.redis, key, failing);
    case Wait(_) =>
    case ResetCounter(_) =>
  }

  /**
   * The exact condition, step by step. While every delivered event has its fingerprint, a step keeps it so unless it
   * delivers an event and then the write of COMPLETE or the registration raises; and it delivers no content twice.
   */
  lemma StepRegisters(cfg: Config, w: World, a: Action)
    requires Inv(cfg, w) && AllRegistered(w) && OncePerContent(w.bus)
    ensures AllRegistered(Apply(cfg, w, a)) <==>
            !(a.Finish? && Delivers(cfg, w, a.key, a.failing) && Unregistered(a.failing))
    ensures OncePerContent(Apply(cfg, w, a).bus)
  {
    var w' := Apply(cfg, w, a);
    if a.Finish? {
      FinishDelivery(cfg, w, a.key, a.failing);
      if Delivers(cfg, w, a.key, a.failing) {
        var s := w.redis.sessions[a.key].value;
        DeliveredRegisters(w, w', CompletionEvent(cfg, a.key, s.checksum, s.size, w.redis.now), a.failing);
      }
    } else {
      KeyedRightAll(cfg, w.redis);
      QuietStep(cfg, w, a);
    }
  }

  lemma DeliveredRegisters(w: World, w': World, event: Event, failing: set<Call>)
    requires AllRegistered(w) && OncePerContent(w.bus) && Delivered(w, w', event, failing)
    ensures AllRegistered(w') <==> !Unregistered(failing)
    ensures OncePerContent(w'.bus)
  {
    var n := |w.bus.delivered|;
    assert w'.bus.delivered[n] == event && event in w'.bus.delivered;
    forall e | e in w.bus.delivered ensures PrintOf(e) in w'.redis.dedup && PrintOf(e) != PrintOf(event) {
      assert PrintOf(e) in w.redis.dedup;
    }
    if !Unregistered(failing) {
      forall e | e in w'.bus.delivered ensures PrintOf(e) in w'.redis.dedup {
        assert e in w.bus.delivered || e == event;
      }
    } else {
      assert PrintOf(event) !in w'.redis.dedup.Keys;
    }
    forall i, j | 0 <= i < j < |w'.bus.delivered|
      ensures PrintOf(w'.bus.delivered[i]) != PrintOf(w'.bus.delivered[j])
    {
      assert w'.bus.delivered[i] == w.bus.delivered[i] && w.bus.delivered[i] in w.bus.delivered;
    }
  }

  /** If in no completion one of the two calls raises, each content is announced at most once to its workspace. */
  lemma {:induction false} AnnouncedOnce(cfg: Config, now: int, acts: seq<Action>)
    requires UniqueIds(acts)
    requires forall a :: a in acts && a.Finish? ==> !Unregistered(a.failing)
    ensures AllRegistered(Run(cfg, Empty(now), acts)) && OncePerContent(Run(cfg, Empty(now), acts).bus)
  {
    if acts != [] {
      var init, last := acts[..|acts| - 1], acts[|acts| - 1];
      LastIdIsNew(acts);
      AnnouncedOnce(cfg, now, init);
      RunKeepsInv(cfg, now, init);
      StepRegisters(cfg, Run(cfg, Empty(now), init), last);
    }
  }

  // ---- When exactly a content is announced twice ----

  predicate WasAnnounced(bus: BusState, f: Fingerprint) {
    exists e :: e in bus.delivered && PrintOf(e) == f
  }

  /** A completion that will deliver its event although its content was announced before, and has no fingerprint. */
  predicate Repeats(cfg: Config, w: World, a: Action) {
    && a.Finish? && Delivers(cfg, w, a.key, a.failing)
    && WasAnnounced(w.bus, Fingerprint(a.key.ws, w.redis.sessions[a.key].value.checksum))
  }

  lemma AppendedRepeats(bus: BusState, bus': BusState, event: Event)
    requires OncePerContent(bus) && bus'.delivered == bus.delivered + [event]
    ensures OncePerContent(bus') <==> !WasAnnounced(bus, PrintOf(event))
  {
    var n := |bus.delivered|;
    assert bus'.delivered[n] == event;
    if WasAnnounced(bus, PrintOf(event)) {
      var e :| e in bus.delivered && PrintOf(e) == PrintOf(event);
      var i :| 0 <= i < n && bus.delivered[i] == e;
      assert bus'.delivered[i] == e;
    } else {
      forall i, j | 0 <= i < j < n + 1 ensures PrintOf(bus'.delivered[i]) != PrintOf(bus'.delivered[j]) {
        assert bus'.delivered[i] == bus.delivered[i] && bus.delivered[i] in bus.delivered;
      }
    }
  }

  /** The exact condition for one step: it announces a content twice if and only if it is such a completion. */
  lemma StepRepeats(cfg: Config, w: World, a: Action)
    requires Inv(cfg, w) && OncePerContent(w.bus)
    ensures OncePerContent(Apply(cfg, w, a).bus) <==> !Repeats(cfg, w, a)
  {
    if a.Finish? {
      FinishDelivery(cfg, w, a.key, a.failing);
      if Delivers(cfg, w, a.key, a.failing) {
        var s := w.redis.sessions[a.key].value;
        AppendedRepeats(w.bus, Apply(cfg, w, a).bus, CompletionEvent(cfg, a.key, s.checksum, s.size, w.redis.now));
      }
    } else {
      KeyedRightAll(cfg, w.redis);
      QuietStep(cfg, w, a);
    }
  }

  predicate SomeStepRepeats(cfg: Config, w: World, acts: seq<Action>) {
    acts != [] &&
    var init := acts[..|acts| - 1];
    SomeStepRepeats(cfg, w, init) || Repeats(cfg, Run(cfg, w, init), acts[|acts| - 1])
  }

  lemma StillRepeated(bus: BusState, bus': BusState)
    requires !OncePerContent(bus) && bus.delivered <= bus'.delivered
    ensures !OncePerContent(bus')
  {
    var i, j :| 0 <= i < j < |bus.delivered| && PrintOf(bus.delivered[i]) == PrintOf(bus.delivered[j]);
    assert bus'.delivered[i] == bus.delivered[i] && bus'.delivered[j] == bus.delivered[j];
  }

  /** The exact condition for runs: a content is announced twice if and only if some step was such a completion. */
  lemma {:induction false} RepeatedExactly(cfg: Config, now: int, acts: seq<Action>)
    requires UniqueIds(acts)
    ensures OncePerContent(Run(cfg, Empty(now), acts).bus) <==> !SomeStepRepeats(cfg, Empty(now), acts)
  {
    if acts != [] {
      var init, last := acts[..|acts| - 1], acts[|acts| - 1];
      var w := Run(cfg, Empty(now), init);
      LastIdIsNew(acts);
      RepeatedExactly(cfg, now, init);
      RunKeepsInv(cfg, now, init);
      if OncePerContent(w.bus) {
        StepRepeats(cfg, w, last);
      } else {
        StepGrows(cfg, w, last);
        StillRepeated(w.bus, Apply(cfg, w, last).bus);
      }
    }
  }

  // ---- Registration that never fails is not enough ----

  function PdfRequest(cfg: Config, file: Bytes): UploadRequest {
    UploadRequest("a.pdf", |file|, PDF, cfg.hash(file))
  }

  /** One upload of a file in one PATCH. */
  function OneUpload(cfg: Config, key: Key, file: Bytes, failing: set<Call>): seq<Action> {
    [Opening(cfg, key, file), Sending(cfg, key, file), Finish(key, failing)]
  }

  function Opening(cfg: Config, key: Key, file: Bytes): Action {
    Start(key, PdfRequest(cfg, file), {})
  }

  function Sending(cfg: Config, key: Key, file: Bytes): Action {
    Send(PatchRequest(key, 0, file, cfg.hash(file)), {})
  }

  lemma PdfRequestPasses(cfg: Config, file: Bytes)
    requires 0 < |file| <= MAX_CHUNK_SIZE
    ensures CheckRequest(PdfRequest(cfg, file)) == None
    ensures forall key, now :: Validate(NewSession(key, PdfRequest(cfg, file), now)) == None
  {
    assert "a.pdf"[0] == 'a' && !IsSpace('a');
    assert Lower(PDF) == PDF;
  }

  predicate CanUpload(cfg: Config, w: World, key: Key, file: Bytes) {
    && 0 < |file| <= MAX_CHUNK_SIZE
    && (forall c :: c in w.redis.chunks ==> c.key.id != key.id) && key !in w.s3.objects
    && CountOf(w.redis.counters, key.ws) < cfg.limit
    && Fingerprint(key.ws, cfg.hash(file)) !in w.redis.dedup
  }

  lemma StartsWithRoom(cfg: Config, r: RedisState, key: Key, file: Bytes)
    requires 0 < |file| <= MAX_CHUNK_SIZE && CountOf(r.counters, key.ws) < cfg.limit
    ensures InitiateUpload(cfg, r, key, PdfRequest(cfg, file), {}).0
         == r.SetCounter(key.ws, CountOf(r.counters, key.ws) + 1)
             .CreateSession(NewSession(key, PdfRequest(cfg, file), r.now))
  {
    PdfRequestPasses(cfg, file);
  }

  lemma OpeningEffect(cfg: Config, w: World, key: Key, file: Bytes)
    requires 0 < |file| <= MAX_CHUNK_SIZE && CountOf(w.redis.counters, key.ws) < cfg.limit
    ensures var w' := Apply(cfg, w, Opening(cfg, key, file));
            && NotDelivered(w, w') && w'.s3 == w.s3
            && w'.redis.sessions == w.redis.sessions[key :=
                 Timed(NewSession(key, PdfRequest(cfg, file), w.redis.now), w.redis.now + SESSION_TTL)]
            && CountOf(w'.redis.counters, key.ws) == CountOf(w.redis.counters, key.ws) + 1
            && w'.redis.chunks == w.redis.chunks
  {
    StartsWithRoom(cfg, w.redis, key, file);
  }

  lemma UploadStarts(cfg: Config, w: World, key: Key, file: Bytes)
    requires Inv(cfg, w) && CanUpload(cfg, w, key, file)
    ensures var w' := Apply(cfg, w, Opening(cfg, key, file));
            && Inv(cfg, w') && NotDelivered(w, w') && w'.s3 == w.s3
            && w'.redis.sessions == w.redis.sessions[key :=
                 Timed(NewSession(key, PdfRequest(cfg, file), w.redis.now), w.redis.now + SESSION_TTL)]
            && CountOf(w'.redis.counters, key.ws) == CountOf(w.redis.counters, key.ws) + 1
            && w'.redis.chunks == w.redis.chunks
  {
    OpeningEffect(cfg, w, key, file);
    StepKeepsInv(cfg, w, Opening(cfg, key, file));
  }

  predicate FullyReceived(cfg: Config, w: World, key: Key, file: Bytes) {
    && key in w.redis.sessions && key !in w.s3.objects
    && var s := w.redis.sessions[key].value;
       (&& s.status == InProgress && s.offset == s.size == |file| && |s.manifest| == 1
        && s.checksum == cfg.hash(file) && Kept(w.redis, key, 1) == [file])
  }

  predicate JustStarted(cfg: Config, r: RedisState, key: Key, file: Bytes) {
    && key in r.sessions
    && var s := r.sessions[key].value;
       s.status == Pending && s.offset == 0 && s.manifest == [] && s.size == |file| && s.checksum == cfg.hash(file)
  }

  lemma SendsWhole(cfg: Config, r: RedisState, key: Key, file: Bytes)
    requires SessionsOk(cfg, r) && 0 < |file| <= MAX_CHUNK_SIZE && JustStarted(cfg, r, key, file)
    ensures var q := PatchRequest(key, 0, file, cfg.hash(file));
            KeyedRight(r) && ProcessChunk(cfg, r, q, {}).1.Ok? && Progressed(r, ProcessChunk(cfg, r, q, {}).0, q)
  {
    var q := PatchRequest(key, 0, file, cfg.hash(file));
    KeyedRightAll(cfg, r);
    SendSucceedsExactly(cfg, r, q, {});
    ProcessChunkShape(cfg, r, q, {});
  }

  lemma WholeIsReceived(cfg: Config, w: World, r': RedisState, key: Key, file: Bytes)
    requires JustStarted(cfg, w.redis, key, file) && key !in w.s3.objects
    requires Progressed(w.redis, r', PatchRequest(key, 0, file, cfg.hash(file)))
    ensures FullyReceived(cfg, w.(redis := r'), key, file)
    ensures forall c :: c in r'.chunks ==> c in w.redis.chunks || c.key == key
  {
  }

  lemma UploadSends(cfg: Config, w: World, key: Key, file: Bytes)
    requires Inv(cfg, w) && 0 < |file| <= MAX_CHUNK_SIZE && JustStarted(cfg, w.redis, key, file) && key !in w.s3.objects
    ensures var w' := Apply(cfg, w, Sending(cfg, key, file));
            && Inv(cfg, w') && NotDelivered(w, w') && w'.s3 == w.s3 && w'.redis.counters == w.redis.counters
            && FullyReceived(cfg, w', key, file)
            && (forall c :: c in w'.redis.chunks ==> c in w.redis.chunks || c.key == key)
  {
    var q := PatchRequest(key, 0, file, cfg.hash(file));
    SendsWhole(cfg, w.redis, key, file);
    ProcessChunkShape(cfg, w.redis, q, {});
    WholeIsReceived(cfg, w, ProcessChunk(cfg, w.redis, q, {}).0, key, file);
    StepKeepsInv(cfg, w, Sending(cfg, key, file));
  }

  lemma ReceivedDelivers(cfg: Config, w: World, key: Key, file: Bytes, failing: set<Call>)
    requires FullyReceived(cfg, w, key, file) && failing <= {WriteComplete}
    requires Fingerprint(key.ws, cfg.hash(file)) !in w.redis.dedup
    ensures Delivers(cfg, w, key, failing)
  {
    ConcatAppend([], file);
    assert Concat([file]) == file;
    assert failing - {WriteComplete} == {};
  }

  /** What a run of OneUpload changes, apart from sessions. */
  predicate Uploaded(cfg: Config, w: World, w': World, key: Key, file: Bytes, failing: set<Call>) {
    && (exists e :: e in w'.bus.delivered && w'.bus.delivered == w.bus.delivered + [e]
                    && PrintOf(e) == Fingerprint(key.ws, cfg.hash(file)))
    && w'.redis.dedup.Keys == w.redis.dedup.Keys +
         (if Unregistered(failing) then {} else {Fingerprint(key.ws, cfg.hash(file))})
    && (forall c :: c in w'.redis.chunks ==> c in w.redis.chunks || c.key == key)
    && (forall k :: k in w'.s3.objects ==> k in w.s3.objects || k == key)
  }

  lemma UploadFinishes(cfg: Config, w: World, key: Key, file: Bytes, failing: set<Call>)
    requires Inv(cfg, w) && FullyReceived(cfg, w, key, file) && failing <= {WriteComplete}
    requires Fingerprint(key.ws, cfg.hash(file)) !in w.redis.dedup
    ensures Uploaded(cfg, w, Apply(cfg, w, Finish(key, failing)), key, file, failing)
  {
    KeyedRightAll(cfg, w.redis);
    CompleteShape(cfg, w, key, failing);
    ReceivedDelivers(cfg, w, key, file, failing);
    FinishDelivery(cfg, w, key, failing);
    DeliveredIsUploaded(cfg, w, Apply(cfg, w, Finish(key, failing)), key, file, failing);
  }

  lemma DeliveredIsUploaded(cfg: Config, w: World, w': World, key: Key, file: Bytes, failing: set<Call>)
    requires Delivered(w, w', CompletionEvent(cfg, key, cfg.hash(file), |file|, w.redis.now), failing)
    requires forall c :: c in w'.redis.chunks ==> c in w.redis.chunks
    requires forall k :: k in w'.s3.objects ==> k in w.s3.objects || k == key
    ensures Uploaded(cfg, w, w', key, file, failing)
  {
    var e := CompletionEvent(cfg, key, cfg.hash(file), |file|, w.redis.now);
    assert w'.bus.delivered[|w.bus.delivered|] == e;
  }

  lemma FinishCounts(cfg: Config, w: World, key: Key, failing: set<Call>)
    requires Inv(cfg, w) && 1 <= CountOf(w.redis.counters, key.ws)
    ensures CountOf(Apply(cfg, w, Finish(key, failing)).redis.counters, key.ws) <= CountOf(w.redis.counters, key.ws)
  {
    KeyedRightAll(cfg, w.redis);
    CompleteShape(cfg, w, key, failing);
  }

  lemma RunTwo(cfg: Config, w: World, a: Action, b: Action)
    ensures Run(cfg, w, [a, b]) == Apply(cfg, Apply(cfg, w, a), b)
  {
    RunOne(cfg, w, [a], b);
    RunOne(cfg, w, [], a);
    assert [] + [a] == [a] && [a] + [b] == [a, b];
  }

  lemma RunThree(cfg: Config, w: World, a: Action, b: Action, c: Action)
    ensures Run(cfg, w, [a, b, c]) == Apply(cfg, Apply(cfg, Apply(cfg, w, a), b), c)
  {
    RunTwo(cfg, w, a, b);
    RunOne(cfg, w, [a, b], c);
    assert [a, b] + [c] == [a, b, c];
  }

  lemma UploadIsReceived(cfg: Config, w: World, key: Key, file: Bytes)
    requires Inv(cfg, w) && CanUpload(cfg, w, key, file)
    ensures var w' := Apply(cfg, Apply(cfg, w, Opening(cfg, key, file)), Sending(cfg, key, file));
            && Inv(cfg, w') && NotDelivered(w, w') && w'.s3 == w.s3 && FullyReceived(cfg, w', key, file)
            && (forall c :: c in w'.redis.chunks ==> c in w.redis.chunks || c.key == key)
            && CountOf(w'.redis.counters, key.ws) == CountOf(w.redis.counters, key.ws) + 1
  {
    UploadStarts(cfg, w, key, file);
    UploadSends(cfg, Apply(cfg, w, Opening(cfg, key, file)), key, file);
  }

  lemma ReceivedUploadFinishes(cfg: Config, w: World, w2: World, key: Key, file: Bytes, failing: set<Call>)
    requires Inv(cfg, w2) && FullyReceived(cfg, w2, key, file) && failing <= {WriteComplete}
    requires NotDelivered(w, w2) && w2.s3 == w.s3 && Fingerprint(key.ws, cfg.hash(file)) !in w.redis.dedup
    requires forall c :: c in w2.redis.chunks ==> c in w.redis.chunks || c.key == key
    ensures Uploaded(cfg, w, Apply(cfg, w2, Finish(key, failing)), key, file, failing)
  {
    UploadFinishes(cfg, w2, key, file, failing);
    UploadedFromStart(cfg, w, w2, Apply(cfg, w2, Finish(key, failing)), key, file, failing);
  }

  /** A single upload from a world that has room for it delivers its event, whether or not COMPLETE can be written. */
  lemma UploadDelivers(cfg: Config, w: World, key: Key, file: Bytes, failing: set<Call>)
    requires Inv(cfg, w) && CanUpload(cfg, w, key, file) && failing <= {WriteComplete}
    ensures Uploaded(cfg, w, Run(cfg, w, OneUpload(cfg, key, file, failing)), key, file, failing)
  {
    var open, send := Opening(cfg, key, file), Sending(cfg, key, file);
    RunThree(cfg, w, open, send, Finish(key, failing));
    UploadIsReceived(cfg, w, key, file);
    ReceivedUploadFinishes(cfg, w, Apply(cfg, Apply(cfg, w, open), send), key, file, failing);
  }

  /** It leaves at most one slot taken. */
  lemma UploadCounts(cfg: Config, w: World, key: Key, file: Bytes, failing: set<Call>)
    requires Inv(cfg, w) && CanUpload(cfg, w, key, file) && failing <= {WriteComplete}
    requires 0 <= CountOf(w.redis.counters, key.ws)
    ensures CountOf(Run(cfg, w, OneUpload(cfg, key, file, failing)).redis.counters, key.ws)
         <= CountOf(w.redis.counters, key.ws) + 1
  {
    var open, send := Opening(cfg, key, file), Sending(cfg, key, file);
    RunThree(cfg, w, open, send, Finish(key, failing));
    UploadIsReceived(cfg, w, key, file);
    FinishCounts(cfg, Apply(cfg, Apply(cfg, w, open), send), key, failing);
  }

  /** The same after any run. */
  lemma RunUploadDelivers(cfg: Config, now: int, before: seq<Action>, key: Key, file: Bytes, failing: set<Call>)
    requires UniqueIds(before) && forall a :: a in before ==> !a.ResetCounter?
    requires CanUpload(cfg, Run(cfg, Empty(now), before), key, file) && failing <= {WriteComplete}
    ensures var w := Run(cfg, Empty(now), before);
            var w' := Run(cfg, w, OneUpload(cfg, key, file, failing));
            && Uploaded(cfg, w, w', key, file, failing)
            && CountOf(w'.redis.counters, key.ws) <= CountOf(w.redis.counters, key.ws) + 1
  {
    RunKeepsInv(cfg, now, before);
    SlotConservation(cfg, now, before, key.ws);
    UploadDelivers(cfg, Run(cfg, Empty(now), before), key, file, failing);
    UploadCounts(cfg, Run(cfg, Empty(now), before), key, file, failing);
  }

  lemma UploadedFromStart(cfg: Config, w: World, w2: World, w3: World, key: Key, file: Bytes, failing: set<Call>)
    requires NotDelivered(w, w2) && w2.s3 == w.s3
    requires forall c :: c in w2.redis.chunks ==> c in w.redis.chunks || c.key == key
    requires Uploaded(cfg, w2, w3, key, file, failing)
    ensures Uploaded(cfg, w, w3, key, file, failing)
  {
  }

  /**
   * No delivery without a fingerprint is harmless. Whatever the run before and whichever of the two calls raised in it:
   * if a delivered content has no fingerprint, uploading that content once more announces it again.
   */
  lemma UnregisteredIsRepeated(cfg: Config, now: int, before: seq<Action>, e: Event, key: Key, file: Bytes)
    requires UniqueIds(before) && forall a :: a in before ==> !a.ResetCounter?
    requires e in Run(cfg, Empty(now), before).bus.delivered && cfg.hash(file) == e.checksum && key.ws == e.key.ws
    requires CanUpload(cfg, Run(cfg, Empty(now), before), key, file)
    ensures !OncePerContent(Run(cfg, Empty(now), before + OneUpload(cfg, key, file, {})).bus)
  {
    var w := Run(cfg, Empty(now), before);
    var again := OneUpload(cfg, key, file, {});
    RunUploadDelivers(cfg, now, before, key, file, {});
    RunAppend(cfg, Empty(now), before, again);
    RepeatedByUpload(cfg, w, Run(cfg, w, again), e, key, file);
  }

  lemma RepeatedByUpload(cfg: Config, w: World, w': World, e: Event, key: Key, file: Bytes)
    requires Uploaded(cfg, w, w', key, file, {})
    requires e in w.bus.delivered && PrintOf(e) == Fingerprint(key.ws, cfg.hash(file))
    ensures !OncePerContent(w'.bus)
  {
    var i :| 0 <= i < |w.bus.delivered| && w.bus.delivered[i] == e;
    var n := |w.bus.delivered|;
    assert PrintOf(w'.bus.delivered[i]) == PrintOf(w'.bus.delivered[n]);
  }

  lemma OneUploadIds(cfg: Config, first: Key, second: Key, file: Bytes)
    requires first.id != second.id
    ensures var acts := OneUpload(cfg, first, file, {WriteComplete}) + OneUpload(cfg, second, file, {});
            UniqueIds(acts) && forall a :: a in acts && a.Finish? ==> Call.Register !in a.failing
    ensures forall a :: a in OneUpload(cfg, first, file, {WriteComplete}) ==> !a.ResetCounter?
  {
    var acts := OneUpload(cfg, first, file, {WriteComplete}) + OneUpload(cfg, second, file, {});
    forall i, j | 0 <= i < j < |acts| && acts[i].Start? && acts[j].Start? ensures acts[i].key.id != acts[j].key.id {
      assert i == 0 && j == 3;
    }
  }

  lemma TwoDeliveries(cfg: Config, w: World, w1: World, w2: World, first: Key, second: Key, file: Bytes,
                      failing: set<Call>)
    requires w.bus.delivered == [] && first.ws == second.ws
    requires Uploaded(cfg, w, w1, first, file, failing) && Uploaded(cfg, w1, w2, second, file, {})
    ensures !OncePerContent(w2.bus)
  {
    assert w2.bus.delivered[0] == w1.bus.delivered[0];
    assert PrintOf(w2.bus.delivered[0]) == PrintOf(w2.bus.delivered[1]);
  }

  /**
   * The design promises no duplicates as long as fingerprints can be registered. That is not enough: if the write of
   * COMPLETE raises after the event is out, no registration is even tried, and the next upload of the same file is
   * announced again. No call of register_file fails in this run, for any file of one chunk.
   */
  lemma RegistrationAloneIsNotEnough(cfg: Config, now: int, first: Key, second: Key, file: Bytes)
    requires first.ws == second.ws && first.id != second.id && 2 <= cfg.limit && 0 < |file| <= MAX_CHUNK_SIZE
    ensures var acts := OneUpload(cfg, first, file, {WriteComplete}) + OneUpload(cfg, second, file, {});
            && UniqueIds(acts)
            && (forall a :: a in acts && a.Finish? ==> Call.Register !in a.failing)
            && !OncePerContent(Run(cfg, Empty(now), acts).bus)
  {
    var once, again := OneUpload(cfg, first, file, {WriteComplete}), OneUpload(cfg, second, file, {});
    var w := Run(cfg, Empty(now), once);
    OneUploadIds(cfg, first, second, file);
    UniquePrefix(once, again);
    RunUploadDelivers(cfg, now, [], first, file, {WriteComplete});
    RoomForAnother(cfg, now, w, first, second, file);
    RunUploadDelivers(cfg, now, once, second, file, {});
    RunAppend(cfg, Empty(now), once, again);
    TwoDeliveries(cfg, Empty(now), w, Run(cfg, w, again), first, second, file, {WriteComplete});
  }

  lemma RoomForAnother(cfg: Config, now: int, w: World, first: Key, second: Key, file: Bytes)
    requires first.ws == second.ws && first.id != second.id && 2 <= cfg.limit && 0 < |file| <= MAX_CHUNK_SIZE
    requires Uploaded(cfg, Empty(now), w, first, file, {WriteComplete}) && CountOf(w.redis.counters, first.ws) <= 1
    ensures CanUpload(cfg, w, second, file)
  {
    assert w.redis.dedup.Keys == {};
  }
}
