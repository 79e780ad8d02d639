/** What completion promises about objects, events, COMPLETE sessions and fingerprints, under any failures. */
module Publication {
  import opened Types
  import opened Events
  import opened World
  import opened RateLimiter
  import opened Storage
  import opened Protocol
  import opened Sessions

  /** The object that an event points to is there, has the announced size and hashes to the announced digest. */
  predicate Genuine(cfg: Config, s3: S3State, e: Event) {
    && e.key in s3.objects
    && |s3.objects[e.key]| == e.size && cfg.hash(s3.objects[e.key]) == e.checksum
    && e.path == ObjectPath(cfg, e.key)
  }

  predicate CalledOnce(bus: BusState) {
    forall i, j :: 0 <= i < j < |bus.calls| ==> bus.calls[i].key != bus.calls[j].key
  }

  predicate CallsGenuine(cfg: Config, w: World) {
    forall e :: e in w.bus.calls ==> Genuine(cfg, w.s3, e)
  }

  predicate DeliveredWereCalls(bus: BusState) {
    forall e :: e in bus.delivered ==> e in bus.calls
  }

  predicate Announced(bus: BusState, key: Key, checksum: Digest, size: int) {
    exists e :: e in bus.delivered && e.key == key && e.checksum == checksum && e.size == size
  }

  predicate CompleteOk(w: World) {
    forall key :: key in w.redis.sessions && w.redis.sessions[key].value.status == Status.Complete ==>
      var s := w.redis.sessions[key].value;
      s.offset == s.size && Announced(w.bus, key, s.checksum, s.size)
  }

  predicate FingerprintOk(cfg: Config, bus: BusState, f: Fingerprint, m: FileMetadata) {
    var key := Key(f.ws, m.fileId);
    Announced(bus, key, f.checksum, m.size) && m.path == ObjectPath(cfg, key)
  }

  predicate DedupOk(cfg: Config, w: World) {
    forall f :: f in w.redis.dedup ==> FingerprintOk(cfg, w.bus, f, w.redis.dedup[f])
  }

  predicate PublicationOk(cfg: Config, w: World) {
    && IdsBelowNext(w.s3)
    && CalledOnce(w.bus) && CallsGenuine(cfg, w) && DeliveredWereCalls(w.bus)
    && CompleteOk(w) && DedupOk(cfg, w)
  }

  // ---- Operations that touch neither S3 nor the publisher ----

  /** It is enough that no session newly becomes COMPLETE and that no fingerprint is added. */
  lemma RedisOnlyKeeps(cfg: Config, w: World, r': RedisState)
    requires PublicationOk(cfg, w)
    requires r'.dedup == w.redis.dedup
    requires forall key :: key in r'.sessions && r'.sessions[key].value.status == Status.Complete ==>
               key in w.redis.sessions && w.redis.sessions[key].value == r'.sessions[key].value
    ensures PublicationOk(cfg, w.(redis := r'))
  {
  }

  // ---- The commands of completion ----

  lemma AssembleKeeps(cfg: Config, w: World, key: Key, chunks: seq<Bytes>, expected: Digest, failing: set<Call>)
    requires PublicationOk(cfg, w)
    ensures PublicationOk(cfg, w.(s3 := Assemble(cfg, w.s3, key, chunks, expected, failing).0))
  {
    AssembleExits(cfg, w.s3, key, chunks, expected, failing);
    var w' := w.(s3 := Assemble(cfg, w.s3, key, chunks, expected, failing).0);
    forall e | e in w'.bus.calls ensures Genuine(cfg, w'.s3, e) {
      assert Genuine(cfg, w.s3, e);
    }
  }

  lemma CallKeeps(cfg: Config, w: World, event: Event)
    requires PublicationOk(cfg, w)
    requires Genuine(cfg, w.s3, event)
    requires forall e :: e in w.bus.calls ==> e.key != event.key
    ensures PublicationOk(cfg, w.(bus := w.bus.(calls := w.bus.calls + [event])))
  {
    var bus' := w.bus.(calls := w.bus.calls + [event]);
    forall i, j | 0 <= i < j < |bus'.calls| ensures bus'.calls[i].key != bus'.calls[j].key {
      assert bus'.calls[i] in w.bus.calls;
    }
    SameDelivered(w.bus, bus');
  }

  lemma SameDelivered(bus: BusState, bus': BusState)
    requires forall e :: e in bus.delivered ==> e in bus'.delivered
    ensures forall key, checksum, size :: Announced(bus, key, checksum, size) ==> Announced(bus', key, checksum, size)
  {
    forall key, checksum, size | Announced(bus, key, checksum, size) ensures Announced(bus', key, checksum, size) {
      var e :| e in bus.delivered && e.key == key && e.checksum == checksum && e.size == size;
      assert e in bus'.delivered;
    }
  }

  lemma DeliverKeeps(cfg: Config, w: World, event: Event)
    requires PublicationOk(cfg, w)
    requires event in w.bus.calls
    ensures PublicationOk(cfg, w.(bus := w.bus.(delivered := w.bus.delivered + [event])))
    ensures Announced(w.bus.(delivered := w.bus.delivered + [event]), event.key, event.checksum, event.size)
  {
    var bus' := w.bus.(delivered := w.bus.delivered + [event]);
    SameDelivered(w.bus, bus');
    assert event in bus'.delivered;
  }

  lemma FailedRecordKeeps(cfg: Config, w: World, key: Key)
    requires PublicationOk(cfg, w) && SessionsOk(cfg, w.redis)
    requires key in w.redis.sessions && w.redis.sessions[key].value.key == key
    ensures var r' := w.redis.PutSession(w.redis.sessions[key].value.(status := Failed));
            PublicationOk(cfg, w.(redis := r')) && SessionsOk(cfg, r')
  {
    var r' := w.redis.PutSession(w.redis.sessions[key].value.(status := Failed));
    assert SessionsOk(cfg, r') by {
      EndKeeps(cfg, w.redis, key, Failed);
    }
    assert PublicationOk(cfg, w.(redis := r')) by {
      RedisOnlyKeeps(cfg, w, r');
    }
  }

  /** Writing FAILED over the session that completion holds in memory, if the write succeeds. */
  lemma WriteFailedKeeps(cfg: Config, w: World, s: Session, fails: bool)
    requires PublicationOk(cfg, w) && SessionsOk(cfg, w.redis)
    requires s.key in w.redis.sessions && w.redis.sessions[s.key].value.(status := Failed) == s.(status := Failed)
    ensures var r' := w.redis.UpdateSession(s.(status := Failed), fails).0;
            && PublicationOk(cfg, w.(redis := r')) && SessionsOk(cfg, r')
            && s.key in r'.sessions && r'.sessions[s.key].value.(status := Failed) == s.(status := Failed)
  {
    if !fails {
      FailedRecordKeeps(cfg, w, s.key);
    }
  }

  lemma SettledKeeps(cfg: Config, w: World, s: Session, key: Key, stored: Stored, failing: set<Call>)
    requires PublicationOk(cfg, w) && SessionsOk(cfg, w.redis)
    requires key in w.redis.sessions && w.redis.sessions[key].value.status == Status.Complete
    requires Announced(w.bus, key, s.checksum, stored.size) && stored.path == ObjectPath(cfg, key)
    ensures var w' := w.(redis := Settled(w.redis, s, key, stored, failing));
            PublicationOk(cfg, w') && SessionsOk(cfg, w'.redis)
  {
    var freed := FreeSlot(w.redis, key.ws, failing).0;
    var meta := FileMetadata(key.id, stored.path, stored.size, freed.now);
    var mark := Fingerprint(key.ws, s.checksum);
    var registered := if Call.Register in failing then freed else freed.Register(mark, meta);
    OtherFieldsKeep(cfg, w.redis, registered);
    CleanupKeeps(cfg, registered, key, s.manifest, failing);
    var w' := w.(redis := Settled(w.redis, s, key, stored, failing));
    assert w'.redis == registered.DeleteChunks(key, s.manifest, failing);
    assert Key(mark.ws, meta.fileId) == key;
    forall f | f in w'.redis.dedup
      ensures FingerprintOk(cfg, w'.bus, f, w'.redis.dedup[f])
    {
      if f != mark || Call.Register in failing {
        assert f in w.redis.dedup && w.redis.dedup[f] == w'.redis.dedup[f];
      }
    }
  }

  lemma WriteCompleteKeeps(cfg: Config, w: World, s: Session)
    requires PublicationOk(cfg, w) && SessionsOk(cfg, w.redis)
    requires s.key in w.redis.sessions && s == w.redis.sessions[s.key].value && s.offset == s.size
    requires Announced(w.bus, s.key, s.checksum, s.size)
    ensures var r' := w.redis.PutSession(s.(status := Status.Complete));
            PublicationOk(cfg, w.(redis := r')) && SessionsOk(cfg, r')
  {
    EndKeeps(cfg, w.redis, s.key, Status.Complete);
  }

  lemma CommitKeeps(cfg: Config, w: World, s: Session, key: Key, stored: Stored, failing: set<Call>)
    requires PublicationOk(cfg, w) && SessionsOk(cfg, w.redis)
    requires key in w.redis.sessions && s == w.redis.sessions[key].value && s.key == key
    requires s.status == InProgress && s.offset == s.size == stored.size
    requires Announced(w.bus, key, s.checksum, stored.size) && stored.path == ObjectPath(cfg, key)
    ensures var w' := Commit(w, s, key, stored, failing).0;
            PublicationOk(cfg, w') && SessionsOk(cfg, w'.redis)
  {
    if WriteComplete in failing {
      WriteFailedKeeps(cfg, w, s, WriteFailed in failing);
    } else {
      CommittedKeeps(cfg, w, s, key, stored, failing);
    }
  }

  lemma CommittedKeeps(cfg: Config, w: World, s: Session, key: Key, stored: Stored, failing: set<Call>)
    requires PublicationOk(cfg, w) && SessionsOk(cfg, w.redis)
    requires key in w.redis.sessions && s == w.redis.sessions[key].value && s.key == key && s.offset == s.size
    requires Announced(w.bus, key, s.checksum, stored.size) && stored.path == ObjectPath(cfg, key)
    requires stored.size == s.size
    ensures var r' := Settled(w.redis.PutSession(s.(status := Status.Complete)), s, key, stored, failing);
            PublicationOk(cfg, w.(redis := r')) && SessionsOk(cfg, r')
  {
    WriteCompleteKeeps(cfg, w, s);
    SettledKeeps(cfg, w.(redis := w.redis.PutSession(s.(status := Status.Complete))), s, key, stored, failing);
  }

  lemma UnpublishedKeeps(cfg: Config, w: World, s: Session, failing: set<Call>)
    requires PublicationOk(cfg, w) && SessionsOk(cfg, w.redis)
    requires s.key in w.redis.sessions && w.redis.sessions[s.key].value == s
    ensures var w' := Unpublished(w, s, failing).0;
            PublicationOk(cfg, w') && SessionsOk(cfg, w'.redis)
  {
    WriteFailedKeeps(cfg, w, s, WriteUnpublished in failing);
    var between := w.(redis := w.redis.UpdateSession(s.(status := Failed), WriteUnpublished in failing).0);
    WriteFailedKeeps(cfg, between, s, WriteFailed in failing);
  }

  lemma RejectDuplicateKeeps(cfg: Config, w: World, s: Session, existing: FileMetadata, failing: set<Call>)
    requires PublicationOk(cfg, w) && SessionsOk(cfg, w.redis)
    requires s.key in w.redis.sessions && w.redis.sessions[s.key].value == s
    ensures var w' := RejectDuplicate(w, s, existing, failing).0;
            PublicationOk(cfg, w') && SessionsOk(cfg, w'.redis)
  {
    WriteFailedKeeps(cfg, w, s, WriteDuplicate in failing);
    WriteFailedKeeps(cfg, w, s, WriteFailed in failing);
  }

  lemma AnnounceKeeps(cfg: Config, w: World, s: Session, key: Key, stored: Stored, failing: set<Call>)
    requires PublicationOk(cfg, w) && SessionsOk(cfg, w.redis)
    requires key in w.redis.sessions && s == w.redis.sessions[key].value && s.key == key
    requires s.status == InProgress && s.offset == s.size == stored.size
    requires Genuine(cfg, w.s3, CompletionEvent(cfg, key, s.checksum, stored.size, w.redis.now))
    requires stored.path == ObjectPath(cfg, key)
    requires forall e :: e in w.bus.calls ==> e.key != key
    ensures var w' := Announce(cfg, w, s, key, stored, failing).0;
            PublicationOk(cfg, w') && SessionsOk(cfg, w'.redis)
  {
    var mark := Fingerprint(key.ws, s.checksum);
    var event := CompletionEvent(cfg, key, s.checksum, stored.size, w.redis.now);
    if CheckDuplicate in failing {
      WriteFailedKeeps(cfg, w, s, WriteFailed in failing);
    } else if mark in w.redis.dedup {
      RejectDuplicateKeeps(cfg, w, s, w.redis.dedup[mark], failing);
    } else if !Accepted(event) {
      WriteFailedKeeps(cfg, w, s, WriteFailed in failing);
    } else {
      var called := w.(bus := w.bus.(calls := w.bus.calls + [event]));
      CallKeeps(cfg, w, event);
      if Publish in failing {
        UnpublishedKeeps(cfg, called, s, failing);
      } else {
        DeliverKeeps(cfg, called, event);
        CommitKeeps(cfg, called.(bus := called.bus.(delivered := w.bus.delivered + [event])), s, key, stored, failing);
      }
    }
  }

  /** From the assembly on. */
  lemma ReadyKeeps(cfg: Config, w: World, s: Session, chunks: seq<Bytes>, key: Key, failing: set<Call>)
    requires PublicationOk(cfg, w) && SessionsOk(cfg, w.redis)
    requires key in w.redis.sessions && s == w.redis.sessions[key].value && s.key == key
    requires s.status == InProgress && s.offset == s.size == |Concat(chunks)|
    ensures var w' := StoreAndAnnounce(cfg, w, s, chunks, key, failing).0;
            PublicationOk(cfg, w') && SessionsOk(cfg, w'.redis)
  {
    var (s3, stored) := Assemble(cfg, w.s3, key, chunks, s.checksum, failing);
    AssembleKeeps(cfg, w, key, chunks, s.checksum, failing);
    if stored.Err? {
      WriteFailedKeeps(cfg, w.(s3 := s3), s, WriteFailed in failing);
    } else {
      AssembleExits(cfg, w.s3, key, chunks, s.checksum, failing);
      NotCalledYet(cfg, w, key);
      AnnounceKeeps(cfg, w.(s3 := s3), s, key, stored.value, failing);
    }
  }

  /** Completion keeps both invariants, whichever of its calls raise. */
  lemma CompleteKeeps(cfg: Config, w: World, key: Key, failing: set<Call>)
    requires PublicationOk(cfg, w) && SessionsOk(cfg, w.redis)
    ensures var w' := CompleteUpload(cfg, w, key, failing).0;
            PublicationOk(cfg, w') && SessionsOk(cfg, w'.redis)
  {
    CheckCompleteOutcome(cfg, w.redis, key, failing);
    match CheckComplete(w.redis, key, failing)
    case Refused(_) =>
    case Broken(s, _) => WriteFailedKeeps(cfg, w, s, WriteFailed in failing);
    case Ready(s, chunks) => ReadyKeeps(cfg, w, s, chunks, key, failing);
  }

  /** A publish call leaves an object behind, so no call was made for a key that has none. */
  lemma NotCalledYet(cfg: Config, w: World, key: Key)
    requires CallsGenuine(cfg, w)
    ensures key !in w.s3.objects ==> forall e :: e in w.bus.calls ==> e.key != key
  {
    forall e | e in w.bus.calls ensures e.key in w.s3.objects {
      assert Genuine(cfg, w.s3, e);
    }
  }
}
