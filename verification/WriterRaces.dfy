/** What racing requests on one session do break, by example, and when exactly it breaks. */
module WriterRaces {
  import opened Types
  import opened Entity
  import opened Protocol
  import opened WriterInterleaving

  // ---- Reachability ----

  predicate Sends(commands: seq<Command>, allowed: set<PatchRequest>) {
    forall c :: c in commands && c.LoadToSend? ==> c.q in allowed
  }

  /** Some interleaving of requests, among them only these chunk requests, leads from s to s'. */
  ghost predicate Reaches(cfg: Config, allowed: set<PatchRequest>, s: State, s': State) {
    exists commands :: Sends(commands, allowed) && RunAll(cfg, s, commands) == s'
  }

  lemma Leads(cfg: Config, allowed: set<PatchRequest>, s: State, commands: seq<Command>)
    requires Sends(commands, allowed)
    ensures Reaches(cfg, allowed, s, RunAll(cfg, s, commands))
  {
  }

  lemma OneLeads(cfg: Config, allowed: set<PatchRequest>, s: State, c: Command)
    requires Sends([c], allowed)
    ensures Reaches(cfg, allowed, s, Exec(cfg, s, c))
  {
    RunOne(cfg, s, c);
  }

  lemma TwoLead(cfg: Config, allowed: set<PatchRequest>, s: State, a: Command, b: Command)
    requires Sends([a, b], allowed)
    ensures Reaches(cfg, allowed, s, Exec(cfg, Exec(cfg, s, a), b))
  {
    RunTwo(cfg, s, a, b);
  }

  lemma ReachesOn(cfg: Config, allowed: set<PatchRequest>, s: State, s': State, s'': State)
    requires Reaches(cfg, allowed, s, s') && Reaches(cfg, allowed, s', s'')
    ensures Reaches(cfg, allowed, s, s'')
  {
    var first :| Sends(first, allowed) && RunAll(cfg, s, first) == s';
    var second :| Sends(second, allowed) && RunAll(cfg, s', second) == s'';
    RunAppend(cfg, s, first, second);
    assert Sends(first + second, allowed);
  }

  /** A state in which nothing is uploaded or published yet. */
  function At(record: Option<Session>, timed: bool, chunks: map<int, Bytes>, freed: nat, tasks: map<nat, Task>): State {
    State(record, timed, chunks, None, 0, 0, freed, tasks)
  }

  // ---- Examples ----

  function RequestFor(cfg: Config, start: Session, parts: seq<Bytes>, i: nat): PatchRequest
    requires i < |parts|
  {
    PatchRequest(start.key, Boundary(parts, i), parts[i], cfg.hash(parts[i]))
  }

  /** The record after the first n chunks. */
  function RecordAt(cfg: Config, start: Session, parts: seq<Bytes>, n: nat): Session
    requires n <= |parts|
  {
    start.(manifest := seq(n, i requires 0 <= i < n => ChunkMeta(i, |parts[i]|, cfg.hash(parts[i]))),
           offset := Boundary(parts, n),
           status := if n == 0 then Pending else InProgress)
  }

  /** A request for chunk n that finds n chunks passes every check and appends that chunk. */
  lemma NextFits(cfg: Config, start: Session, parts: seq<Bytes>, n: nat)
    requires CreatedFor(cfg, start, parts) && n < |parts| && |parts[n]| <= MAX_CHUNK_SIZE
    ensures var r, q := RecordAt(cfg, start, parts, n), RequestFor(cfg, start, parts, n);
            && CheckPatch(cfg, r, q).None?
            && Appended(r, |q.data|, q.checksum) == Some(RecordAt(cfg, start, parts, n + 1))
            && HonestRequest(cfg, parts, q)
  {
    var r, q := RecordAt(cfg, start, parts, n), RequestFor(cfg, start, parts, n);
    NextBoundary(parts, n);
    DigestIsNotBlank(cfg.hash(parts[n]));
    forall i | 0 <= i < |parts| && q.offset == Boundary(parts, i) ensures q.data == parts[i] {
      BoundariesAgree(parts, i, n);
      BoundariesAgree(parts, n, i);
    }
    assert parts[..|parts|] == parts;
    if n + 1 < |parts| {
      BoundariesRise(parts, n + 1, |parts|);
    }
    assert RecordAt(cfg, start, parts, n + 1).manifest == r.manifest + [ChunkMeta(n, |q.data|, q.checksum)];
  }

  lemma StartIsRecordZero(cfg: Config, start: Session, parts: seq<Bytes>)
    requires CreatedFor(cfg, start, parts)
    ensures start == RecordAt(cfg, start, parts, 0)
  {
    assert parts[..0] == [];
  }

  /**
   * The persisted offset is not monotonic. Two requests for chunk 0 read the empty record; the first lands, and chunk 1
   * after it; when the second lands, the record falls back from two chunks to one. The chunks already stored stay, so
   * the client resumes at the lower offset and loses nothing.
   */
  lemma OffsetCanMoveBack(cfg: Config, start: Session, parts: seq<Bytes>)
    requires CreatedFor(cfg, start, parts) && |parts| >= 2
    requires |parts[0]| <= MAX_CHUNK_SIZE && |parts[1]| <= MAX_CHUNK_SIZE
    ensures var q0, q1 := RequestFor(cfg, start, parts, 0), RequestFor(cfg, start, parts, 1);
            var r1, r2 := RecordAt(cfg, start, parts, 1), RecordAt(cfg, start, parts, 2);
            var chunks := map[0 := parts[0], 1 := parts[1]];
            var ahead := At(Some(r2), true, chunks, 0, map[2 := Verified(start, q0)]);
            && HonestRequest(cfg, parts, q0) && HonestRequest(cfg, parts, q1)
            && Reaches(cfg, {q0, q1}, Created(start), ahead)
            && Reaches(cfg, {q0, q1}, ahead, At(Some(r1), true, chunks, 0, map[]))
            && r1.offset < r2.offset
  {
    var q0, q1 := RequestFor(cfg, start, parts, 0), RequestFor(cfg, start, parts, 1);
    var r1 := RecordAt(cfg, start, parts, 1);
    StartIsRecordZero(cfg, start, parts);
    NextFits(cfg, start, parts, 0);
    NextFits(cfg, start, parts, 1);
    BoundariesRise(parts, 1, 2);
    OvertakingRun(cfg, start, r1, RecordAt(cfg, start, parts, 2), q0, q1);
    OvertakenLands(cfg, start, r1, RecordAt(cfg, start, parts, 2), q0, q1);
  }

  lemma FirstLands(cfg: Config, start: Session, r1: Session, q0: PatchRequest, allowed: set<PatchRequest>)
    requires CheckPatch(cfg, start, q0).None? && Appended(start, |q0.data|, q0.checksum) == Some(r1)
    requires start.manifest == [] && q0 in allowed
    ensures Reaches(cfg, allowed, Created(start),
              At(Some(r1), true, map[0 := q0.data], 0, map[2 := Verified(start, q0)]))
  {
    var s0, s1 := Created(start), At(Some(start), true, map[], 0, map[2 := Verified(start, q0)]);
    LoadReaches(cfg, allowed, s0, 2, start, q0);
    SendsReach(cfg, allowed, s1, 1, start, q0, r1);
    ReachesOn(cfg, allowed, s0, s1, At(Some(r1), true, map[0 := q0.data], 0, map[2 := Verified(start, q0)]));
  }

  lemma OvertakingRun(cfg: Config, start: Session, r1: Session, r2: Session, q0: PatchRequest, q1: PatchRequest)
    requires CheckPatch(cfg, start, q0).None? && Appended(start, |q0.data|, q0.checksum) == Some(r1)
    requires CheckPatch(cfg, r1, q1).None? && Appended(r1, |q1.data|, q1.checksum) == Some(r2)
    requires start.manifest == []
    ensures var chunks := map[0 := q0.data, 1 := q1.data];
            Reaches(cfg, {q0, q1}, Created(start), At(Some(r2), true, chunks, 0, map[2 := Verified(start, q0)]))
  {
    var allowed, waiting := {q0, q1}, map[2 := Verified(start, q0)];
    var s2 := At(Some(r1), true, map[0 := q0.data], 0, waiting);
    var s3 := At(Some(r2), true, map[0 := q0.data, 1 := q1.data], 0, waiting);
    FirstLands(cfg, start, r1, q0, allowed);
    SendsReach(cfg, allowed, s2, 1, r1, q1, r2);
    assert s2.chunks[1 := q1.data] == s3.chunks;
    ReachesOn(cfg, allowed, Created(start), s2, s3);
  }

  lemma OvertakenLands(cfg: Config, start: Session, r1: Session, r2: Session, q0: PatchRequest, q1: PatchRequest)
    requires CheckPatch(cfg, start, q0).None? && Appended(start, |q0.data|, q0.checksum) == Some(r1)
    requires start.manifest == []
    ensures var chunks := map[0 := q0.data, 1 := q1.data];
            Reaches(cfg, {q0, q1}, At(Some(r2), true, chunks, 0, map[2 := Verified(start, q0)]),
                                   At(Some(r1), true, chunks, 0, map[]))
  {
    var s := At(Some(r2), true, map[0 := q0.data, 1 := q1.data], 0, map[2 := Verified(start, q0)]);
    LandingReaches(cfg, {q0, q1}, s, 2, start, q0);
    assert s.chunks[0 := q0.data] == s.chunks && s.tasks - {2} == map[];
  }

  lemma LoadReaches(cfg: Config, allowed: set<PatchRequest>, s: State, p: nat, r: Session, q: PatchRequest)
    requires p !in s.tasks && s.record == Some(r) && q in allowed && CheckPatch(cfg, r, q).None?
    ensures Reaches(cfg, allowed, s, Put(s, p, Verified(r, q)))
  {
    OneLeads(cfg, allowed, s, LoadToSend(p, q));
  }

  lemma SendsReach(cfg: Config, allowed: set<PatchRequest>, s: State, p: nat, r: Session, q: PatchRequest, r': Session)
    requires p !in s.tasks && s.record == Some(r) && q in allowed
    requires CheckPatch(cfg, r, q).None? && Appended(r, |q.data|, q.checksum) == Some(r')
    ensures Reaches(cfg, allowed, s, s.(record := Some(r'), chunks := s.chunks[|r.manifest| := q.data]))
  {
    Leads(cfg, allowed, s, Sending(p, q));
    SendsAlone(cfg, s, p, r, q);
  }

  lemma LandingReaches(cfg: Config, allowed: set<PatchRequest>, s: State, p: nat, r: Session, q: PatchRequest)
    requires p in s.tasks && s.tasks[p] == Verified(r, q) && s.record.Some?
    requires r.status.Live() && Appended(r, |q.data|, q.checksum).Some?
    ensures Reaches(cfg, allowed, s, s.(record := Appended(r, |q.data|, q.checksum),
                                        chunks := s.chunks[|r.manifest| := q.data], tasks := s.tasks - {p}))
  {
    Leads(cfg, allowed, s, Landing(p));
    Lands(cfg, s, p, r, q);
  }

  lemma StoreReaches(cfg: Config, allowed: set<PatchRequest>, s: State, p: nat, r: Session, q: PatchRequest, r': Session)
    requires p !in s.tasks && s.record == Some(r) && q in allowed
    requires CheckPatch(cfg, r, q).None? && Appended(r, |q.data|, q.checksum) == Some(r')
    ensures Reaches(cfg, allowed, s, s.(chunks := s.chunks[|r.manifest| := q.data], tasks := s.tasks[p := Prepared(r')]))
  {
    TwoLead(cfg, allowed, s, LoadToSend(p, q), StoreChunk(p));
    assert s.tasks[p := Verified(r, q)][p := Prepared(r')] == s.tasks[p := Prepared(r')];
  }

  lemma ConfirmReaches(cfg: Config, allowed: set<PatchRequest>, s: State, p: nat, r: Session)
    requires p in s.tasks && s.tasks[p] == Prepared(r) && s.record.Some?
    ensures Reaches(cfg, allowed, s, Put(s, p, Confirmed(r)))
  {
    OneLeads(cfg, allowed, s, Confirm(p));
  }

  /** Between TTL and HSET the key may have gone: HSET creates it again. */
  lemma LateWriteReaches(cfg: Config, allowed: set<PatchRequest>, s: State, p: nat, r: Session)
    requires p in s.tasks && s.tasks[p] == Confirmed(r) && r.status != Aborted && r.status != Complete
    ensures Reaches(cfg, allowed, s,
              s.(record := Some(r), timed := s.record.Some? && s.timed, tasks := s.tasks - {p}))
  {
    OneLeads(cfg, allowed, s, Write(p));
  }

  /** A prepared record is written when the key is still there. */
  lemma WriteReaches(cfg: Config, allowed: set<PatchRequest>, s: State, p: nat, r: Session)
    requires p in s.tasks && s.tasks[p] == Prepared(r) && s.record.Some?
    ensures Reaches(cfg, allowed, s,
              s.(record := Some(r),
                 tasks := if r.status == Aborted then s.tasks[p := Deleting]
                          else if r.status == Complete then s.tasks[p := Freeing]
                          else s.tasks - {p}))
  {
    TwoLead(cfg, allowed, s, Confirm(p), Write(p));
    assert s.tasks[p := Confirmed(r)][p := Deleting] == s.tasks[p := Deleting];
    assert s.tasks[p := Confirmed(r)][p := Freeing] == s.tasks[p := Freeing];
    assert s.tasks[p := Confirmed(r)] - {p} == s.tasks - {p};
  }

  lemma DeleteReaches(cfg: Config, allowed: set<PatchRequest>, s: State, p: nat)
    requires p in s.tasks && s.tasks[p] == Deleting
    ensures Reaches(cfg, allowed, s, s.(record := None, freed := s.freed + 1, tasks := s.tasks - {p}))
  {
    TwoLead(cfg, allowed, s, Delete(p), Free(p));
    assert s.tasks[p := Freeing] - {p} == s.tasks - {p};
  }

  /** Two aborts that read the same live record give its slot back twice. */
  lemma TwoAbortsFreeTwice(cfg: Config, start: Session)
    requires start.status.Live()
    ensures Reaches(cfg, {}, Created(start), At(None, true, map[], 2, map[]))
  {
    var s0, ended := Created(start), start.(status := Aborted);
    var s1 := s0.(tasks := map[1 := Prepared(ended), 2 := Prepared(ended)]);
    var s2 := At(Some(ended), true, map[], 0, map[1 := Deleting, 2 := Prepared(ended)]);
    var s3 := At(Some(ended), true, map[], 0, map[1 := Deleting, 2 := Deleting]);
    var s4 := At(None, true, map[], 1, map[2 := Deleting]);
    assert Reaches(cfg, {}, s0, s1) by {
      TwoLead(cfg, {}, s0, LoadToAbort(1), LoadToAbort(2));
    }
    assert s1.tasks[1 := Deleting] == s2.tasks;
    WriteReaches(cfg, {}, s1, 1, ended);
    assert s2.tasks[2 := Deleting] == s3.tasks;
    WriteReaches(cfg, {}, s2, 2, ended);
    assert s3.tasks - {1} == s4.tasks;
    DeleteReaches(cfg, {}, s3, 1);
    assert s4.tasks - {2} == map[];
    DeleteReaches(cfg, {}, s4, 2);
    ReachesOn(cfg, {}, s0, s1, s2);
    ReachesOn(cfg, {}, s0, s2, s3);
    ReachesOn(cfg, {}, s0, s3, s4);
    ReachesOn(cfg, {}, s0, s4, At(None, true, map[], 2, map[]));
  }

  lemma AbortAlone(cfg: Config, allowed: set<PatchRequest>, s: State, p: nat)
    requires p !in s.tasks && s.record.Some? && s.record.value.status.Live()
    ensures Reaches(cfg, allowed, s, s.(record := None, freed := s.freed + 1))
  {
    var ended := s.record.value.(status := Aborted);
    var s1, s2 := Put(s, p, Prepared(ended)), Put(s.(record := Some(ended)), p, Deleting);
    OneLeads(cfg, allowed, s, LoadToAbort(p));
    WriteReaches(cfg, allowed, s1, p, ended);
    assert s1.tasks[p := Deleting] == s2.tasks;
    DeleteReaches(cfg, allowed, s2, p);
    assert s2.tasks - {p} == s.tasks;
    ReachesOn(cfg, allowed, s, s1, s2);
    ReachesOn(cfg, allowed, s, s2, s.(record := None, freed := s.freed + 1));
  }

  /**
   * An abort can be undone: a chunk request is past its TTL command while an abort runs from its first command to its
   * last, and its HSET then creates the deleted record again. The session is live although its slot was given back, and
   * its key has no TTL, so it does not expire.
   */
  lemma AbortCanBeUndone(cfg: Config, start: Session, r: Session, q: PatchRequest)
    requires CheckPatch(cfg, start, q).None? && Appended(start, |q.data|, q.checksum) == Some(r)
    ensures r.status.Live()
    ensures Reaches(cfg, {q}, Created(start), At(Some(r), false, map[|start.manifest| := q.data], 1, map[]))
  {
    var s0, chunks := Created(start), map[|start.manifest| := q.data];
    var s1 := At(Some(start), true, chunks, 0, map[1 := Prepared(r)]);
    var s2 := At(Some(start), true, chunks, 0, map[1 := Confirmed(r)]);
    var s3 := At(None, true, chunks, 1, map[1 := Confirmed(r)]);
    StoreReaches(cfg, {q}, s0, 1, start, q, r);
    ConfirmReaches(cfg, {q}, s1, 1, r);
    assert s1.tasks[1 := Confirmed(r)] == s2.tasks;
    ReachesOn(cfg, {q}, s0, s1, s2);
    AbortAlone(cfg, {q}, s2, 2);
    ReachesOn(cfg, {q}, s0, s2, s3);
    LateWriteReaches(cfg, {q}, s3, 1, r);
    assert s3.tasks - {1} == map[];
    ReachesOn(cfg, {q}, s0, s3, At(Some(r), false, chunks, 1, map[]));
  }

  lemma BothStored(cfg: Config, start: Session, short: PatchRequest, long: PatchRequest, r1: Session, r2: Session)
    requires CheckPatch(cfg, start, short).None? && Appended(start, |short.data|, short.checksum) == Some(r1)
    requires CheckPatch(cfg, start, long).None? && Appended(start, |long.data|, long.checksum) == Some(r2)
    ensures Reaches(cfg, {short, long}, Created(start),
              At(Some(start), true, map[|start.manifest| := long.data], 0, map[1 := Prepared(r1), 2 := Prepared(r2)]))
  {
    var s0, allowed, chunks := Created(start), {short, long}, map[|start.manifest| := long.data];
    var s1 := At(Some(start), true, map[|start.manifest| := short.data], 0, map[1 := Prepared(r1)]);
    var s2 := At(Some(start), true, chunks, 0, map[1 := Prepared(r1), 2 := Prepared(r2)]);
    StoreReaches(cfg, allowed, s0, 1, start, short, r1);
    StoreReaches(cfg, allowed, s1, 2, start, long, r2);
    assert map[|start.manifest| := short.data][|start.manifest| := long.data] == chunks;
    ReachesOn(cfg, allowed, s0, s1, s2);
  }

  /**
   * That all clients cut the file at the same places is needed: with two cuts of the same bytes a record may list a
   * chunk with a size that is not the size of the stored bytes.
   */
  lemma CutsMustAgree(cfg: Config, start: Session, short: PatchRequest, long: PatchRequest, r1: Session, r2: Session)
    requires |short.data| < |long.data| && short.data <= long.data
    requires CheckPatch(cfg, start, short).None? && Appended(start, |short.data|, short.checksum) == Some(r1)
    requires CheckPatch(cfg, start, long).None? && Appended(start, |long.data|, long.checksum) == Some(r2)
    ensures var n := |start.manifest|;
            && Reaches(cfg, {short, long}, Created(start), At(Some(r1), true, map[n := long.data], 0, map[]))
            && r1.manifest[n].size == |short.data| != |long.data|
  {
    var s0, allowed, chunks := Created(start), {short, long}, map[|start.manifest| := long.data];
    var s2 := At(Some(start), true, chunks, 0, map[1 := Prepared(r1), 2 := Prepared(r2)]);
    var s3 := At(Some(r2), true, chunks, 0, map[1 := Prepared(r1)]);
    BothStored(cfg, start, short, long, r1, r2);
    assert s2.tasks - {2} == s3.tasks;
    WriteReaches(cfg, allowed, s2, 2, r2);
    ReachesOn(cfg, allowed, s0, s2, s3);
    assert s3.tasks - {1} == map[];
    WriteReaches(cfg, allowed, s3, 1, r1);
    ReachesOn(cfg, allowed, s0, s3, At(Some(r1), true, chunks, 0, map[]));
  }

  // ---- When exactly the offset falls ----

  predicate OnlyOneMoves(s: State, s': State, p: nat) {
    s'.tasks == s.tasks || s'.tasks == s.tasks - {p} || (p in s'.tasks && s'.tasks == s.tasks[p := s'.tasks[p]])
  }

  lemma OthersStay(s: State, s': State, p: nat)
    requires OnlyOneMoves(s, s', p)
    ensures s'.tasks - {p} == s.tasks - {p}
  {
  }

  lemma ContinueMovesOne(cfg: Config, s: State, c: Command, t: Task)
    requires Continues(c)
    ensures OnlyOneMoves(s, Continue(cfg, s, c, t), c.p)
  {
  }

  /** A command of a request leaves the other requests where they are. */
  lemma OneTask(cfg: Config, s: State, c: Command)
    requires !c.Expire? && !c.DropChunk?
    ensures Exec(cfg, s, c).tasks - {c.p} == s.tasks - {c.p}
  {
    if Continues(c) && c.p in s.tasks {
      ContinueMovesOne(cfg, s, c, s.tasks[c.p]);
    }
    OthersStay(s, Exec(cfg, s, c), c.p);
  }

  lemma OtherTask(cfg: Config, s: State, c: Command, p: nat)
    requires p in Exec(cfg, s, c).tasks && (c.Expire? || c.DropChunk? || c.p != p)
    ensures p in s.tasks && Exec(cfg, s, c).tasks[p] == s.tasks[p]
  {
    if !c.Expire? && !c.DropChunk? {
      OneTask(cfg, s, c);
      assert p in Exec(cfg, s, c).tasks - {c.p};
    }
  }

  /** The request writes back a record with fewer chunks than the stored one has. */
  predicate WritesBehind(s: State, c: Command) {
    && c.Write? && c.p in s.tasks && s.tasks[c.p].Confirmed? && s.record.Some?
    && |s.tasks[c.p].s.manifest| < |s.record.value.manifest|
  }

  predicate Recreates(s: State, c: Command) {
    c.Write? && c.p in s.tasks && s.tasks[c.p].Confirmed? && s.record.None?
  }

  lemma RecordUnlessWritten(cfg: Config, s: State, c: Command)
    requires !(c.Write? && c.p in s.tasks && s.tasks[c.p].Confirmed?)
    ensures Exec(cfg, s, c).record == s.record || Exec(cfg, s, c).record == None
  {
  }

  lemma BoundariesAgree(parts: seq<Bytes>, m: nat, n: nat)
    requires NoneEmpty(parts) && m <= |parts| && n <= |parts|
    ensures Boundary(parts, m) < Boundary(parts, n) <==> m < n
  {
    if m < n {
      BoundariesRise(parts, m, n);
    } else if n < m {
      BoundariesRise(parts, n, m);
    }
  }

  /** One command lowers the persisted offset if and only if it writes back such an older record. */
  lemma OffsetFallsExactly(cfg: Config, start: Session, parts: seq<Bytes>, s: State, c: Command)
    requires CreatedFor(cfg, start, parts) && Consistent(cfg, start, parts, s)
    requires s.record.Some? && Exec(cfg, s, c).record.Some?
    ensures Exec(cfg, s, c).record.value.offset < s.record.value.offset <==> WritesBehind(s, c)
  {
    if c.Write? && c.p in s.tasks && s.tasks[c.p].Confirmed? {
      var r := s.tasks[c.p].s;
      assert TaskOk(cfg, start, parts, s, s.tasks[c.p]);
      BoundariesAgree(parts, |r.manifest|, |s.record.value.manifest|);
    } else {
      RecordUnlessWritten(cfg, s, c);
    }
  }

  /** No command of the run writes an older record back, or a record that has gone. */
  predicate NeverBehind(cfg: Config, s: State, commands: seq<Command>) {
    commands != [] ==>
      var init, c := commands[..|commands| - 1], commands[|commands| - 1];
      NeverBehind(cfg, s, init) && !WritesBehind(RunAll(cfg, s, init), c) && !Recreates(RunAll(cfg, s, init), c)
  }

  lemma HonestPrefix(cfg: Config, parts: seq<Bytes>, first: seq<Command>, second: seq<Command>)
    requires HonestCommands(cfg, parts, first + second)
    ensures HonestCommands(cfg, parts, first)
  {
    forall c | c in first && c.LoadToSend? ensures HonestRequest(cfg, parts, c.q) {
      assert c in first + second;
    }
  }

  /** In such a run the persisted offset never falls, however the commands interleave. */
  lemma {:induction false} OffsetsRise(cfg: Config, start: Session, parts: seq<Bytes>, before: seq<Command>,
                                       more: seq<Command>)
    requires CreatedFor(cfg, start, parts) && HonestCommands(cfg, parts, before + more)
    requires NeverBehind(cfg, RunAll(cfg, Created(start), before), more)
    ensures var s := RunAll(cfg, Created(start), before);
            var s' := RunAll(cfg, s, more);
            s.record.Some? && s'.record.Some? ==> s.record.value.offset <= s'.record.value.offset
    ensures RunAll(cfg, Created(start), before).record.None? ==>
              RunAll(cfg, RunAll(cfg, Created(start), before), more).record.None?
  {
    if more != [] {
      var init, c := more[..|more| - 1], more[|more| - 1];
      assert before + more == (before + init) + [c];
      HonestPrefix(cfg, parts, before + init, [c]);
      OffsetsRise(cfg, start, parts, before, init);
      RunAppend(cfg, Created(start), before, init);
      RunKeeps(cfg, start, parts, before + init);
      LastRises(cfg, start, parts, RunAll(cfg, Created(start), before + init), c);
    }
  }

  lemma LastRises(cfg: Config, start: Session, parts: seq<Bytes>, s: State, c: Command)
    requires CreatedFor(cfg, start, parts) && Consistent(cfg, start, parts, s)
    requires !WritesBehind(s, c) && !Recreates(s, c)
    ensures var s' := Exec(cfg, s, c);
            s'.record.Some? ==> s.record.Some? && s.record.value.offset <= s'.record.value.offset
  {
    var s' := Exec(cfg, s, c);
    if s'.record.Some? {
      if s.record.None? {
        RecordUnlessWritten(cfg, s, c);
      } else {
        OffsetFallsExactly(cfg, start, parts, s, c);
      }
    }
  }

  // ---- When exactly a deleted record comes back ----

  predicate SomeConfirmed(s: State) {
    exists p :: p in s.tasks && s.tasks[p].Confirmed?
  }

  /** A missing record comes back exactly by the HSET of a request that is past its TTL; the key then has no TTL. */
  lemma RecreatedExactly(cfg: Config, s: State, c: Command)
    requires s.record.None?
    ensures Exec(cfg, s, c).record.Some? <==> Recreates(s, c)
    ensures Exec(cfg, s, c).record.Some? ==> !Exec(cfg, s, c).timed
  {
  }

  lemma OwnStaysUnconfirmed(cfg: Config, s: State, c: Command)
    requires s.record.None? && !SomeConfirmed(s) && !c.Expire? && !c.DropChunk?
    ensures c.p in Exec(cfg, s, c).tasks ==> !Exec(cfg, s, c).tasks[c.p].Confirmed?
  {
  }

  lemma StepStaysGone(cfg: Config, s: State, c: Command)
    requires s.record.None? && !SomeConfirmed(s)
    ensures Exec(cfg, s, c).record.None? && !SomeConfirmed(Exec(cfg, s, c))
  {
    var s' := Exec(cfg, s, c);
    forall p | p in s'.tasks ensures !s'.tasks[p].Confirmed? {
      if c.Expire? || c.DropChunk? || c.p != p {
        OtherTask(cfg, s, c, p);
      } else {
        OwnStaysUnconfirmed(cfg, s, c);
      }
    }
    assert !Recreates(s, c);
    RecreatedExactly(cfg, s, c);
  }

  lemma {:induction false} StaysGone(cfg: Config, s: State, commands: seq<Command>)
    requires s.record.None? && !SomeConfirmed(s)
    ensures RunAll(cfg, s, commands).record.None? && !SomeConfirmed(RunAll(cfg, s, commands))
  {
    if commands != [] {
      var init := commands[..|commands| - 1];
      StaysGone(cfg, s, init);
      StepStaysGone(cfg, RunAll(cfg, s, init), commands[|commands| - 1]);
    }
  }

  /** A record that is gone stays gone, whatever happens, if and only if no request is past its TTL. */
  lemma GoneForGoodExactly(cfg: Config, s: State)
    requires s.record.None?
    ensures (forall commands :: RunAll(cfg, s, commands).record.None?) <==> !SomeConfirmed(s)
  {
    if SomeConfirmed(s) {
      var p :| p in s.tasks && s.tasks[p].Confirmed?;
      RunOne(cfg, s, Write(p));
      assert RunAll(cfg, s, [Write(p)]).record.Some?;
    } else {
      forall commands ensures RunAll(cfg, s, commands).record.None? {
        StaysGone(cfg, s, commands);
      }
    }
  }

  lemma StepNeverExpires(cfg: Config, s: State, c: Command)
    requires s.record.Some? && !s.timed
    ensures var s' := Exec(cfg, s, c);
            && (s'.record.None? <==> c.Delete? && c.p in s.tasks && s.tasks[c.p].Deleting?)
            && (s'.record.Some? ==> !s'.timed)
  {
  }

  /** A record without a TTL never expires: only a DEL takes it away, and nothing gives it a TTL. */
  lemma {:induction false} NeverExpires(cfg: Config, s: State, commands: seq<Command>)
    requires s.record.Some? && !s.timed && forall c :: c in commands ==> !c.Delete?
    ensures var s' := RunAll(cfg, s, commands);
            s'.record.Some? && !s'.timed
  {
    if commands != [] {
      var init, c := commands[..|commands| - 1], commands[|commands| - 1];
      NeverExpires(cfg, s, init);
      StepNeverExpires(cfg, RunAll(cfg, s, init), c);
    }
  }

  // ---- When exactly a session frees more than one slot ----

  predicate Ends(status: Status) {
    status == Aborted || status == Complete
  }

  predicate AtExit(t: Task) {
    t.Deleting? || t.Freeing?
  }

  /** The requests that have written ABORTED or COMPLETE and not yet given the slot back. */
  function Exiting(tasks: map<nat, Task>): set<nat> {
    set p | p in tasks && AtExit(tasks[p])
  }

  /** The only writes after which the writer goes on to give the slot back. */
  predicate WritesEnd(s: State, c: Command) {
    && c.Write? && c.p in s.tasks && s.tasks[c.p].Confirmed? && !s.tasks[c.p].again && Ends(s.tasks[c.p].s.status)
  }

  predicate LosesSlot(s: State, c: Command) {
    c.Raise? && c.p in s.tasks && AtExit(s.tasks[c.p])
  }

  /** How often ABORTED or COMPLETE was written. */
  function EndWrites(cfg: Config, s: State, commands: seq<Command>): nat {
    if commands == [] then 0
    else
      var init := commands[..|commands| - 1];
      EndWrites(cfg, s, init) + if WritesEnd(RunAll(cfg, s, init), commands[|commands| - 1]) then 1 else 0
  }

  /** How many requests raised after that. */
  function LostSlots(cfg: Config, s: State, commands: seq<Command>): nat {
    if commands == [] then 0
    else
      var init := commands[..|commands| - 1];
      LostSlots(cfg, s, init) + if LosesSlot(RunAll(cfg, s, init), commands[|commands| - 1]) then 1 else 0
  }

  function OneIfExiting(tasks: map<nat, Task>, p: nat): nat {
    if p in tasks && AtExit(tasks[p]) then 1 else 0
  }

  lemma ExitingChange(tasks: map<nat, Task>, tasks': map<nat, Task>, p: nat)
    requires tasks' - {p} == tasks - {p}
    ensures |Exiting(tasks')| == |Exiting(tasks)| - OneIfExiting(tasks, p) + OneIfExiting(tasks', p)
  {
    ExitingWithout(tasks, p);
    ExitingWithout(tasks', p);
  }

  lemma ExitingWithout(tasks: map<nat, Task>, p: nat)
    ensures |Exiting(tasks - {p})| == |Exiting(tasks)| - OneIfExiting(tasks, p)
  {
    assert Exiting(tasks - {p}) == Exiting(tasks) - {p};
  }

  lemma ContinueExits(cfg: Config, s: State, c: Command)
    requires Continues(c) && c.p in s.tasks
    ensures var s' := Continue(cfg, s, c, s.tasks[c.p]);
            (s'.freed + OneIfExiting(s'.tasks, c.p) + (if LosesSlot(s, c) then 1 else 0)
             == s.freed + OneIfExiting(s.tasks, c.p) + (if WritesEnd(s, c) then 1 else 0))
  {
  }

  lemma ExitMove(cfg: Config, s: State, c: Command)
    requires !c.Expire? && !c.DropChunk?
    ensures var s' := Exec(cfg, s, c);
            (s'.freed + OneIfExiting(s'.tasks, c.p) + (if LosesSlot(s, c) then 1 else 0)
             == s.freed + OneIfExiting(s.tasks, c.p) + (if WritesEnd(s, c) then 1 else 0))
  {
    if Continues(c) && c.p in s.tasks {
      ContinueExits(cfg, s, c);
    }
  }

  lemma ExitStep(cfg: Config, s: State, c: Command)
    ensures var s' := Exec(cfg, s, c);
            (s'.freed + |Exiting(s'.tasks)| + (if LosesSlot(s, c) then 1 else 0)
             == s.freed + |Exiting(s.tasks)| + (if WritesEnd(s, c) then 1 else 0))
  {
    if !c.Expire? && !c.DropChunk? {
      OneTask(cfg, s, c);
      ExitMove(cfg, s, c);
      ExitingChange(s.tasks, Exec(cfg, s, c).tasks, c.p);
    }
  }

  /**
   * Conservation of slots, from any state on: what is given back, on its way or lost is what was before and one for each
   * ABORTED or COMPLETE written since.
   */
  lemma {:induction false} FreedAsWritten(cfg: Config, s: State, commands: seq<Command>)
    ensures var s' := RunAll(cfg, s, commands);
            (s'.freed + |Exiting(s'.tasks)| + LostSlots(cfg, s, commands)
             == s.freed + |Exiting(s.tasks)| + EndWrites(cfg, s, commands))
  {
    if commands != [] {
      var init := commands[..|commands| - 1];
      FreedAsWritten(cfg, s, init);
      ExitStep(cfg, RunAll(cfg, s, init), commands[|commands| - 1]);
    }
  }

  /**
   * So a session gives back more than one slot only if ABORTED and COMPLETE together were written more than once, and
   * exactly then when no request is under way after such a write and none raised there.
   */
  lemma FreedTwiceExactly(cfg: Config, start: Session, commands: seq<Command>)
    ensures var s := RunAll(cfg, Created(start), commands);
            && (s.freed > 1 ==> EndWrites(cfg, Created(start), commands) > 1)
            && (Exiting(s.tasks) == {} && LostSlots(cfg, Created(start), commands) == 0 ==>
                  (s.freed > 1 <==> EndWrites(cfg, Created(start), commands) > 1))
  {
    assert Exiting(Created(start).tasks) == {};
    FreedAsWritten(cfg, Created(start), commands);
  }

  // ---- When exactly another slot can still be freed ----

  predicate HoldsEnd(t: Task) {
    (t.Prepared? || t.Confirmed?) && !t.again && Ends(t.s.status)
  }

  /** What the request still has to write is, or can become, ABORTED or COMPLETE without reading the record or HEAD. */
  predicate HeadsForEnd(cfg: Config, t: Task) {
    HoldsEnd(t) || t.Uploaded? || (t.Uploading? && cfg.hash(t.data) == t.s.checksum)
  }

  /** Such a request is past its TTL, or can still pass it. */
  predicate EndAhead(cfg: Config, s: State) {
    exists p :: p in s.tasks && HeadsForEnd(cfg, s.tasks[p])
                && (s.tasks[p].Confirmed? || s.record.Some? || SomeConfirmed(s))
  }

  /** A record read before it is written back is live unless the request means to end the session. */
  predicate LiveInHand(t: Task) {
    && (t.Verified? ==> t.s.status.Live())
    && ((t.Prepared? || t.Confirmed?) && t.again ==> t.s.status == Failed)
  }

  predicate AllLiveInHand(s: State) {
    forall p :: p in s.tasks ==> LiveInHand(s.tasks[p])
  }

  /** No further abort reads the record, and no further completion passes HEAD. */
  predicate NoNewEnds(commands: seq<Command>) {
    forall c :: c in commands ==> !c.LoadToAbort? && !c.Head?
  }

  lemma OwnLiveInHand(cfg: Config, s: State, c: Command)
    requires AllLiveInHand(s) && !c.Expire? && !c.DropChunk? && c.p in Exec(cfg, s, c).tasks
    ensures LiveInHand(Exec(cfg, s, c).tasks[c.p])
  {
    assert c.p in s.tasks ==> LiveInHand(s.tasks[c.p]);
  }

  lemma StepLiveInHand(cfg: Config, s: State, c: Command)
    requires AllLiveInHand(s)
    ensures AllLiveInHand(Exec(cfg, s, c))
  {
    var s' := Exec(cfg, s, c);
    forall p | p in s'.tasks ensures LiveInHand(s'.tasks[p]) {
      if c.Expire? || c.DropChunk? || c.p != p {
        OtherTask(cfg, s, c, p);
      } else {
        OwnLiveInHand(cfg, s, c);
      }
    }
  }

  lemma OwnNewEnd(cfg: Config, s: State, c: Command)
    requires AllLiveInHand(s) && !c.LoadToAbort? && !c.Head? && !c.Expire? && !c.DropChunk?
    requires c.p in Exec(cfg, s, c).tasks && HeadsForEnd(cfg, Exec(cfg, s, c).tasks[c.p])
    ensures c.p in s.tasks && HeadsForEnd(cfg, s.tasks[c.p])
    ensures Exec(cfg, s, c).tasks[c.p].Confirmed? ==> s.tasks[c.p].Confirmed? || s.record.Some?
  {
    assert c.p in s.tasks ==> LiveInHand(s.tasks[c.p]);
  }

  lemma NewEnd(cfg: Config, s: State, c: Command, p: nat)
    requires AllLiveInHand(s) && !c.LoadToAbort? && !c.Head?
    requires p in Exec(cfg, s, c).tasks && HeadsForEnd(cfg, Exec(cfg, s, c).tasks[p])
    ensures p in s.tasks && HeadsForEnd(cfg, s.tasks[p])
    ensures Exec(cfg, s, c).tasks[p].Confirmed? ==> s.tasks[p].Confirmed? || s.record.Some?
  {
    if c.Expire? || c.DropChunk? || c.p != p {
      OtherTask(cfg, s, c, p);
    } else {
      OwnNewEnd(cfg, s, c);
    }
  }

  lemma StepNoEndAhead(cfg: Config, s: State, c: Command)
    requires AllLiveInHand(s) && !EndAhead(cfg, s) && !c.LoadToAbort? && !c.Head?
    ensures !EndAhead(cfg, Exec(cfg, s, c)) && !WritesEnd(s, c)
  {
    var s' := Exec(cfg, s, c);
    if EndAhead(cfg, s') {
      var p :| p in s'.tasks && HeadsForEnd(cfg, s'.tasks[p])
               && (s'.tasks[p].Confirmed? || s'.record.Some? || SomeConfirmed(s'));
      NewEnd(cfg, s, c, p);
      assert s.record.None? && !SomeConfirmed(s);
      StepStaysGone(cfg, s, c);
      assert false;
    }
  }

  lemma {:induction false} NoEndIsWritten(cfg: Config, s: State, commands: seq<Command>)
    requires AllLiveInHand(s) && !EndAhead(cfg, s) && NoNewEnds(commands)
    ensures EndWrites(cfg, s, commands) == 0
    ensures AllLiveInHand(RunAll(cfg, s, commands)) && !EndAhead(cfg, RunAll(cfg, s, commands))
  {
    if commands != [] {
      var init, c := commands[..|commands| - 1], commands[|commands| - 1];
      NoEndIsWritten(cfg, s, init);
      StepNoEndAhead(cfg, RunAll(cfg, s, init), c);
      StepLiveInHand(cfg, RunAll(cfg, s, init), c);
    }
  }

  /** The state after these commands, none of which lets a new request head for an end. */
  ghost predicate GoesOn(cfg: Config, s: State, s': State) {
    exists commands :: NoNewEnds(commands) && RunAll(cfg, s, commands) == s'
  }

  lemma GoesOnByOne(cfg: Config, s: State, s': State, c: Command)
    requires GoesOn(cfg, s, s') && !c.LoadToAbort? && !c.Head?
    ensures GoesOn(cfg, s, Exec(cfg, s', c))
  {
    var commands :| NoNewEnds(commands) && RunAll(cfg, s, commands) == s';
    assert (commands + [c])[..|commands|] == commands;
    assert NoNewEnds(commands + [c]) && RunAll(cfg, s, commands + [c]) == Exec(cfg, s', c);
  }

  /** A request after its write of ABORTED or COMPLETE frees a slot with its next commands. */
  lemma ExitFrees(cfg: Config, s: State, s': State, p: nat) returns (s'': State)
    requires GoesOn(cfg, s, s') && p in s'.tasks && AtExit(s'.tasks[p])
    ensures GoesOn(cfg, s, s'') && s''.freed == s'.freed + 1
  {
    var ready := if s'.tasks[p].Deleting? then Exec(cfg, s', Delete(p)) else s';
    if s'.tasks[p].Deleting? {
      GoesOnByOne(cfg, s, s', Delete(p));
    }
    GoesOnByOne(cfg, s, ready, Free(p));
    s'' := Exec(cfg, ready, Free(p));
  }

  lemma WriteFrees(cfg: Config, s: State, s': State, p: nat) returns (s'': State)
    requires GoesOn(cfg, s, s') && p in s'.tasks && s'.tasks[p].Confirmed? && HoldsEnd(s'.tasks[p])
    ensures GoesOn(cfg, s, s'') && s''.freed == s'.freed + 1
  {
    GoesOnByOne(cfg, s, s', Write(p));
    s'' := ExitFrees(cfg, s, Exec(cfg, s', Write(p)), p);
  }

  lemma ConfirmFrees(cfg: Config, s: State, s': State, p: nat) returns (s'': State)
    requires GoesOn(cfg, s, s') && p in s'.tasks && HoldsEnd(s'.tasks[p])
    requires s'.tasks[p].Confirmed? || s'.record.Some?
    ensures GoesOn(cfg, s, s'') && s''.freed == s'.freed + 1
  {
    if s'.tasks[p].Confirmed? {
      s'' := WriteFrees(cfg, s, s', p);
    } else {
      GoesOnByOne(cfg, s, s', Confirm(p));
      s'' := WriteFrees(cfg, s, Exec(cfg, s', Confirm(p)), p);
    }
  }

  /** An upload and a publish that succeed leave a record that says COMPLETE to be written. */
  lemma Announces(cfg: Config, s: State, s': State, p: nat) returns (s'': State)
    requires GoesOn(cfg, s, s') && p in s'.tasks && HeadsForEnd(cfg, s'.tasks[p])
    ensures GoesOn(cfg, s, s'') && p in s''.tasks && HoldsEnd(s''.tasks[p])
    ensures s''.freed == s'.freed && s''.record == s'.record
    ensures s'.tasks[p].Confirmed? ==> s'' == s'
  {
    if HoldsEnd(s'.tasks[p]) {
      s'' := s';
    } else {
      var there := if s'.tasks[p].Uploading? then Exec(cfg, s', Upload(p)) else s';
      if s'.tasks[p].Uploading? {
        GoesOnByOne(cfg, s, s', Upload(p));
      }
      GoesOnByOne(cfg, s, there, Publish(p, true));
      s'' := Exec(cfg, there, Publish(p, true));
    }
  }

  lemma EndFrees(cfg: Config, s: State) returns (s': State)
    requires EndAhead(cfg, s)
    ensures GoesOn(cfg, s, s') && s'.freed > s.freed
  {
    assert NoNewEnds([]) && RunAll(cfg, s, []) == s;
    var p :| p in s.tasks && HeadsForEnd(cfg, s.tasks[p]) && (s.tasks[p].Confirmed? || s.record.Some? || SomeConfirmed(s));
    if s.tasks[p].Confirmed? || s.record.Some? {
      var ready := Announces(cfg, s, s, p);
      s' := ConfirmFrees(cfg, s, ready, p);
    } else {
      var other :| other in s.tasks && s.tasks[other].Confirmed?;
      GoesOnByOne(cfg, s, s, Write(other));
      var back := Exec(cfg, s, Write(other));
      var ready := Announces(cfg, s, back, p);
      s' := ConfirmFrees(cfg, s, ready, p);
    }
  }

  /**
   * When another slot can still be freed although no further abort reads the record and no further completion passes
   * HEAD: if and only if a request is on its way to give one back, or one that heads for ABORTED or COMPLETE is past its
   * TTL or can still pass it. This holds in every state that a run can reach.
   */
  lemma AnotherSlotExactly(cfg: Config, start: Session, before: seq<Command>)
    ensures var s := RunAll(cfg, Created(start), before);
            (exists s' :: GoesOn(cfg, s, s') && s'.freed > s.freed) <==> Exiting(s.tasks) != {} || EndAhead(cfg, s)
  {
    var s := RunAll(cfg, Created(start), before);
    RunLiveInHand(cfg, start, before);
    assert NoNewEnds([]) && RunAll(cfg, s, []) == s;
    if Exiting(s.tasks) != {} {
      var p :| p in Exiting(s.tasks);
      var s' := ExitFrees(cfg, s, s, p);
    } else if EndAhead(cfg, s) {
      var s' := EndFrees(cfg, s);
    } else {
      forall s' | GoesOn(cfg, s, s') ensures s'.freed <= s.freed {
        NothingIsFreed(cfg, s, s');
      }
    }
  }

  lemma NothingIsFreed(cfg: Config, s: State, s': State)
    requires AllLiveInHand(s) && Exiting(s.tasks) == {} && !EndAhead(cfg, s) && GoesOn(cfg, s, s')
    ensures s'.freed <= s.freed
  {
    var commands :| NoNewEnds(commands) && RunAll(cfg, s, commands) == s';
    NoEndIsWritten(cfg, s, commands);
    FreedAsWritten(cfg, s, commands);
  }

  lemma {:induction false} RunLiveInHand(cfg: Config, start: Session, commands: seq<Command>)
    ensures AllLiveInHand(RunAll(cfg, Created(start), commands))
  {
    if commands != [] {
      RunLiveInHand(cfg, start, commands[..|commands| - 1]);
      StepLiveInHand(cfg, RunAll(cfg, Created(start), commands[..|commands| - 1]), commands[|commands| - 1]);
    }
  }
}
