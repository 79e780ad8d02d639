/** Whole runs: any sequence of operations by any clients, with any calls failing and any time passing in between. */
module Actions {
  import opened Types
  import opened World
  import opened Storage
  import opened Protocol
  import opened Sessions
  import opened Publication
  import opened Shapes

  datatype Action =
    | Start(key: Key, request: UploadRequest, failing: set<Call>)
    | Send(patch: PatchRequest, failing: set<Call>)
    | Cancel(key: Key, failing: set<Call>)
    | Finish(key: Key, failing: set<Call>)
    | Wait(seconds: nat)
    | ResetCounter(ws: Id)

  function Apply(cfg: Config, w: World, a: Action): World {
    match a
    case Start(key, request, failing) => w.(redis := InitiateUpload(cfg, w.redis, key, request, failing).0)
    case Send(patch, failing) => w.(redis := ProcessChunk(cfg, w.redis, patch, failing).0)
    case Cancel(key, failing) => w.(redis := AbortUpload(w.redis, key, failing).0)
    case Finish(key, failing) => CompleteUpload(cfg, w, key, failing).0
    case Wait(seconds) => w.(redis := w.redis.Tick(seconds))
    case ResetCounter(ws) => w.(redis := w.redis.SetCounter(ws, 0))
  }

  /** Did the caller get an answer rather than an error? */
  predicate Succeeds(cfg: Config, w: World, a: Action) {
    match a
    case Start(key, request, failing) => InitiateUpload(cfg, w.redis, key, request, failing).1.Ok?
    case Send(patch, failing) => ProcessChunk(cfg, w.redis, patch, failing).1.Ok?
    case Cancel(key, failing) => AbortUpload(w.redis, key, failing).1.Ok?
    case Finish(key, failing) => CompleteUpload(cfg, w, key, failing).1.Ok?
    case Wait(_) => true
    case ResetCounter(_) => true
  }

  function Run(cfg: Config, w: World, acts: seq<Action>): World {
    if acts == [] then w else Apply(cfg, Run(cfg, w, acts[..|acts| - 1]), acts[|acts| - 1])
  }

  lemma {:induction false} RunAppend(cfg: Config, w: World, acts: seq<Action>, more: seq<Action>)
    ensures Run(cfg, w, acts + more) == Run(cfg, Run(cfg, w, acts), more)
  {
    if more == [] {
      assert acts + more == acts;
    } else {
      var init, last := more[..|more| - 1], more[|more| - 1];
      assert (acts + more)[..|acts + more| - 1] == acts + init;
      RunAppend(cfg, w, acts, init);
    }
  }

  lemma RunOne(cfg: Config, w: World, acts: seq<Action>, last: Action)
    ensures Run(cfg, w, acts + [last]) == Apply(cfg, Run(cfg, w, acts), last)
  {
    assert (acts + [last])[..|acts|] == acts;
  }

  /** Nothing stored and nothing sent. */
  function Empty(now: int): World {
    World(RedisState(now, map[], map[], map[], map[], map[]), S3State(map[], map[], 0), BusState([], []))
  }

  // ---- Session ids are drawn once ----

  function StartedBy(a: Action): set<Id> {
    if a.Start? then {a.key.id} else {}
  }

  function Started(acts: seq<Action>): set<Id> {
    set a, id | a in acts && id in StartedBy(a) :: id
  }

  predicate UniqueIds(acts: seq<Action>) {
    forall i, j :: 0 <= i < j < |acts| && acts[i].Start? && acts[j].Start? ==> acts[i].key.id != acts[j].key.id
  }

  /** Every id that has left a trace in the stores is one of these. */
  predicate Known(w: World, ids: set<Id>) {
    && (forall k :: k in w.redis.sessions ==> k.id in ids)
    && (forall c :: c in w.redis.chunks ==> c.key.id in ids)
    && (forall id :: id in w.redis.expiry ==> id in ids)
    && (forall k :: k in w.s3.objects ==> k.id in ids)
  }

  lemma KeyedRightAll(cfg: Config, r: RedisState)
    requires SessionsOk(cfg, r)
    ensures KeyedRight(r)
  {
    forall key | key in r.sessions ensures r.sessions[key].value.key == key {
      assert SessionOk(cfg, r, key);
    }
  }

  lemma StartKnown(cfg: Config, w: World, key: Key, request: UploadRequest, failing: set<Call>, ids: set<Id>)
    requires Known(w, ids)
    ensures Known(w.(redis := InitiateUpload(cfg, w.redis, key, request, failing).0), ids + {key.id})
  {
    InitiateShape(cfg, w.redis, key, request, failing);
  }

  lemma SendKnown(cfg: Config, w: World, patch: PatchRequest, failing: set<Call>, ids: set<Id>)
    requires KeyedRight(w.redis) && Known(w, ids)
    ensures Known(w.(redis := ProcessChunk(cfg, w.redis, patch, failing).0), ids)
  {
    ProcessChunkShape(cfg, w.redis, patch, failing);
  }

  lemma CancelKnown(w: World, key: Key, failing: set<Call>, ids: set<Id>)
    requires KeyedRight(w.redis) && Known(w, ids)
    ensures Known(w.(redis := AbortUpload(w.redis, key, failing).0), ids)
  {
    AbortShape(w.redis, key, failing);
  }

  lemma ConcludedKnown(w: World, w': World, key: Key, ok: bool, failing: set<Call>, ids: set<Id>)
    requires Known(w, ids) && Concluded(w.redis, w'.redis, key, ok, failing)
    requires forall k :: k in w'.s3.objects ==> k in w.s3.objects || (k == key && key in w.redis.sessions)
    ensures Known(w', ids)
  {
  }

  lemma FinishKnown(cfg: Config, w: World, key: Key, failing: set<Call>, ids: set<Id>)
    requires KeyedRight(w.redis) && IdsBelowNext(w.s3) && Known(w, ids)
    ensures Known(CompleteUpload(cfg, w, key, failing).0, ids)
  {
    var (w', answer) := CompleteUpload(cfg, w, key, failing);
    CompleteShape(cfg, w, key, failing);
    ConcludedKnown(w, w', key, answer.Ok?, failing, ids);
  }

  lemma StepKnown(cfg: Config, w: World, a: Action, ids: set<Id>)
    requires KeyedRight(w.redis) && IdsBelowNext(w.s3) && Known(w, ids)
    ensures Known(Apply(cfg, w, a), ids + StartedBy(a))
  {
    match a
    case Start(key, request, failing) => StartKnown(cfg, w, key, request, failing, ids);
    case Send(patch, failing) => SendKnown(cfg, w, patch, failing, ids);
    case Cancel(key, failing) => CancelKnown(w, key, failing, ids);
    case Finish(key, failing) => FinishKnown(cfg, w, key, failing, ids);
    case Wait(_) =>
    case ResetCounter(_) =>
  }

  // ---- The invariant of every run ----

  ghost predicate Inv(cfg: Config, w: World) {
    SessionsOk(cfg, w.redis) && PublicationOk(cfg, w)
  }

  /** A session id that is new has left no trace. */
  ghost predicate Enabled(w: World, a: Action) {
    a.Start? ==> forall c :: c in w.redis.chunks ==> c.key.id != a.key.id
  }

  lemma StartKeepsInv(cfg: Config, w: World, key: Key, request: UploadRequest, failing: set<Call>)
    requires Inv(cfg, w) && forall c :: c in w.redis.chunks ==> c.key.id != key.id
    ensures Inv(cfg, w.(redis := InitiateUpload(cfg, w.redis, key, request, failing).0))
  {
    InitiateKeeps(cfg, w.redis, key, request, failing);
    InitiateShape(cfg, w.redis, key, request, failing);
    RedisOnlyKeeps(cfg, w, InitiateUpload(cfg, w.redis, key, request, failing).0);
  }

  lemma SendKeepsInv(cfg: Config, w: World, patch: PatchRequest, failing: set<Call>)
    requires Inv(cfg, w)
    ensures Inv(cfg, w.(redis := ProcessChunk(cfg, w.redis, patch, failing).0))
  {
    KeyedRightAll(cfg, w.redis);
    ProcessChunkKeeps(cfg, w.redis, patch, failing);
    ProcessChunkShape(cfg, w.redis, patch, failing);
    RedisOnlyKeeps(cfg, w, ProcessChunk(cfg, w.redis, patch, failing).0);
  }

  lemma CancelKeepsInv(cfg: Config, w: World, key: Key, failing: set<Call>)
    requires Inv(cfg, w)
    ensures Inv(cfg, w.(redis := AbortUpload(w.redis, key, failing).0))
  {
    KeyedRightAll(cfg, w.redis);
    AbortKeeps(cfg, w.redis, key, failing);
    AbortShape(w.redis, key, failing);
    RedisOnlyKeeps(cfg, w, AbortUpload(w.redis, key, failing).0);
  }

  lemma StepKeepsInv(cfg: Config, w: World, a: Action)
    requires Inv(cfg, w) && Enabled(w, a)
    ensures Inv(cfg, Apply(cfg, w, a))
  {
    match a
    case Start(key, request, failing) => StartKeepsInv(cfg, w, key, request, failing);
    case Send(patch, failing) => SendKeepsInv(cfg, w, patch, failing);
    case Cancel(key, failing) => CancelKeepsInv(cfg, w, key, failing);
    case Finish(key, failing) => CompleteKeeps(cfg, w, key, failing);
    case Wait(seconds) =>
      TickKeeps(cfg, w.redis, seconds);
      RedisOnlyKeeps(cfg, w, w.redis.Tick(seconds));
    case ResetCounter(ws) =>
      OtherFieldsKeep(cfg, w.redis, w.redis.SetCounter(ws, 0));
      RedisOnlyKeeps(cfg, w, w.redis.SetCounter(ws, 0));
  }

  /** Every world that a run from the empty one can reach satisfies the invariant. */
  lemma {:induction false} RunKeepsInv(cfg: Config, now: int, acts: seq<Action>)
    requires UniqueIds(acts)
    ensures Inv(cfg, Run(cfg, Empty(now), acts))
    ensures Known(Run(cfg, Empty(now), acts), Started(acts))
  {
    if acts != [] {
      var init, last := acts[..|acts| - 1], acts[|acts| - 1];
      var w := Run(cfg, Empty(now), init);
      RunKeepsInv(cfg, now, init);
      LastIdIsNew(acts);
      StepKeepsInv(cfg, w, last);
      KeyedRightAll(cfg, w.redis);
      StepKnown(cfg, w, last, Started(init));
      assert Started(acts) == Started(init) + StartedBy(last) by {
        assert acts == init + [last];
      }
    }
  }

  lemma LastIdIsNew(acts: seq<Action>)
    requires UniqueIds(acts) && acts != []
    ensures UniqueIds(acts[..|acts| - 1])
    ensures acts[|acts| - 1].Start? ==> acts[|acts| - 1].key.id !in Started(acts[..|acts| - 1])
  {
  }

  lemma {:induction false} UniquePrefix(acts: seq<Action>, more: seq<Action>)
    requires UniqueIds(acts + more)
    ensures UniqueIds(acts)
  {
    forall i, j | 0 <= i < j < |acts| && acts[i].Start? && acts[j].Start? ensures acts[i].key.id != acts[j].key.id {
      assert (acts + more)[i] == acts[i] && (acts + more)[j] == acts[j];
    }
  }
}
