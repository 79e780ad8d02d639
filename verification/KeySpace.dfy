/** The flat Redis keyspace: every entry lives under one text key, and the typed maps of the model are views of it. */
module KeySpace {
  import opened Types
  import opened Events
  import opened World
  import Decimal

  /** Everything that the service stores in Redis, one constructor for each key pattern. */
  datatype Entry =
    | SessionEntry(ws: Uuid, id: Uuid)
    | ExpiryEntry(id: Uuid)
    | ChunkEntry(ws: Uuid, id: Uuid, index: int)
    | DedupEntry(ws: Uuid)
    | CounterEntry(ws: Uuid)
    | DeadLetterEntry(id: Uuid)

  const SESSION := "session:workspace_"
  const DOCUMENT := ":document_"
  const EXPIRY := "session:expiry:"
  const CHUNK := "chunk:workspace_"
  const OF_SESSION := ":session_"
  const AT_INDEX := ":index_"
  const DEDUP := "dedup:workspace_"
  const RATE_LIMIT := "ratelimit:workspace_"
  const DEAD_LETTER := "dlq:file_load_completed:"

  function Text(e: Entry): string {
    match e
    case SessionEntry(ws, id) => SESSION + ws + DOCUMENT + id
    case ExpiryEntry(id) => EXPIRY + id
    case ChunkEntry(ws, id, i) => CHUNK + ws + OF_SESSION + id + AT_INDEX + Decimal.Text(i)
    case DedupEntry(ws) => DEDUP + ws
    case CounterEntry(ws) => RATE_LIMIT + ws
    case DeadLetterEntry(id) => DEAD_LETTER + id
  }

  /** Only the builders of key_builder validate; chunk, expiry and dead letter keys are formatted in place. */
  predicate Validated(e: Entry) {
    e.SessionEntry? || e.DedupEntry? || e.CounterEntry?
  }

  /** The key as the program builds it: refused exactly when a validated identifier is the nil UUID. */
  function Build(e: Entry): (r: Result<string>)
    ensures r.Ok? ==> r.value == Text(e)
    ensures r.Err? <==> Validated(e) && (e.ws == NIL_UUID || (e.SessionEntry? && e.id == NIL_UUID))
    ensures r.Err? ==> r == Err(ValueError)
  {
    match e
    case SessionEntry(ws, id) => if ws == NIL_UUID || id == NIL_UUID then Err(ValueError) else Ok(Text(e))
    case DedupEntry(ws) => if ws == NIL_UUID then Err(ValueError) else Ok(Text(e))
    case CounterEntry(ws) => if ws == NIL_UUID then Err(ValueError) else Ok(Text(e))
    case _ => Ok(Text(e))
  }

  // ---- Reading a key back ----

  /** The rest of the text after a prefix. */
  function After(prefix: string, s: string): Option<string> {
    if StartsWith(s, prefix) then Some(s[|prefix|..]) else None
  }

  function TakeUuid(s: string): Option<(Uuid, string)> {
    if |s| >= 36 && IsUuidText(s[..36]) then Some((s[..36], s[36..])) else None
  }

  /** A UUID after a prefix, and what follows it. */
  function Field(prefix: string, s: string): Option<(Uuid, string)> {
    match After(prefix, s)
    case None => None
    case Some(rest) => TakeUuid(rest)
  }

  function TwoFields(first: string, second: string, s: string): Option<(Uuid, Uuid, string)> {
    match Field(first, s)
    case None => None
    case Some((ws, rest)) =>
      match Field(second, rest)
      case None => None
      case Some((id, rest')) => Some((ws, id, rest'))
  }

  function ReadIndex(ws: Uuid, id: Uuid, s: string): Option<Entry> {
    match After(AT_INDEX, s)
    case None => None
    case Some(text) =>
      match Decimal.Read(text)
      case None => None
      case Some(i) => Some(ChunkEntry(ws, id, i))
  }

  /** Which entry a key text names: the first characters tell the pattern. */
  function Named(s: string): Option<Entry> {
    if |s| < 9 then None
    else if s[0] == 's' then
      if s[8] == 'w' then
        match TwoFields(SESSION, DOCUMENT, s)
        case None => None
        case Some((ws, id, _)) => Some(SessionEntry(ws, id))
      else
        match Field(EXPIRY, s)
        case None => None
        case Some((id, _)) => Some(ExpiryEntry(id))
    else if s[0] == 'c' then
      match TwoFields(CHUNK, OF_SESSION, s)
      case None => None
      case Some((ws, id, rest)) => ReadIndex(ws, id, rest)
    else if s[0] == 'r' then
      match Field(RATE_LIMIT, s)
      case None => None
      case Some((ws, _)) => Some(CounterEntry(ws))
    else if s[1] == 'e' then
      match Field(DEDUP, s)
      case None => None
      case Some((ws, _)) => Some(DedupEntry(ws))
    else
      match Field(DEAD_LETTER, s)
      case None => None
      case Some((id, _)) => Some(DeadLetterEntry(id))
  }

  lemma FieldReadsBack(prefix: string, u: Uuid, rest: string)
    ensures Field(prefix, prefix + u + rest) == Some((u, rest))
  {
    var s := prefix + u + rest;
    assert s[..|prefix|] == prefix;
    assert s[|prefix|..] == u + rest;
    assert (u + rest)[..36] == u && (u + rest)[36..] == rest;
  }

  lemma TwoFieldsReadBack(first: string, ws: Uuid, second: string, id: Uuid, rest: string)
    ensures TwoFields(first, second, first + ws + second + id + rest) == Some((ws, id, rest))
  {
    assert first + ws + second + id + rest == first + ws + (second + id + rest);
    FieldReadsBack(first, ws, second + id + rest);
    FieldReadsBack(second, id, rest);
  }

  lemma SessionNamed(ws: Uuid, id: Uuid)
    ensures Named(Text(SessionEntry(ws, id))) == Some(SessionEntry(ws, id))
  {
    var s := Text(SessionEntry(ws, id));
    assert s == s + "";
    TwoFieldsReadBack(SESSION, ws, DOCUMENT, id, "");
    assert s[0] == SESSION[0] && s[8] == SESSION[8];
  }

  lemma IndexReadsBack(ws: Uuid, id: Uuid, i: int)
    ensures ReadIndex(ws, id, AT_INDEX + Decimal.Text(i)) == Some(ChunkEntry(ws, id, i))
  {
    var s := AT_INDEX + Decimal.Text(i);
    assert s[..|AT_INDEX|] == AT_INDEX && s[|AT_INDEX|..] == Decimal.Text(i);
    Decimal.ReadsBack(i);
  }

  lemma ChunkNamedBy(ws: Uuid, id: Uuid, s: string, tail: string)
    requires s == CHUNK + ws + OF_SESSION + id + tail
    ensures Named(s) == ReadIndex(ws, id, tail)
  {
    TwoFieldsReadBack(CHUNK, ws, OF_SESSION, id, tail);
    assert s[0] == CHUNK[0];
  }

  lemma ChunkNamed(ws: Uuid, id: Uuid, i: int)
    ensures Named(Text(ChunkEntry(ws, id, i))) == Some(ChunkEntry(ws, id, i))
  {
    var s, tail := Text(ChunkEntry(ws, id, i)), AT_INDEX + Decimal.Text(i);
    assert s == CHUNK + ws + OF_SESSION + id + tail;
    ChunkNamedBy(ws, id, s, tail);
    IndexReadsBack(ws, id, i);
  }

  lemma OneFieldNamed(prefix: string, u: Uuid)
    requires |prefix| >= 9
    ensures var s := prefix + u;
            |s| >= 9 && Field(prefix, s) == Some((u, "")) && s[0] == prefix[0] && s[1] == prefix[1] && s[8] == prefix[8]
  {
    assert prefix + u == prefix + u + "";
    FieldReadsBack(prefix, u, "");
  }

  lemma ExpiryNamed(id: Uuid)
    ensures Named(Text(ExpiryEntry(id))) == Some(ExpiryEntry(id))
  {
    OneFieldNamed(EXPIRY, id);
  }

  lemma DedupNamed(ws: Uuid)
    ensures Named(Text(DedupEntry(ws))) == Some(DedupEntry(ws))
  {
    OneFieldNamed(DEDUP, ws);
  }

  lemma CounterNamed(ws: Uuid)
    ensures Named(Text(CounterEntry(ws))) == Some(CounterEntry(ws))
  {
    OneFieldNamed(RATE_LIMIT, ws);
  }

  lemma DeadLetterNamed(id: Uuid)
    ensures Named(Text(DeadLetterEntry(id))) == Some(DeadLetterEntry(id))
  {
    OneFieldNamed(DEAD_LETTER, id);
  }

  /** Every key text names exactly the entry it was built for. */
  lemma KeysReadBack(e: Entry)
    ensures Named(Text(e)) == Some(e)
  {
    match e
    case SessionEntry(ws, id) => SessionNamed(ws, id);
    case ExpiryEntry(id) => ExpiryNamed(id);
    case ChunkEntry(ws, id, i) => ChunkNamed(ws, id, i);
    case DedupEntry(ws) => DedupNamed(ws);
    case CounterEntry(ws) => CounterNamed(ws);
    case DeadLetterEntry(id) => DeadLetterNamed(id);
  }

  /** All key builders are injective, and no key of one pattern is a key of another. */
  lemma KeysAreInjective(a: Entry, b: Entry)
    ensures Text(a) == Text(b) <==> a == b
  {
    KeysReadBack(a);
    KeysReadBack(b);
  }

  /** Two uploads never share an object key. */
  lemma ObjectKeysAreInjective(a: Key, b: Key)
    ensures ObjectKey(a) == ObjectKey(b) <==> a == b
  {
    TwoFieldsReadBack("workspace_", a.ws, "/", a.id, ".pdf");
    TwoFieldsReadBack("workspace_", b.ws, "/", b.id, ".pdf");
  }

  // ---- The flat store refines the typed maps ----

  /** What one Redis key holds. */
  datatype Cell =
    | SessionCell(session: Timed<Session>)
    | ExpiryCell(note: Timed<ExpiryMeta>)
    | ChunkCell(data: Timed<Bytes>)
    | FilesCell(files: map<Fingerprint, FileMetadata>)
    | CounterCell(count: int)

  function FilesOf(r: RedisState, ws: Uuid): map<Fingerprint, FileMetadata> {
    map f | f in r.dedup && f.ws == ws :: r.dedup[f]
  }

  /** What the typed maps say about an entry. The identifiers of stored entries are never nil. */
  function View(r: RedisState, e: Entry): Option<Cell> {
    match e
    case SessionEntry(ws, id) =>
      if ws != NIL_UUID && id != NIL_UUID && Key(ws, id) in r.sessions
      then Some(SessionCell(r.sessions[Key(ws, id)])) else None
    case ExpiryEntry(id) =>
      if id != NIL_UUID && id in r.expiry then Some(ExpiryCell(r.expiry[id])) else None
    case ChunkEntry(ws, id, i) =>
      if ws != NIL_UUID && id != NIL_UUID && ChunkKey(Key(ws, id), i) in r.chunks
      then Some(ChunkCell(r.chunks[ChunkKey(Key(ws, id), i)])) else None
    case DedupEntry(ws) =>
      var files := FilesOf(r, ws);
      if files != map[] then Some(FilesCell(files)) else None
    case CounterEntry(ws) =>
      if ws != NIL_UUID && ws in r.counters then Some(CounterCell(r.counters[ws])) else None
    case DeadLetterEntry(_) => None
  }

  /** GET, HGETALL and the like: what a flat store has under a key. */
  function Fetch(flat: map<string, Cell>, e: Entry): Option<Cell> {
    if Text(e) in flat then Some(flat[Text(e)]) else None
  }

  /** The flat store holds what the typed maps say; dead letters are outside the maps. */
  ghost predicate Represents(flat: map<string, Cell>, r: RedisState) {
    forall e: Entry :: !e.DeadLetterEntry? ==> Fetch(flat, e) == View(r, e)
  }

  /** Setting one key changes what that entry holds, and what no other entry holds. */
  lemma SetTouchesOneEntry(flat: map<string, Cell>, e: Entry, cell: Cell, other: Entry)
    ensures Fetch(flat[Text(e) := cell], other) == if other == e then Some(cell) else Fetch(flat, other)
    ensures Fetch(flat - {Text(e)}, other) == if other == e then None else Fetch(flat, other)
  {
    KeysAreInjective(e, other);
  }

  /** A typed write that changes one entry is one write of the flat store. */
  lemma SetRepresents(flat: map<string, Cell>, r: RedisState, r': RedisState, e: Entry, cell: Cell)
    requires Represents(flat, r) && View(r', e) == Some(cell)
    requires forall o: Entry :: o != e ==> View(r', o) == View(r, o)
    ensures Represents(flat[Text(e) := cell], r')
  {
    forall o: Entry | !o.DeadLetterEntry? ensures Fetch(flat[Text(e) := cell], o) == View(r', o) {
      SetTouchesOneEntry(flat, e, cell, o);
    }
  }

  lemma DeleteRepresents(flat: map<string, Cell>, r: RedisState, r': RedisState, e: Entry)
    requires Represents(flat, r) && View(r', e) == None
    requires forall o: Entry :: o != e ==> View(r', o) == View(r, o)
    ensures Represents(flat - {Text(e)}, r')
  {
    var any := CounterCell(0);
    forall o: Entry | !o.DeadLetterEntry? ensures Fetch(flat - {Text(e)}, o) == View(r', o) {
      SetTouchesOneEntry(flat, e, any, o);
    }
  }

  // ---- Each command of the typed model is one command on text keys ----

  /** HSET and EXPIRE of both hashes, in one pipeline. */
  lemma CreateSessionRefines(flat: map<string, Cell>, r: RedisState, s: Session)
    requires Represents(flat, r)
    ensures var note := ExpiryMeta(s.key.ws, s.key.id, s.expiresAt, s.filename);
            Represents(flat[Text(SessionEntry(s.key.ws, s.key.id)) := SessionCell(Timed(s, r.now + SESSION_TTL))]
                           [Text(ExpiryEntry(s.key.id)) := ExpiryCell(Timed(note, r.now + EXPIRY_TTL))],
                       r.CreateSession(s))
  {
    var session, made := SessionEntry(s.key.ws, s.key.id), r.CreateSession(s);
    var half := r.(sessions := made.sessions);
    SetSessionRefines(flat, r, s, r.now + SESSION_TTL);
    SetExpiryRefines(flat[Text(session) := SessionCell(Timed(s, r.now + SESSION_TTL))], half, s.key.id,
                     made.expiry[s.key.id]);
    assert half.(expiry := made.expiry) == made;
  }

  lemma SetSessionRefines(flat: map<string, Cell>, r: RedisState, s: Session, deadline: int)
    requires Represents(flat, r)
    ensures Represents(flat[Text(SessionEntry(s.key.ws, s.key.id)) := SessionCell(Timed(s, deadline))],
                       r.(sessions := r.sessions[s.key := Timed(s, deadline)]))
  {
    var r' := r.(sessions := r.sessions[s.key := Timed(s, deadline)]);
    forall o: Entry | o != SessionEntry(s.key.ws, s.key.id) ensures View(r', o) == View(r, o) {
    }
    SetRepresents(flat, r, r', SessionEntry(s.key.ws, s.key.id), SessionCell(Timed(s, deadline)));
  }

  lemma SetExpiryRefines(flat: map<string, Cell>, r: RedisState, id: Id, note: Timed<ExpiryMeta>)
    requires Represents(flat, r)
    ensures Represents(flat[Text(ExpiryEntry(id)) := ExpiryCell(note)], r.(expiry := r.expiry[id := note]))
  {
    var r' := r.(expiry := r.expiry[id := note]);
    forall o: Entry | o != ExpiryEntry(id) ensures View(r', o) == View(r, o) {
    }
    SetRepresents(flat, r, r', ExpiryEntry(id), ExpiryCell(note));
  }

  /** HSET on the existing session key. */
  lemma PutSessionRefines(flat: map<string, Cell>, r: RedisState, s: Session)
    requires Represents(flat, r) && s.key in r.sessions
    ensures Represents(flat[Text(SessionEntry(s.key.ws, s.key.id)) := SessionCell(Timed(s, r.sessions[s.key].deadline))],
                       r.PutSession(s))
  {
    SetSessionRefines(flat, r, s, r.sessions[s.key].deadline);
  }

  /** DEL of both keys. */
  lemma DeleteSessionRefines(flat: map<string, Cell>, r: RedisState, key: Key)
    requires Represents(flat, r)
    ensures Represents(flat - {Text(SessionEntry(key.ws, key.id))} - {Text(ExpiryEntry(key.id))}, r.DeleteSession(key))
  {
    var half := r.(sessions := r.sessions - {key});
    forall o: Entry | o != SessionEntry(key.ws, key.id) ensures View(half, o) == View(r, o) {
    }
    DeleteRepresents(flat, r, half, SessionEntry(key.ws, key.id));
    var gone := r.DeleteSession(key);
    forall o: Entry | o != ExpiryEntry(key.id) ensures View(gone, o) == View(half, o) {
    }
    DeleteRepresents(flat - {Text(SessionEntry(key.ws, key.id))}, half, gone, ExpiryEntry(key.id));
  }

  /** SET with an expiry. */
  lemma SetChunkRefines(flat: map<string, Cell>, r: RedisState, key: Key, index: int, data: Bytes)
    requires Represents(flat, r)
    ensures Represents(flat[Text(ChunkEntry(key.ws, key.id, index)) := ChunkCell(Timed(data, r.now + SESSION_TTL))],
                       r.SetChunk(key, index, data))
  {
    var r' := r.SetChunk(key, index, data);
    forall o: Entry | o != ChunkEntry(key.ws, key.id, index) ensures View(r', o) == View(r, o) {
    }
    SetRepresents(flat, r, r', ChunkEntry(key.ws, key.id, index), ChunkCell(Timed(data, r.now + SESSION_TTL)));
  }

  /** DEL of one chunk. */
  lemma DropChunkRefines(flat: map<string, Cell>, r: RedisState, key: Key, index: int)
    requires Represents(flat, r)
    ensures Represents(flat - {Text(ChunkEntry(key.ws, key.id, index))}, r.(chunks := r.chunks - {ChunkKey(key, index)}))
  {
    var r' := r.(chunks := r.chunks - {ChunkKey(key, index)});
    forall o: Entry | o != ChunkEntry(key.ws, key.id, index) ensures View(r', o) == View(r, o) {
    }
    DeleteRepresents(flat, r, r', ChunkEntry(key.ws, key.id, index));
  }

  /** HINCRBY and HSET of the counter. */
  lemma SetCounterRefines(flat: map<string, Cell>, r: RedisState, ws: Id, count: int)
    requires Represents(flat, r)
    ensures Represents(flat[Text(CounterEntry(ws)) := CounterCell(count)], r.SetCounter(ws, count))
  {
    var r' := r.SetCounter(ws, count);
    forall o: Entry | o != CounterEntry(ws) ensures View(r', o) == View(r, o) {
    }
    SetRepresents(flat, r, r', CounterEntry(ws), CounterCell(count));
  }

  lemma FilesAfterRegister(r: RedisState, f: Fingerprint, m: FileMetadata, ws: Uuid)
    ensures FilesOf(r.Register(f, m), ws) == if ws == f.ws then FilesOf(r, ws)[f := m] else FilesOf(r, ws)
  {
  }

  /** HSET of one fingerprint in the hash of its workspace. */
  lemma RegisterRefines(flat: map<string, Cell>, r: RedisState, f: Fingerprint, m: FileMetadata)
    requires Represents(flat, r)
    ensures Represents(flat[Text(DedupEntry(f.ws)) := FilesCell(FilesOf(r, f.ws)[f := m])], r.Register(f, m))
  {
    var r', files := r.Register(f, m), FilesOf(r, f.ws)[f := m];
    FilesAfterRegister(r, f, m, f.ws);
    assert f in files;
    forall o: Entry | o != DedupEntry(f.ws) ensures View(r', o) == View(r, o) {
      if o.DedupEntry? {
        FilesAfterRegister(r, f, m, o.ws);
      }
    }
    SetRepresents(flat, r, r', DedupEntry(f.ws), FilesCell(files));
  }
}
