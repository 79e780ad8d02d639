/** The Redis server: its keyspace as one typed map for each kind of key. */
module RedisServer {
  import opened Types
  import opened World

  class Redis {
    var now: int
    var sessions: map<Key, Timed<Session>>
    var expiry: map<Id, Timed<ExpiryMeta>>
    var chunks: map<ChunkKey, Timed<Bytes>>
    var counters: map<Id, int>
    var dedup: map<Fingerprint, FileMetadata>

    function State(): RedisState
      reads this
    {
      RedisState(now, sessions, expiry, chunks, counters, dedup)
    }

    constructor (now: int)
      ensures State() == RedisState(now, map[], map[], map[], map[], map[])
    {
      this.now := now;
      sessions, expiry, chunks, counters, dedup := map[], map[], map[], map[], map[];
    }
  }
}

/** The session store: one hash for each session, and a longer-lived note that it existed. */
module SessionStore {
  import opened Types
  import opened World
  import opened RedisServer
  import opened Entity

  /** What get_session_with_expiry_info answers: the live session, or the note about one that expired, or neither. */
  function Lookup(r: RedisState, key: Key): (Option<Session>, Option<ExpiryMeta>) {
    if key in r.sessions then (Some(r.sessions[key].value), None)
    else if key.id in r.expiry && r.expiry[key.id].value.ws == key.ws then (None, Some(r.expiry[key.id].value))
    else (None, None)
  }

  class RedisSessionStore {
    const redis: Redis

    constructor (redis: Redis)
      ensures this.redis == redis
    {
      this.redis := redis;
    }

    method CreateSession(session: UploadSession, fails: bool) returns (r: Result<()>)
      modifies redis
      ensures r == if fails then Err(InfrastructureError) else Ok(())
      ensures redis.State() == if fails then old(redis.State()) else old(redis.State()).CreateSession(session.Value())
    {
      if fails {
        return Err(InfrastructureError);
      }
      var s := session.Value();
      redis.sessions := redis.sessions[s.key := Timed(s, redis.now + SESSION_TTL)];
      var note := ExpiryMeta(s.key.ws, s.key.id, s.expiresAt, s.filename);
      redis.expiry := redis.expiry[s.key.id := Timed(note, redis.now + EXPIRY_TTL)];
      return Ok(());
    }

    /** HGETALL, then a fresh entity built from the hash. */
    method GetSession(key: Key, fails: bool) returns (r: Result<Option<UploadSession>>)
      ensures fails ==> r == Err(InfrastructureError)
      ensures !fails ==> r.Ok? && (r.value.Some? <==> key in redis.sessions)
      ensures r.Ok? && r.value.Some? ==> fresh(r.value.value) && r.value.value.Value() == redis.sessions[key].value
    {
      if fails {
        return Err(InfrastructureError);
      }
      if key !in redis.sessions {
        return Ok(None);
      }
      var session := new UploadSession(redis.sessions[key].value);
      return Ok(Some(session));
    }

    /** HGETALL of the session, and only if it is not there HGETALL of the note; either may raise. */
    method GetSessionWithExpiryInfo(key: Key, sessionFails: bool, noteFails: bool)
      returns (r: Result<(Option<Session>, Option<ExpiryMeta>)>)
      ensures sessionFails || (key !in redis.sessions && noteFails) ==> r == Err(InfrastructureError)
      ensures !sessionFails && key in redis.sessions ==> r == Ok((Some(redis.sessions[key].value), None))
      ensures !sessionFails && key !in redis.sessions && !noteFails ==>
                r == if key.id in redis.expiry && redis.expiry[key.id].value.ws == key.ws
                     then Ok((None, Some(redis.expiry[key.id].value))) else Ok((None, None))
      ensures r.Ok? ==> r.value == Lookup(redis.State(), key)
    {
      if sessionFails {
        return Err(InfrastructureError);
      }
      if key in redis.sessions {
        return Ok((Some(redis.sessions[key].value), None));
      }
      if noteFails {
        return Err(InfrastructureError);
      }
      if key.id in redis.expiry {
        var found := redis.expiry[key.id].value;
        if found.ws != key.ws {
          return Ok((None, None));
        }
        return Ok((None, Some(found)));
      }
      return Ok((None, None));
    }

    method UpdateSession(session: UploadSession, fails: bool) returns (r: Result<()>)
      modifies redis
      ensures (redis.State(), r) == old(redis.State()).UpdateSession(session.Value(), fails)
      ensures var before := old(redis.State());
              if fails then r == Err(InfrastructureError) && redis.State() == before
              else if session.key !in before.sessions then r == Err(SessionNotFound) && redis.State() == before
              else
                var deadline := before.sessions[session.key].deadline;
                && r == Ok(())
                && redis.State() == before.(
                     sessions := before.sessions[session.key := Timed(session.Value(), deadline)])
    {
      if fails {
        return Err(InfrastructureError);
      }
      if session.key !in redis.sessions {
        return Err(SessionNotFound);
      }
      var deadline := redis.sessions[session.key].deadline;
      redis.sessions := redis.sessions[session.key := Timed(session.Value(), deadline)];
      return Ok(());
    }

    method DeleteSession(key: Key, fails: bool) returns (r: Result<()>)
      modifies redis
      ensures r == if fails then Err(InfrastructureError) else Ok(())
      ensures redis.State() == if fails then old(redis.State()) else old(redis.State()).DeleteSession(key)
    {
      if fails {
        return Err(InfrastructureError);
      }
      redis.sessions, redis.expiry := redis.sessions - {key}, redis.expiry - {key.id};
      return Ok(());
    }
  }
}

/** The per-workspace limit on concurrent uploads, when nothing else runs between its commands. */
module RateLimiter {
  import opened Types
  import opened World
  import opened RedisServer

  function TakeSlot(limit: Positive, r: RedisState, ws: Id, failing: set<Call>): (RedisState, Result<()>) {
    if CounterRead in failing then (r, Err(InfrastructureError))
    else if r.Counter(ws) >= limit then (r, Err(RateLimitExceeded))
    else if CounterAdd in failing then (r, Err(InfrastructureError))
    else (r.SetCounter(ws, r.Counter(ws) + 1), Ok(()))
  }

  /** HINCRBY -1; a negative result is then set to 0 by a second command, which may itself raise. */
  function Freed(counters: map<Id, int>, ws: Id, failing: set<Call>): (map<Id, int>, Result<()>) {
    var count := CountOf(counters, ws) - 1;
    if CounterSubtract in failing then (counters, Err(InfrastructureError))
    else if count >= 0 then (counters[ws := count], Ok(()))
    else if CounterClamp in failing then (counters[ws := count], Err(InfrastructureError))
    else (counters[ws := 0], Ok(()))
  }

  function FreeSlot(r: RedisState, ws: Id, failing: set<Call>): (RedisState, Result<()>) {
    var (counters, answer) := Freed(r.counters, ws, failing);
    (r.(counters := counters), answer)
  }

  class RedisRateLimiter {
    const redis: Redis
    const limit: Positive

    constructor (redis: Redis, limit: Positive)
      ensures this.redis == redis && this.limit == limit
    {
      this.redis, this.limit := redis, limit;
    }

    method CheckAndIncrement(ws: Id, failing: set<Call>) returns (r: Result<()>)
      modifies redis
      ensures (redis.State(), r) == TakeSlot(limit, old(redis.State()), ws, failing)
      ensures var count := CountOf(old(redis.counters), ws);
              if CounterRead in failing then r == Err(InfrastructureError) && redis.State() == old(redis.State())
              else if limit <= count then r == Err(RateLimitExceeded) && redis.State() == old(redis.State())
              else if CounterAdd in failing then r == Err(InfrastructureError) && redis.State() == old(redis.State())
              else r == Ok(()) && redis.State() == old(redis.State()).(counters := old(redis.counters)[ws := count + 1])
    {
      if CounterRead in failing {
        return Err(InfrastructureError);
      }
      var current := if ws in redis.counters then redis.counters[ws] else 0;
      if current >= limit {
        return Err(RateLimitExceeded);
      }
      if CounterAdd in failing {
        return Err(InfrastructureError);
      }
      var _ := IncrementBy(ws, 1);
      return Ok(());
    }

    /** HINCRBY: a missing field counts as 0. */
    method IncrementBy(ws: Id, amount: int) returns (count: int)
      modifies redis
      ensures count == old(redis.State()).Counter(ws) + amount
      ensures redis.State() == old(redis.State()).SetCounter(ws, count)
    {
      count := (if ws in redis.counters then redis.counters[ws] else 0) + amount;
      redis.counters := redis.counters[ws := count];
    }

    method Decrement(ws: Id, failing: set<Call>) returns (r: Result<()>)
      modifies redis
      ensures (redis.State(), r) == FreeSlot(old(redis.State()), ws, failing)
      ensures var less := CountOf(old(redis.counters), ws) - 1;
              var raises := CounterSubtract in failing || (less < 0 && CounterClamp in failing);
              && r == (if raises then Err(InfrastructureError) else Ok(()))
              && redis.State() == (
                   if CounterSubtract in failing then old(redis.State())
                   else if less < 0 && CounterClamp !in failing then old(redis.State()).SetCounter(ws, 0)
                   else old(redis.State()).SetCounter(ws, less))
    {
      if CounterSubtract in failing {
        return Err(InfrastructureError);
      }
      var count := IncrementBy(ws, -1);
      if count < 0 {
        if CounterClamp in failing {
          return Err(InfrastructureError);
        }
        redis.counters := redis.counters[ws := 0];
        assert redis.counters == old(redis.counters)[ws := 0];
      }
      return Ok(());
    }

    method GetCurrentCount(ws: Id, failing: set<Call>) returns (r: Result<int>)
      modifies redis
      ensures CounterRead in failing ==> r == Err(InfrastructureError) && redis.State() == old(redis.State())
      ensures CounterRead !in failing && 0 <= old(redis.State()).Counter(ws) ==>
                r == Ok(old(redis.State()).Counter(ws)) && redis.State() == old(redis.State())
      ensures CounterRead !in failing && old(redis.State()).Counter(ws) < 0 ==>
                if CounterClamp in failing
                then r == Err(InfrastructureError) && redis.State() == old(redis.State())
                else r == Ok(0) && redis.State() == old(redis.State()).SetCounter(ws, 0)
    {
      if CounterRead in failing {
        return Err(InfrastructureError);
      }
      var count := if ws in redis.counters then redis.counters[ws] else 0;
      if count < 0 {
        if CounterClamp in failing {
          return Err(InfrastructureError);
        }
        redis.counters := redis.counters[ws := 0];
        return Ok(0);
      }
      return Ok(count);
    }

    method Reset(ws: Id, fails: bool) returns (r: Result<()>)
      modifies redis
      ensures r == if fails then Err(InfrastructureError) else Ok(())
      ensures redis.State() == if fails then old(redis.State()) else old(redis.State()).SetCounter(ws, 0)
    {
      if fails {
        return Err(InfrastructureError);
      }
      redis.counters := redis.counters[ws := 0];
      return Ok(());
    }
  }
}

/** Fingerprints of published files, one hash for each workspace. */
module Deduplication {
  import opened Types
  import opened World
  import opened RedisServer

  class RedisDeduplicationStore {
    const redis: Redis

    constructor (redis: Redis)
      ensures this.redis == redis
    {
      this.redis := redis;
    }

    method CheckDuplicate(f: Fingerprint, fails: bool) returns (r: Result<Option<FileMetadata>>)
      ensures r == if fails then Err(InfrastructureError)
                   else if f in redis.dedup then Ok(Some(redis.dedup[f])) else Ok(None)
    {
      if fails {
        return Err(InfrastructureError);
      }
      if f !in redis.dedup {
        return Ok(None);
      }
      return Ok(Some(redis.dedup[f]));
    }

    method RegisterFile(f: Fingerprint, m: FileMetadata, fails: bool) returns (r: Result<()>)
      modifies redis
      ensures r == if fails then Err(InfrastructureError) else Ok(())
      ensures redis.State() == if fails then old(redis.State()) else old(redis.State()).Register(f, m)
    {
      if fails {
        return Err(InfrastructureError);
      }
      redis.dedup := redis.dedup[f := m];
      return Ok(());
    }
  }
}
