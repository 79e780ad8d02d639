/** The publisher with retries: attempts with exponential backoff, then a dead letter in Redis. */
module RetryPublisher {
  import opened Types
  import opened Events
  import opened World

  /** How one awaited call ends. */
  datatype Outcome = Done | Raised(message: string) | Interrupted

  /** What the environment does: attempt and write numbers count from 1; a sleep may be cancelled. */
  datatype Script = Script(
    publish: nat -> Outcome,
    sleepCancelled: nat -> bool,
    serializes: bool,
    write: nat -> Outcome,
    writeSleepCancelled: nat -> bool)

  datatype DeadLetter = DeadLetter(event: Event, retryCount: nat, lastError: string)

  const MAX_WRITES := 3

  function Pow2(n: nat): (p: nat)
    ensures p >= 1
  {
    if n == 0 then 1 else 2 * Pow2(n - 1)
  }

  // ---- Loops that go on while calls raise ----

  /** The loop ends with attempt i: it is the last one, or it did not raise, or the sleep after it was cancelled. */
  predicate EndsAt(call: nat -> Outcome, cancelled: nat -> bool, last: nat, i: nat) {
    i >= last || !call(i).Raised? || cancelled(i)
  }

  /** The number of attempts made, starting with attempt i. */
  function EndOf(call: nat -> Outcome, cancelled: nat -> bool, last: nat, i: nat): (n: nat)
    ensures n >= i
    decreases last - i
  {
    if EndsAt(call, cancelled, last, i) then i else EndOf(call, cancelled, last, i + 1)
  }

  lemma {:induction false} EndIsFirst(call: nat -> Outcome, cancelled: nat -> bool, last: nat, i: nat)
    requires i <= last
    ensures var n := EndOf(call, cancelled, last, i);
            && i <= n <= last && EndsAt(call, cancelled, last, n)
            && forall j :: i <= j < n ==> call(j).Raised? && !cancelled(j)
    decreases last - i
  {
    if !EndsAt(call, cancelled, last, i) {
      EndIsFirst(call, cancelled, last, i + 1);
    }
  }

  lemma {:induction false} EndIs(call: nat -> Outcome, cancelled: nat -> bool, last: nat, i: nat, n: nat)
    requires i <= n && EndsAt(call, cancelled, last, n)
    requires forall j :: i <= j < n ==> !EndsAt(call, cancelled, last, j)
    ensures EndOf(call, cancelled, last, i) == n
    decreases n - i
  {
    if i < n {
      EndIs(call, cancelled, last, i + 1, n);
    }
  }

  function AttemptsMade(script: Script, m: Positive): nat {
    EndOf(script.publish, script.sleepCancelled, m, 1)
  }

  function WritesMade(script: Script): nat {
    EndOf(script.write, script.writeSleepCancelled, MAX_WRITES, 1)
  }

  /** Every attempt raised, and none of the sleeps between them was cancelled. */
  predicate Exhausted(script: Script, m: Positive) {
    forall i :: 1 <= i <= m ==> script.publish(i).Raised? && (i < m ==> !script.sleepCancelled(i))
  }

  /** A dead letter is written: the event serializes and one of three writes succeeds before a cancellation. */
  predicate Buried(script: Script) {
    && script.serializes
    && exists j :: 1 <= j <= MAX_WRITES && script.write(j).Done?
                   && forall k :: 1 <= k < j ==> script.write(k).Raised? && !script.writeSleepCancelled(k)
  }

  predicate WriteInterrupted(script: Script) {
    && script.serializes
    && exists j :: 1 <= j <= MAX_WRITES
                   && (script.write(j).Interrupted? ||
                       (j < MAX_WRITES && script.write(j).Raised? && script.writeSleepCancelled(j)))
                   && forall k :: 1 <= k < j ==> script.write(k).Raised? && !script.writeSleepCancelled(k)
  }

  /** What becomes of the letter is decided by the write with which the loop ends. */
  lemma FateIsDecidedLast(script: Script)
    requires script.serializes
    ensures var n := WritesMade(script);
            && 1 <= n <= MAX_WRITES
            && (Buried(script) <==> script.write(n).Done?)
            && (WriteInterrupted(script) <==>
                  script.write(n).Interrupted? ||
                  (n < MAX_WRITES && script.write(n).Raised? && script.writeSleepCancelled(n)))
  {
    EndIsFirst(script.write, script.writeSleepCancelled, MAX_WRITES, 1);
  }

  predicate Uncancelled(script: Script, m: Positive) {
    && (forall i :: 1 <= i <= m ==> !script.publish(i).Interrupted? && !script.sleepCancelled(i))
    && (forall i :: 1 <= i <= MAX_WRITES ==> !script.write(i).Interrupted? && !script.writeSleepCancelled(i))
  }

  predicate EveryAttemptRaises(script: Script, m: Positive) {
    forall i :: 1 <= i <= m ==> script.publish(i).Raised?
  }

  lemma UncancelledEnds(script: Script, m: Positive)
    requires Uncancelled(script, m)
    ensures Exhausted(script, m) <==> EveryAttemptRaises(script, m)
    ensures script.publish(AttemptsMade(script, m)).Done? <==> !EveryAttemptRaises(script, m)
    ensures !WriteInterrupted(script)
  {
    EndIsFirst(script.publish, script.sleepCancelled, m, 1);
  }

  class EventPublisherWithRetry {
    const maxAttempts: Positive
    const dlqTtl: Positive
    var attempts: nat                             // calls of the wrapped publisher
    var delivered: seq<Event>
    var slept: nat                                // seconds of backoff
    var writes: nat                               // SETEX calls
    var deadLetters: map<Id, Timed<DeadLetter>>

    constructor Unchecked(maxAttempts: Positive, dlqTtl: Positive)
      ensures this.maxAttempts == maxAttempts && this.dlqTtl == dlqTtl
      ensures attempts == slept == writes == 0 && delivered == [] && deadLetters == map[]
    {
      this.maxAttempts, this.dlqTtl := maxAttempts, dlqTtl;
      attempts, slept, writes, delivered, deadLetters := 0, 0, 0, [], map[];
    }

    static method Create(maxAttempts: int, dlqTtl: int) returns (r: Result<EventPublisherWithRetry>)
      ensures r.Ok? <==> 1 <= maxAttempts <= 100 && 1 <= dlqTtl
      ensures r.Ok? ==> fresh(r.value) && r.value.maxAttempts == maxAttempts && r.value.dlqTtl == dlqTtl
      ensures r.Err? ==> r == Err(ValueError)
    {
      if maxAttempts < 1 || maxAttempts > 100 || dlqTtl < 1 {
        return Err(ValueError);
      }
      var made := new EventPublisherWithRetry.Unchecked(maxAttempts, dlqTtl);
      return Ok(made);
    }

    /**
     * The answer is a normal return exactly when an attempt succeeds, and the event is delivered exactly then. When all
     * m attempts raise, the backoff adds up to 2^(m-1) - 1 seconds and a dead letter with retry count m is attempted.
     */
    method Publish(event: Event, script: Script, now: int) returns (r: Result<()>)
      modifies this
      ensures var n := AttemptsMade(script, maxAttempts);
              && attempts == old(attempts) + n
              && slept == old(slept) + Pow2(n - 1) - 1
              && (r.Ok? <==> script.publish(n).Done?)
              && delivered == (if r.Ok? then old(delivered) + [event] else old(delivered))
      ensures !Exhausted(script, maxAttempts) ==>
                && (r.Err? ==> r == Err(Cancelled))
                && deadLetters == old(deadLetters) && writes == old(writes)
      ensures Exhausted(script, maxAttempts) ==>
                && attempts == old(attempts) + maxAttempts
                && r == Err(if WriteInterrupted(script) then Cancelled else InfrastructureError)
                && deadLetters == (if Buried(script)
                                   then old(deadLetters)[event.key.id := Timed(
                                          DeadLetter(event, maxAttempts, script.publish(maxAttempts).message),
                                          now + dlqTtl)]
                                   else old(deadLetters))
                && writes == old(writes) + if script.serializes then WritesMade(script) else 0
    {
      EndIsFirst(script.publish, script.sleepCancelled, maxAttempts, 1);
      var attempt := 1;
      var lastError := "Unknown error";
      while attempt <= maxAttempts
        invariant 1 <= attempt <= maxAttempts + 1
        invariant forall i :: 1 <= i < attempt ==>
          script.publish(i).Raised? && (i < maxAttempts ==> !script.sleepCancelled(i))
        invariant attempts == old(attempts) + attempt - 1
        invariant slept == old(slept) + Pow2(if attempt <= maxAttempts then attempt - 1 else maxAttempts - 1) - 1
        invariant attempt > maxAttempts ==> lastError == script.publish(maxAttempts).message
        invariant delivered == old(delivered) && deadLetters == old(deadLetters) && writes == old(writes)
      {
        attempts := attempts + 1;
        var outcome := script.publish(attempt);
        if outcome.Done? {
          delivered := delivered + [event];
          return Ok(());
        }
        if outcome.Interrupted? {
          return Err(Cancelled);
        }
        lastError := outcome.message;
        if attempt < maxAttempts {
          if script.sleepCancelled(attempt) {
            return Err(Cancelled);
          }
          slept := slept + Pow2(attempt - 1);
        }
        attempt := attempt + 1;
      }
      r := WriteToDlq(event, maxAttempts, lastError, script, now);
    }

    /** What the completion sees of it: one call that delivers the event, or raises and does not. */
    method PublishAsOneCall(event: Event, script: Script, now: int) returns (r: Result<()>)
      requires Uncancelled(script, maxAttempts)
      modifies this
      ensures var fails := EveryAttemptRaises(script, maxAttempts);
              && r == (if fails then Err(InfrastructureError) else Ok(()))
              && delivered == (if fails then old(delivered) else old(delivered) + [event])
    {
      UncancelledEnds(script, maxAttempts);
      r := Publish(event, script, now);
      assert r.Ok? ==> r.value == ();
    }

    method WriteToDlq(event: Event, retryCount: nat, lastError: string, script: Script, now: int)
      returns (r: Result<()>)
      modifies this`writes, this`deadLetters
      ensures r == Err(if WriteInterrupted(script) then Cancelled else InfrastructureError)
      ensures deadLetters == (if Buried(script)
                              then old(deadLetters)[event.key.id := Timed(
                                     DeadLetter(event, retryCount, lastError), now + dlqTtl)]
                              else old(deadLetters))
      ensures writes == old(writes) + if script.serializes then WritesMade(script) else 0
    {
      if !script.serializes {
        return Err(InfrastructureError);
      }
      FateIsDecidedLast(script);
      var letter := DeadLetter(event, retryCount, lastError);
      var i := 1;
      while i <= MAX_WRITES
        invariant 1 <= i <= MAX_WRITES + 1
        invariant forall k :: 1 <= k < i ==>
          script.write(k).Raised? && (k < MAX_WRITES ==> !script.writeSleepCancelled(k))
        invariant writes == old(writes) + i - 1
        invariant deadLetters == old(deadLetters)
      {
        writes := writes + 1;
        var outcome := script.write(i);
        if EndsAt(script.write, script.writeSleepCancelled, MAX_WRITES, i) {
          EndIs(script.write, script.writeSleepCancelled, MAX_WRITES, 1, i);
        }
        if outcome.Done? {
          deadLetters := deadLetters[event.key.id := Timed(letter, now + dlqTtl)];
          return Err(InfrastructureError);
        }
        if outcome.Interrupted? {
          return Err(Cancelled);
        }
        if i < MAX_WRITES && script.writeSleepCancelled(i) {
          return Err(Cancelled);
        }
        i := i + 1;
      }
      return Err(InfrastructureError);
    }
  }

  /** Without cancellation the number of attempts is the smaller of m and the first attempt that succeeds. */
  lemma AttemptsUntilFirstSuccess(script: Script, m: Positive, success: nat)
    requires forall i :: 1 <= i <= m ==> !script.publish(i).Interrupted? && !script.sleepCancelled(i)
    requires 1 <= success && (success <= m ==> script.publish(success).Done?)
    requires forall i :: 1 <= i < success && i <= m ==> script.publish(i).Raised?
    ensures AttemptsMade(script, m) == if success <= m then success else m
    ensures Exhausted(script, m) <==> success > m
    ensures script.publish(AttemptsMade(script, m)).Done? <==> success <= m
  {
    EndIsFirst(script.publish, script.sleepCancelled, m, 1);
  }

  /**
   * What becomes of the dead letter when nothing is cancelled: it is written, or the event does not serialize, or all
   * three writes raised.
   */
  lemma DeadLetterFate(script: Script)
    requires forall i :: 1 <= i <= MAX_WRITES ==> !script.write(i).Interrupted? && !script.writeSleepCancelled(i)
    ensures !WriteInterrupted(script)
    ensures !Buried(script) <==> !script.serializes || forall i :: 1 <= i <= MAX_WRITES ==> script.write(i).Raised?
    ensures script.serializes && !Buried(script) ==> WritesMade(script) == MAX_WRITES
  {
    EndIsFirst(script.write, script.writeSleepCancelled, MAX_WRITES, 1);
    var n := WritesMade(script);
    assert script.write(n).Done? || n == MAX_WRITES;
  }
}
