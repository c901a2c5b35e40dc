/** Connecting to the runtime socket with a bounded, growing backoff. */
module ConnectRetry {
  const DEADLINE_MS: nat := 30_000

  datatype Attempt = Connected | Retryable | Fatal

  function Backoff(n: nat): nat {
    if 100 + n * 100 < 1000 then 100 + n * 100 else 1000
  }

  /** The least time the first `n` sleeps take together. */
  function Slept(n: nat): nat {
    if n == 0 then 0 else Slept(n - 1) + Backoff(n - 1)
  }

  lemma {:induction false} SleptClosedForm(n: nat)
    ensures n <= 10 ==> Slept(n) == 50 * (n * n + n)
    ensures n >= 10 ==> Slept(n) == 5500 + 1000 * (n - 10)
  {
    if n > 0 {
      SleptClosedForm(n - 1);
      assert (n - 1) * (n - 1) + (n - 1) == n * n - n;
    }
  }

  /** The environment: when the call starts, what the n-th attempt yields, and the clock when it
      is checked after that attempt. The clock does not run backwards and each sleep lasts at
      least as long as asked. */
  datatype Env = Env(start: nat, outcome: nat -> Attempt, clock: nat -> nat)

  ghost predicate Honest(env: Env) {
    && env.start <= env.clock(0)
    && forall n: nat :: env.clock(n + 1) >= env.clock(n) + Backoff(n)
  }

  lemma {:induction false} ClockAdvances(env: Env, n: nat)
    requires Honest(env)
    ensures env.clock(n) >= env.start + Slept(n)
  {
    if n > 0 {
      ClockAdvances(env, n - 1);
      assert env.clock(n - 1 + 1) >= env.clock(n - 1) + Backoff(n - 1);
    }
  }

  /** How a call may end after `sleeps` sleeps: every earlier attempt failed in a transient way
      before the deadline, and a transient failure is final only at or after it. */
  ghost predicate Ends(env: Env, ok: bool, sleeps: nat) {
    && (ok <==> env.outcome(sleeps).Connected?)
    && (forall n :: 0 <= n < sleeps ==> env.outcome(n).Retryable? && env.clock(n) < env.start + DEADLINE_MS)
    && (env.outcome(sleeps).Retryable? ==> env.clock(sleeps) >= env.start + DEADLINE_MS)
  }

  /** Retries while the failure is transient and the deadline has not passed. Whatever the
      environment does, it sleeps at most 35 times. */
  method ConnectWithRetry(env: Env) returns (ok: bool, sleeps: nat)
    requires Honest(env)
    ensures sleeps <= 35 && Ends(env, ok, sleeps)
  {
    var deadline := env.start + DEADLINE_MS;
    sleeps := 0;
    while true
      invariant sleeps <= 35
      invariant forall n :: 0 <= n < sleeps ==> env.outcome(n).Retryable? && env.clock(n) < deadline
      decreases 35 - sleeps
    {
      match env.outcome(sleeps) {
        case Connected => return true, sleeps;
        case Fatal => return false, sleeps;
        case Retryable =>
          if env.clock(sleeps) >= deadline {
            return false, sleeps;
          }
          ClockAdvances(env, sleeps);
          SleptClosedForm(sleeps);
          sleeps := sleeps + 1;
      }
    }
  }

  /** Only transient failures, attempts that take no time, and sleeps exactly as long as asked. */
  ghost predicate Worst(env: Env) {
    && (forall n: nat :: env.outcome(n).Retryable?)
    && (forall n: nat :: env.clock(n) == env.start + Slept(n))
  }

  lemma {:induction false} WorstIsHonest(env: Env)
    requires Worst(env)
    ensures Honest(env)
  {
    assert env.clock(0) == env.start + Slept(0);
    forall n: nat ensures env.clock(n + 1) >= env.clock(n) + Backoff(n) {
      assert env.clock(n + 1) == env.start + Slept(n + 1);
    }
  }

  /** The bound is reached: the worst environment is an honest one, and in it a call can end only
      after 35 sleeps. */
  lemma {:induction false} BoundIsTight(env: Env, ok: bool, sleeps: nat)
    requires Worst(env) && Ends(env, ok, sleeps)
    ensures Honest(env) && !ok && sleeps == 35
  {
    WorstIsHonest(env);
    assert env.outcome(sleeps).Retryable?;
    WorstClock(env, sleeps);
    if sleeps > 0 {
      assert env.clock(sleeps - 1) < env.start + DEADLINE_MS;
      WorstClock(env, sleeps - 1);
    }
  }

  lemma {:induction false} WorstClock(env: Env, n: nat)
    requires Worst(env)
    ensures env.clock(n) >= env.start + DEADLINE_MS <==> n >= 35
  {
    DeadlineIsAt35(n);
  }

  lemma {:induction false} DeadlineIsAt35(n: nat)
    ensures Slept(n) >= DEADLINE_MS <==> n >= 35
  {
    SleptClosedForm(n);
    if n <= 10 {
      assert n * n <= 10 * n;
    }
  }
}
