/** The bounded fixed-delay `retry` helper (action.js:48-61). The operation is
    a script: `op(n)` is the outcome of its n-th call (counting from 0). Each
    call and each delay is recorded in a trace; no time passes. */
module Retrying {
  import opened Results

  datatype Step = Call(attempt: nat) | Wait(ms: nat)

  /** The first k calls of op all failed. */
  predicate FailsBefore<V, E>(op: nat -> Result<V, E>, k: nat) {
    forall j: nat :: j < k ==> op(j).Err?
  }

  /** The attempt whose outcome `retry` returns when it has reached attempt
      `from`: the first success at or after `from`, or the final attempt. */
  function Settled<V, E>(op: nat -> Result<V, E>, retries: nat, from: nat): (k: nat)
    requires from <= retries
    ensures from <= k <= retries
    ensures op(k).Ok? || k == retries
    ensures forall j: nat :: from <= j < k ==> op(j).Err?
    decreases retries - from
  {
    if op(from).Ok? || from == retries then from else Settled(op, retries, from + 1)
  }

  /** n failed attempts, each followed by a delay. */
  function Rounds(n: nat, delayMs: nat): seq<Step>
  {
    if n == 0 then [] else Rounds(n - 1, delayMs) + [Call(n - 1), Wait(delayMs)]
  }

  /** The trace of n calls with one delay between consecutive calls. */
  function Attempts(n: nat, delayMs: nat): seq<Step>
  {
    if n == 0 then [] else Rounds(n - 1, delayMs) + [Call(n - 1)]
  }

  function Calls(t: seq<Step>): nat
  {
    if t == [] then 0 else Calls(t[..|t| - 1]) + (if t[|t| - 1].Call? then 1 else 0)
  }

  function Waits(t: seq<Step>): nat
  {
    if t == [] then 0 else Waits(t[..|t| - 1]) + (if t[|t| - 1].Wait? then 1 else 0)
  }

  lemma {:induction false} RoundsShape(n: nat, delayMs: nat)
    ensures |Rounds(n, delayMs)| == 2 * n
    ensures forall i :: 0 <= i < 2 * n ==>
      Rounds(n, delayMs)[i] == if i % 2 == 0 then Call(i / 2) else Wait(delayMs)
    ensures Calls(Rounds(n, delayMs)) == n && Waits(Rounds(n, delayMs)) == n
  {
    if n > 0 {
      var prev := Rounds(n - 1, delayMs);
      RoundsShape(n - 1, delayMs);
      var r1 := prev + [Call(n - 1)];
      var t := Rounds(n, delayMs);
      assert t == r1 + [Wait(delayMs)];
      assert r1[..|r1| - 1] == prev;
      assert t[..|t| - 1] == r1;
      assert Calls(r1) == n && Waits(r1) == n - 1;
      forall i | 0 <= i < 2 * n
        ensures t[i] == if i % 2 == 0 then Call(i / 2) else Wait(delayMs)
      {
        if i < 2 * n - 2 {
          assert t[i] == prev[i];
        }
      }
    }
  }

  /** n calls interleaved with n - 1 delays of delayMs: calls at the even
      positions in attempt order, delays at the odd ones, a call last. */
  lemma AttemptsShape(n: nat, delayMs: nat)
    requires n > 0
    ensures |Attempts(n, delayMs)| == 2 * n - 1
    ensures forall i :: 0 <= i < 2 * n - 1 ==>
      Attempts(n, delayMs)[i] == if i % 2 == 0 then Call(i / 2) else Wait(delayMs)
    ensures Calls(Attempts(n, delayMs)) == n && Waits(Attempts(n, delayMs)) == n - 1
    ensures Attempts(n, delayMs)[2 * n - 2] == Call(n - 1)
  {
    var prev := Rounds(n - 1, delayMs);
    RoundsShape(n - 1, delayMs);
    var t := Attempts(n, delayMs);
    assert t == prev + [Call(n - 1)];
    assert t[..|t| - 1] == prev;
    assert Calls(t) == n;
    forall i | 0 <= i < 2 * n - 1
      ensures t[i] == if i % 2 == 0 then Call(i / 2) else Wait(delayMs)
    {
      if i < 2 * n - 2 {
        assert t[i] == prev[i];
      } else {
        assert i == 2 * (n - 1);
      }
    }
  }

  /** `retry(fn, { retries, delayMs })`: up to retries + 1 calls, a delay
      after every failed call but the last, the first success or else the
      error of the final call. */
  method Retry<V, E>(op: nat -> Result<V, E>, retries: nat, delayMs: nat) returns (r: Result<V, E>, trace: seq<Step>)
    ensures var k := Settled(op, retries, 0); r == op(k) && trace == Attempts(k + 1, delayMs)
    ensures Calls(trace) == Settled(op, retries, 0) + 1 && Waits(trace) == Settled(op, retries, 0)
  {
    var lastErr: Option<E> := None;
    trace := [];
    var attempt: nat := 0;
    while attempt <= retries
      invariant attempt <= retries + 1
      invariant FailsBefore(op, attempt)
      invariant 0 < attempt ==> lastErr == Some(op(attempt - 1).error)
      invariant trace == if attempt <= retries then Rounds(attempt, delayMs) else Attempts(attempt, delayMs)
    {
      trace := trace + [Call(attempt)];
      var outcome := op(attempt);
      if outcome.Ok? {
        r := outcome;
        RetrySucceedsAfter(op, retries, delayMs, attempt);
        return;
      }
      lastErr := Some(outcome.error);
      if attempt < retries {
        trace := trace + [Wait(delayMs)];
      }
      attempt := attempt + 1;
    }
    r := Err(lastErr.value);
    RetryExhausted(op, retries, delayMs);
  }

  /** An operation that fails k <= retries times and then succeeds is called
      exactly k + 1 times with k delays, and its success value is returned. */
  lemma RetrySucceedsAfter<V, E>(op: nat -> Result<V, E>, retries: nat, delayMs: nat, k: nat)
    requires k <= retries && FailsBefore(op, k) && op(k).Ok?
    ensures Settled(op, retries, 0) == k
    ensures Calls(Attempts(k + 1, delayMs)) == k + 1 && Waits(Attempts(k + 1, delayMs)) == k
  {
    AttemptsShape(k + 1, delayMs);
  }

  /** An operation that always fails is called exactly retries + 1 times with
      retries delays, none after the final call, and the error of that final
      call is the one returned. */
  lemma RetryExhausted<V, E>(op: nat -> Result<V, E>, retries: nat, delayMs: nat)
    requires FailsBefore(op, retries + 1)
    ensures Settled(op, retries, 0) == retries && op(Settled(op, retries, 0)).Err?
    ensures var t := Attempts(retries + 1, delayMs);
      Calls(t) == retries + 1 && Waits(t) == retries && t[|t| - 1] == Call(retries)
  {
    AttemptsShape(retries + 1, delayMs);
  }
}
