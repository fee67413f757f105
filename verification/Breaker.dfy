/**
 * The circuit breaker. `State` and its functions say what each call does; the
 * class is the object whose three fields the calls update. The Node and the Go
 * breaker differ only in `retryAfter` while a probe is out.
 */
module Breakers {
  import opened Sequences

  datatype State = State(failures: nat, openedAt: int, probing: bool)

  const CLOSED := State(0, 0, false)

  predicate IsOpen(b: State, threshold: nat) { b.failures >= threshold }

  /** The answer to a request that wants to leave, and what asking has made of the breaker. */
  function Allow(b: State, threshold: nat, resetMs: nat, now: int): (bool, State) {
    if !IsOpen(b, threshold) then (true, b)
    else if b.probing || now - b.openedAt < resetMs then (false, b)
    else (true, b.(probing := true))
  }

  function RetryAfter(b: State, threshold: nat, resetMs: nat, now: int): nat {
    if !IsOpen(b, threshold) then 0
    else if b.probing then resetMs
    else Max(0, resetMs - (now - b.openedAt))
  }

  /** The Go client's `retryAfter`, which does not look at `probing`. */
  function GoRetryAfter(b: State, threshold: nat, resetMs: nat, now: int): nat {
    if !IsOpen(b, threshold) then 0 else Max(0, resetMs - (now - b.openedAt))
  }

  function OnSuccess(b: State): State { b.(failures := 0, probing := false) }

  function OnFailure(b: State, threshold: nat, now: int): State {
    var failed := b.(failures := b.failures + 1, probing := false);
    if IsOpen(failed, threshold) then failed.(openedAt := now) else failed
  }

  /** A zero wait is exactly a licence to send, for the Node breaker with a non-zero cooldown. */
  lemma WaitIsZeroIffAllowed(b: State, threshold: nat, resetMs: nat, now: int)
    requires 0 < resetMs
    ensures RetryAfter(b, threshold, resetMs, now) == 0 <==> Allow(b, threshold, resetMs, now).0
  {
  }

  /**
   * The wait is the least one after which a request may leave, as long as no probe
   * is out; while one is, it is a whole cooldown, and no waiting helps.
   */
  lemma WaitIsLeast(b: State, threshold: nat, resetMs: nat, now: int, wait: nat)
    ensures !b.probing ==>
              (Allow(b, threshold, resetMs, now + wait).0 <==> wait >= RetryAfter(b, threshold, resetMs, now))
    ensures !b.probing ==> GoRetryAfter(b, threshold, resetMs, now) == RetryAfter(b, threshold, resetMs, now)
    ensures b.probing && IsOpen(b, threshold) ==>
              RetryAfter(b, threshold, resetMs, now) == resetMs && !Allow(b, threshold, resetMs, now + wait).0
  {
  }

  /** A breaker left open by a failure, be it a probe's, lets nothing out for one whole cooldown from then. */
  lemma FailureRestartsCooldown(b: State, threshold: nat, resetMs: nat, failedAt: int, now: int)
    requires IsOpen(OnFailure(b, threshold, failedAt), threshold)
    ensures Allow(OnFailure(b, threshold, failedAt), threshold, resetMs, now).0 <==> resetMs <= now - failedAt
  {
  }

  class Breaker {
    const threshold: nat
    const resetMs: nat
    var failures: nat
    var openedAt: int
    var probing: bool

    constructor (threshold: nat, resetMs: nat)
      ensures this.threshold == threshold && this.resetMs == resetMs && Model() == CLOSED
    {
      this.threshold, this.resetMs := threshold, resetMs;
      failures, openedAt, probing := 0, 0, false;
    }

    function Model(): State
      reads this
    {
      State(failures, openedAt, probing)
    }

    predicate Open()
      reads this
    {
      failures >= threshold
    }

    method Ask(now: int) returns (ok: bool)
      modifies this
      ensures (ok, Model()) == Allow(old(Model()), threshold, resetMs, now)
    {
      if !Open() { return true; }
      if probing { return false; }
      if now - openedAt < resetMs { return false; }
      probing := true;
      return true;
    }

    method Wait(now: int) returns (ms: nat)
      ensures ms == RetryAfter(Model(), threshold, resetMs, now)
    {
      if !Open() { return 0; }
      if probing { return resetMs; }
      return Max(0, resetMs - (now - openedAt));
    }

    /** True if the breaker had been open until now. */
    method Succeed() returns (closedIt: bool)
      modifies this
      ensures Model() == OnSuccess(old(Model())) && closedIt == old(Open())
    {
      closedIt := Open();
      failures := 0;
      probing := false;
    }

    /** True if the breaker had been closed until now. */
    method Fail(now: int) returns (openedIt: bool)
      modifies this
      ensures Model() == OnFailure(old(Model()), threshold, now)
      ensures openedIt <==> !old(Open()) && Open()
    {
      var wasOpen := Open();
      failures := failures + 1;
      probing := false;
      if Open() { openedAt := now; }
      openedIt := !wasOpen && Open();
    }
  }
}
