/** The reconnect task: exponential backoff, a bounded number of attempts, and
    a cancellation that may come at any time. */
module Reconnect {
  import opened Basics
  import Registry

  const INITIAL_BACKOFF := 100
  const MAX_BACKOFF := 5000
  const MAX_ATTEMPTS := 8

  /** What building and probing the driver comes to. */
  datatype Attempt = NoFactory | Attached | Failed(error: DriverError)

  /** One turn of the loop as the outside world decides it: whether the cancel
      signal beats the sleep, what the attempt comes to, and whether the signal
      is there by the time a success is about to be sent. */
  datatype Turn = Turn(cancelledAsleep: bool, attempt: Attempt, cancelledLate: bool)

  datatype Ending = Abandoned | Cancelled | NoDriver | NotRetriable(error: DriverError) | Discarded | Reattached

  /** Only a transient failure leads to another turn. */
  predicate Retries(t: Turn) {
    !t.cancelledAsleep && (t.attempt == Failed(Disconnected) || t.attempt == Failed(PermissionDenied))
  }

  function EndOf(t: Turn): Ending
    requires !Retries(t)
  {
    if t.cancelledAsleep then Cancelled
    else match t.attempt
      case NoFactory => NoDriver
      case Failed(e) => NotRetriable(e)
      case Attached => if t.cancelledLate then Discarded else Reattached
  }

  function Min(a: nat, b: nat): nat {
    if a <= b then a else b
  }

  function Pow2(k: nat): nat {
    if k == 0 then 1 else 2 * Pow2(k - 1)
  }

  /** The k-th sleep. The cap is applied on doubling, so an initial delay above
      it would be slept once. */
  function Delay(initial: nat, cap: nat, k: nat): nat {
    if k == 0 then initial else Min(initial * Pow2(k), cap)
  }

  /** Doubling and capping the previous delay gives the next one. */
  lemma DelayDoubles(initial: nat, cap: nat, k: nat)
    ensures Min(Delay(initial, cap, k) * 2, cap) == Delay(initial, cap, k + 1)
  {
    assert initial * Pow2(k + 1) == initial * Pow2(k) * 2;
  }

  lemma DelayCapped(initial: nat, cap: nat, k: nat)
    requires initial <= cap
    ensures Delay(initial, cap, k) == Min(initial * Pow2(k), cap)
  {
  }

  /** Runs the task against every possible world. The sleeps begun are exactly
      the first ones of the capped doubling sequence, one for each turn up to
      the first that does not lead to a retry, and never more than the limit. */
  method ReconnectTask(initial: nat, cap: nat, limit: nat, world: nat -> Turn) returns (end: Ending, sleeps: seq<nat>)
    ensures |sleeps| <= limit
    ensures forall k :: 0 <= k < |sleeps| ==> sleeps[k] == Delay(initial, cap, k)
    ensures end.Abandoned? ==> |sleeps| == limit && forall k :: 0 <= k < limit ==> Retries(world(k))
    ensures !end.Abandoned? ==>
              && sleeps != [] && !Retries(world(|sleeps| - 1)) && end == EndOf(world(|sleeps| - 1))
              && forall k :: 0 <= k < |sleeps| - 1 ==> Retries(world(k))
  {
    var backoff := initial;
    var attempts := 0;
    sleeps := [];
    while true
      invariant attempts == |sleeps| <= limit
      invariant backoff == Delay(initial, cap, attempts)
      invariant forall k :: 0 <= k < attempts ==> sleeps[k] == Delay(initial, cap, k) && Retries(world(k))
      decreases limit - attempts
    {
      if attempts >= limit {
        return Abandoned, sleeps;
      }
      var turn := world(attempts);
      sleeps := sleeps + [backoff];
      if turn.cancelledAsleep {
        return Cancelled, sleeps;
      }
      attempts := attempts + 1;
      match turn.attempt {
        case NoFactory => return NoDriver, sleeps;
        case Attached =>
          if turn.cancelledLate {
            return Discarded, sleeps;
          }
          return Reattached, sleeps;
        case Failed(e) =>
          if !Registry.IsTransient(e) {
            return NotRetriable(e), sleeps;
          }
      }
      DelayDoubles(initial, cap, attempts - 1);
      backoff := Min(backoff * 2, cap);
    }
  }

  function Total(sleeps: seq<nat>): nat {
    if sleeps == [] then 0 else Total(sleeps[..|sleeps| - 1]) + sleeps[|sleeps| - 1]
  }

  lemma Distributes(a: nat, p: nat, n: nat, cap: nat)
    ensures a * (2 * p - 1) == a * (p - 1) + a * p
    ensures (n + 1) * cap == n * cap + cap
  {
  }

  /** However the task ends, its sleeps add up to less than 2^n initial delays
      and to no more than n caps. */
  lemma {:induction false} TotalIsBounded(initial: nat, cap: nat, sleeps: seq<nat>)
    requires initial <= cap && forall k :: 0 <= k < |sleeps| ==> sleeps[k] == Delay(initial, cap, k)
    ensures Total(sleeps) <= initial * (Pow2(|sleeps|) - 1)
    ensures Total(sleeps) <= |sleeps| * cap
  {
    hide Delay;
    if sleeps == [] {
    } else {
      var n := |sleeps| - 1;
      TotalIsBounded(initial, cap, sleeps[..n]);
      DelayCapped(initial, cap, n);
      Distributes(initial, Pow2(n), n, cap);
    }
  }

  /** Total sleep after each number of sleeps, with the daemon's constants. */
  const WINDOW: seq<nat> := [0, 100, 300, 700, 1500, 3100, 6300, 11300, 16300]

  /** With the daemon's constants a task sleeps 16.3 s in all if every attempt
      is made, and less otherwise. */
  lemma {:induction false} TotalWindow(sleeps: seq<nat>)
    requires |sleeps| <= MAX_ATTEMPTS
    requires forall k :: 0 <= k < |sleeps| ==> sleeps[k] == Delay(INITIAL_BACKOFF, MAX_BACKOFF, k)
    ensures Total(sleeps) == WINDOW[|sleeps|] <= 16300
    ensures Total(sleeps) == 16300 <==> |sleeps| == MAX_ATTEMPTS
  {
    if sleeps != [] {
      var n := |sleeps| - 1;
      TotalWindow(sleeps[..n]);
      assert Pow2(4) == 16 && Pow2(7) == 128;
      assert sleeps[n] == WINDOW[n + 1] - WINDOW[n];
    }
  }
}
