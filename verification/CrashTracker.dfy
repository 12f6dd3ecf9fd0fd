/** Crash bookkeeping of the HTTP cluster: the exponential backoff and the sliding
window of recent crashes that decides when a crash loop escalates. */
module CrashTracker {
  type Time = int

  // ---------------------------------------------------------------- backoff

  function Doubled(initial: nat, times: nat): nat {
    if times == 0 then initial else 2 * Doubled(initial, times - 1)
  }

  function Min(a: nat, b: nat): nat { if a <= b then a else b }

  /** The documented schedule: double from `initial`, never above `max`. */
  function IdealBackoff(initial: nat, max: nat, attempt: int): nat {
    Min(Doubled(initial, if attempt < 1 then 0 else attempt - 1), max)
  }

  /** The schedule the code follows. It jumps to `max` one doubling early when the
  last value below `max` is exactly half of `max - 1`. */
  function Backoff(initial: nat, max: nat, attempt: int): nat
    decreases attempt
  {
    if attempt <= 1 then initial
    else
      var d := Backoff(initial, max, attempt - 1);
      if d >= max / 2 then max else 2 * d
  }

  /** backoffForLocked. `peak` is the largest value formed on the way: it does not exceed
  `max`, so a machine integer that holds `max` holds every intermediate value. */
  method BackoffFor(initial: nat, max: nat, attempt: int) returns (d: nat, ghost peak: nat)
    requires 0 < initial <= max
    ensures d == Backoff(initial, max, attempt)
    ensures initial <= d <= peak <= max
  {
    var n := if attempt < 1 then 1 else attempt;
    d := initial;
    peak := d;
    var i := 1;
    while i < n
      invariant 1 <= i <= n
      invariant d == Backoff(initial, max, i)
      invariant initial <= d <= peak <= max
    {
      if d >= max / 2 {
        BackoffStaysAtMax(initial, max, i + 1, n);
        return max, max;
      }
      var doubled := d * 2;
      peak := if doubled > peak then doubled else peak;
      d := doubled;
      i := i + 1;
    }
  }

  lemma {:induction false} BackoffStaysAtMax(initial: nat, max: nat, k: int, n: int)
    requires 1 <= k <= n
    requires 0 < initial <= max
    requires Backoff(initial, max, k) == max
    ensures Backoff(initial, max, n) == max
    decreases n
  {
    if k < n {
      BackoffStaysAtMax(initial, max, k, n - 1);
    }
  }

  /** The backoff lies in [initial, max] and never decreases as attempts grow. */
  lemma {:induction false} BackoffBoundedAndMonotone(initial: nat, max: nat, a: int, b: int)
    requires 0 < initial <= max
    requires a <= b
    ensures initial <= Backoff(initial, max, a) <= Backoff(initial, max, b) <= max
    decreases b
  {
    if b > 1 {
      BackoffBoundedAndMonotone(initial, max, if a < b then a else b - 1, b - 1);
    }
  }

  /** The doubling lands one unit below `max`. */
  predicate OneShort(initial: nat, max: nat, attempt: int) {
    attempt >= 2 && Doubled(initial, attempt - 1) + 1 == max
  }

  /** The code departs from the documented schedule, by one unit, exactly when the
  doubling would land on `max - 1`; in particular never when `max` is even. */
  lemma {:induction false} BackoffIsIdealExactlyWhen(initial: nat, max: nat, attempt: int)
    requires 0 < initial <= max
    ensures Backoff(initial, max, attempt) ==
      IdealBackoff(initial, max, attempt) + if OneShort(initial, max, attempt) then 1 else 0
    ensures max % 2 == 0 ==> Backoff(initial, max, attempt) == IdealBackoff(initial, max, attempt)
    decreases attempt
  {
    if attempt > 1 {
      BackoffIsIdealExactlyWhen(initial, max, attempt - 1);
      DoubledGrows(initial, attempt - 2);
      assert Doubled(initial, attempt - 1) == 2 * Doubled(initial, attempt - 2);
    }
  }

  lemma {:induction false} DoubledGrows(initial: nat, n: nat)
    requires 0 < initial
    ensures Doubled(initial, n) >= initial
  {
    if n > 0 {
      DoubledGrows(initial, n - 1);
    }
  }

  // ---------------------------------------------------------------- sliding window

  /** The crash times strictly after `cutoff` among the first `n`, in order. */
  function Recent(times: seq<Time>, n: nat, cutoff: Time): (r: seq<Time>)
    requires n <= |times|
    ensures |r| <= n
  {
    if n == 0 then []
    else if times[n - 1] > cutoff then Recent(times, n - 1, cutoff) + [times[n - 1]]
    else Recent(times, n - 1, cutoff)
  }

  function After(times: seq<Time>, cutoff: Time): seq<Time> {
    Recent(times, |times|, cutoff)
  }

  /** `failures` is the whole crash history, restricted to the window that ends at
  the last crash. */
  ghost predicate IsWindow(failures: seq<Time>, crashes: seq<Time>, window: Time) {
    failures == if crashes == [] then [] else After(crashes, crashes[|crashes| - 1] - window)
  }

  lemma {:induction false} RecentOfPrefix(times: seq<Time>, now: Time, n: nat, cutoff: Time)
    requires n <= |times|
    ensures Recent(times + [now], n, cutoff) == Recent(times, n, cutoff)
  {
    if n > 0 {
      RecentOfPrefix(times, now, n - 1, cutoff);
    }
  }

  lemma AfterAppend(times: seq<Time>, now: Time, cutoff: Time)
    ensures After(times + [now], cutoff) == After(times, cutoff) + if now > cutoff then [now] else []
  {
    RecentOfPrefix(times, now, |times|, cutoff);
  }

  lemma {:induction false} AfterTwice(times: seq<Time>, n: nat, c1: Time, c2: Time)
    requires n <= |times|
    requires c1 <= c2
    ensures After(Recent(times, n, c1), c2) == Recent(times, n, c2)
  {
    if n > 0 {
      AfterTwice(times, n - 1, c1, c2);
      AfterAppend(Recent(times, n - 1, c1), times[n - 1], c2);
    }
  }

  /** Pruning step by step loses nothing: as long as the clock does not run backwards,
  recording a crash keeps the list equal to the window over the whole history. */
  lemma RecordingKeepsWindow(failures: seq<Time>, crashes: seq<Time>, now: Time, window: Time)
    requires IsWindow(failures, crashes, window) && 0 < window
    requires crashes != [] ==> crashes[|crashes| - 1] <= now
    ensures IsWindow(After(failures, now - window) + [now], crashes + [now], window)
  {
    AfterAppend(crashes, now, now - window);
    if crashes != [] {
      AfterTwice(crashes, |crashes|, crashes[|crashes| - 1] - window, now - window);
    }
  }

  /** The pruning loop: survivors are moved to the front of the very array that is being
  read. */
  method PruneInPlace(buffer: array<Time>, cutoff: Time) returns (kept: nat)
    modifies buffer
    ensures kept <= buffer.Length
    ensures buffer[..kept] == After(old(buffer[..]), cutoff)
  {
    ghost var was := buffer[..];
    var i := 0;
    kept := 0;
    while i < buffer.Length
      invariant kept <= i <= buffer.Length == |was|
      invariant buffer[..kept] == Recent(was, i, cutoff)
      invariant forall j :: i <= j < buffer.Length ==> buffer[j] == was[j]
    {
      if buffer[i] > cutoff {
        buffer[kept] := buffer[i];
        kept := kept + 1;
      }
      i := i + 1;
    }
  }

  /** Crash history of one server (restartState). `serial` tells heap objects apart. */
  class RestartState {
    var failures: seq<Time>
    var attempts: nat
    var gen: nat
    ghost const serial: nat

    constructor (ghost serial: nat)
      ensures failures == [] && attempts == 0 && gen == 0 && this.serial == serial
    {
      this.serial := serial;
      failures, attempts, gen := [], 0, 0;
    }

    /** recordFailureLocked on a live record: drop the crashes outside the window, then
    append `now`. */
    method RecordFailure(now: Time, window: Time)
      modifies this`failures
      ensures failures == After(old(failures), now - window) + [now]
    {
      var slice := new Time[|failures|](i requires 0 <= i < |failures| reads this => failures[i]);
      assert slice[..] == failures;
      var kept := PruneInPlace(slice, now - window);
      failures := slice[..kept] + [now];
    }

    method CountAttempt()
      modifies this`attempts, this`gen
      ensures attempts == old(attempts) + 1 && gen == old(gen) + 1
    {
      attempts, gen := attempts + 1, gen + 1;
    }
  }
}
