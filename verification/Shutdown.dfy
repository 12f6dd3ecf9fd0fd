/** Shutdown of the supervisor: the Stop calls, in reverse order and within one time budget.
Time is a number; what takes time is waiting. */
module Shutdown {
  import opened Wrappers

  /** One Stop call: launched at `at`, waited for until `until`, and whether it returned. */
  datatype Launch = Launch(runnable: nat, at: nat, until: nat, completed: bool)

  /** What is given for one shutdown: how long each runnable's Stop takes (None: it never
  returns), and when the last tracked goroutine finishes. */
  datatype Behaviour = Behaviour(stops: seq<Option<nat>>, drained: Option<nat>)

  function Deadline(start: nat, timeout: nat): Option<nat> {
    if timeout > 0 then Some(start + timeout) else None
  }

  predicate Passed(deadline: Option<nat>, now: nat) { deadline.Some? && deadline.value <= now }

  /** The wait for one Stop call ended because the call returned, or else because the
  deadline was reached while the call was still running. */
  predicate Explained(stops: seq<Option<nat>>, deadline: Option<nat>, l: Launch) {
    && l.runnable < |stops| && l.at <= l.until
    && if l.completed
       then && stops[l.runnable] == Some(l.until - l.at)
            && (deadline.Some? ==> l.at < deadline.value && l.until <= deadline.value)
       else && Passed(deadline, l.until) && l.until <= Later(l.at, deadline.value)
            && (stops[l.runnable].Some? ==> deadline.value <= l.at + stops[l.runnable].value)
  }

  function Later(a: nat, b: nat): nat { if a < b then b else a }

  /** The first `|log|` Stop calls of a shutdown: reverse order, none skipped or repeated,
  each launched at the moment the wait for its predecessor ended. */
  ghost predicate InOrder(stops: seq<Option<nat>>, start: nat, deadline: Option<nat>, log: seq<Launch>) {
    && |log| <= |stops|
    && (forall k :: 0 <= k < |log| ==> Explained(stops, deadline, log[k]) && log[k].runnable == |stops| - 1 - k)
    && (forall k {:trigger EndOf(start, log, k)} :: 0 <= k < |log| ==> log[k].at == EndOf(start, log, k))
  }

  /** When the wait for the first `k` calls was over. */
  function EndOf(start: nat, log: seq<Launch>, k: nat): nat
    requires k <= |log|
  {
    if k == 0 then start else log[k - 1].until
  }

  /** Every runnable's Stop is launched exactly once. */
  lemma EachStoppedOnce(stops: seq<Option<nat>>, start: nat, deadline: Option<nat>, log: seq<Launch>, r: nat)
    requires InOrder(stops, start, deadline, log) && |log| == |stops| && r < |stops|
    ensures log[|stops| - 1 - r].runnable == r
    ensures forall k :: 0 <= k < |log| && log[k].runnable == r ==> k == |stops| - 1 - r
  {}

  /** The waiting never goes beyond the deadline. */
  lemma {:induction false} WithinBudget(stops: seq<Option<nat>>, start: nat, deadline: nat, log: seq<Launch>, k: nat)
    requires InOrder(stops, start, Some(deadline), log) && start <= deadline && k <= |log|
    ensures start <= EndOf(start, log, k) <= deadline
  {
    if k > 0 {
      WithinBudget(stops, start, deadline, log, k - 1);
      assert Explained(stops, Some(deadline), log[k - 1]);
    }
  }

  /** How long the Stop calls of the runnables from `r` on take one after the other. */
  function TotalFrom(stops: seq<Option<nat>>, r: nat): nat
    requires r <= |stops|
    decreases |stops| - r
  {
    if r == |stops| then 0
    else (if stops[r].Some? then stops[r].value else 0) + TotalFrom(stops, r + 1)
  }

  /** If the budget exceeds the total of all Stop calls, every one of them is waited for. */
  lemma {:induction false} LargeBudgetStopsAll(stops: seq<Option<nat>>, start: nat, timeout: nat,
                                               log: seq<Launch>, k: nat)
    requires InOrder(stops, start, Some(start + timeout), log) && k <= |log|
    requires forall r :: 0 <= r < |stops| ==> stops[r].Some?
    requires TotalFrom(stops, 0) < timeout
    ensures EndOf(start, log, k) == start + TotalFrom(stops, |stops| - k)
    ensures forall i :: 0 <= i < k ==> log[i].completed
  {
    if k > 0 {
      LargeBudgetStopsAll(stops, start, timeout, log, k - 1);
      var l := log[k - 1];
      assert Explained(stops, Some(start + timeout), l) && l.at == EndOf(start, log, k - 1);
      TotalGrows(stops, |stops| - k);
    }
  }

  lemma {:induction false} TotalGrows(stops: seq<Option<nat>>, r: nat)
    requires r <= |stops|
    ensures TotalFrom(stops, r) <= TotalFrom(stops, 0)
    decreases r
  {
    if r > 0 { TotalGrows(stops, r - 1); }
  }

  /** Once one Stop call has used up the budget, no later one is waited for at all. */
  lemma {:induction false} NoBudgetNoWait(stops: seq<Option<nat>>, start: nat, deadline: nat,
                                          log: seq<Launch>, k: nat, j: nat)
    requires InOrder(stops, start, Some(deadline), log) && start <= deadline
    requires k < j < |log| && !log[k].completed
    ensures log[j].at == log[j].until == deadline
    decreases j
  {
    WithinBudget(stops, start, deadline, log, k);
    assert Explained(stops, Some(deadline), log[k]);
    if k + 1 < j { NoBudgetNoWait(stops, start, deadline, log, k, j - 1); }
    assert Explained(stops, Some(deadline), log[j]);
    assert log[j].at == EndOf(start, log, j);
  }

  /** How long each wait lasts is determined by the Stop calls and the budget: only whether a
  call that returns just at the deadline is noticed is not. */
  lemma {:induction false} WaitsAreDetermined(stops: seq<Option<nat>>, start: nat, deadline: Option<nat>,
                                              log: seq<Launch>, log': seq<Launch>, k: nat)
    requires InOrder(stops, start, deadline, log) && InOrder(stops, start, deadline, log')
    requires deadline.Some? ==> start <= deadline.value
    requires k <= |log| && k <= |log'|
    ensures EndOf(start, log, k) == EndOf(start, log', k)
  {
    if k > 0 {
      WaitsAreDetermined(stops, start, deadline, log, log', k - 1);
      if deadline.Some? { WithinBudget(stops, start, deadline.value, log, k - 1); }
      assert Explained(stops, deadline, log[k - 1]) && log[k - 1].at == EndOf(start, log, k - 1);
      assert Explained(stops, deadline, log'[k - 1]) && log'[k - 1].at == EndOf(start, log', k - 1);
    }
  }

  /** When Shutdown is back, the Stop calls having been waited for until `stopped`: as soon as
  the goroutines have finished, or else at the deadline. */
  function BackAt(stopped: nat, drained: Option<nat>, deadline: Option<nat>): nat
    requires drained.Some? || deadline.Some?
  {
    if drained.None? then deadline.value
    else if deadline.Some? && deadline.value < drained.value then deadline.value
    else Later(stopped, drained.value)
  }

  /** The supervisor, as far as Shutdown uses it. */
  class PIDZero {
    const shutdownTimeout: nat
    const behaviour: Behaviour
    var now: nat
    var shutdownOnce: bool
    var cancelledAt: Option<nat>
    var log: seq<Launch>
    var stuckIn: Option<nat>    // the runnable whose Stop is waited for without end

    constructor (timeout: nat, behaviour: Behaviour, now: nat)
      ensures shutdownTimeout == timeout && this.behaviour == behaviour && this.now == now
      ensures !shutdownOnce && cancelledAt.None? && log == [] && stuckIn.None?
    {
      shutdownTimeout, this.behaviour, this.now := timeout, behaviour, now;
      shutdownOnce, cancelledAt, log, stuckIn := false, None, [], None;
    }

    /** The context is cancelled before the first Stop call. `returned` is false when the
    call waits forever, which it does exactly when there is no timeout and a Stop call or a
    tracked goroutine never finishes. With a timeout it is back when the goroutines have
    finished or the deadline is reached, no later and no earlier; without one only after all
    Stop calls and goroutines have finished. A second call does nothing. */
    method Shutdown() returns (returned: bool)
      modifies this
      ensures shutdownOnce && old(now) <= now
      ensures old(shutdownOnce) ==>
        returned && log == old(log) && cancelledAt == old(cancelledAt) && now == old(now) && stuckIn == old(stuckIn)
      ensures !old(shutdownOnce) ==>
        var stops, deadline := behaviour.stops, Deadline(old(now), shutdownTimeout);
        && cancelledAt == Some(old(now))
        && InOrder(stops, old(now), deadline, log)
        && returned == (deadline.Some? ||
                        (behaviour.drained.Some? && forall r :: 0 <= r < |stops| ==> stops[r].Some?))
        && (deadline.Some? ==> now <= deadline.value)
        && now == (if returned then BackAt(EndOf(old(now), log, |log|), behaviour.drained, deadline)
                   else EndOf(old(now), log, |log|))
        && (deadline.None? && returned ==>
              behaviour.drained.value <= now && forall k :: 0 <= k < |log| ==> log[k].completed)
        && if stuckIn.Some?
           then stuckIn.value < |stops| && stops[stuckIn.value].None? && |log| == |stops| - 1 - stuckIn.value
           else |log| == |stops|
    {
      if shutdownOnce { return true; }
      shutdownOnce := true;
      cancelledAt := Some(now);
      var deadline := Deadline(now, shutdownTimeout);
      StopAll(deadline);
      if stuckIn.Some? { return false; }
      ghost var stops := behaviour.stops;
      forall r | deadline.None? && 0 <= r < |stops| ensures stops[r].Some? {
        EachStoppedOnce(stops, old(now), deadline, log, r);
        assert Explained(stops, deadline, log[|stops| - 1 - r]);
      }
      returned := WaitForGoroutines(deadline);
    }

    /** The loop over the runnables. */
    method StopAll(deadline: Option<nat>)
      requires deadline.Some? ==> now <= deadline.value
      modifies this`now, this`log, this`stuckIn
      ensures InOrder(behaviour.stops, old(now), deadline, log) && old(now) <= now == EndOf(old(now), log, |log|)
      ensures deadline.Some? ==> now <= deadline.value && stuckIn.None?
      ensures deadline.None? ==> forall k :: 0 <= k < |log| ==> log[k].completed
      ensures if stuckIn.Some?
        then stuckIn.value < |behaviour.stops| && behaviour.stops[stuckIn.value].None?
          && |log| == |behaviour.stops| - 1 - stuckIn.value
        else |log| == |behaviour.stops|
    {
      var i := |behaviour.stops|;
      log, stuckIn := [], None;
      while i > 0
        invariant 0 <= i <= |behaviour.stops| && |log| == |behaviour.stops| - i && stuckIn.None?
        invariant InOrder(behaviour.stops, old(now), deadline, log) && now == EndOf(old(now), log, |log|)
        invariant old(now) <= now && (deadline.Some? ==> now <= deadline.value)
        invariant deadline.None? ==> forall k :: 0 <= k < |log| ==> log[k].completed
      {
        i := i - 1;
        var launch := StopRunnableBounded(i, deadline);
        if launch.None? {
          stuckIn := Some(i);
          return;
        }
        assert forall k :: 0 <= k <= |log| ==> EndOf(old(now), log + [launch.value], k) == EndOf(old(now), log, k);
        log := log + [launch.value];
      }
    }

    /** A Stop call in its own goroutine, waited for within the remaining budget. When it
    returns just as the timer fires, either may be noticed. */
    method StopRunnableBounded(r: nat, deadline: Option<nat>) returns (launch: Option<Launch>)
      requires r < |behaviour.stops|
      modifies this`now
      ensures launch.None? <==> deadline.None? && behaviour.stops[r].None?
      ensures launch.None? ==> now == old(now)
      ensures launch.Some? ==>
        && Explained(behaviour.stops, deadline, launch.value)
        && launch.value.runnable == r && launch.value.at == old(now) && launch.value.until == now
    {
      var takes := behaviour.stops[r];
      var at := now;
      if deadline.None? {
        if takes.None? { return None; }
        now := now + takes.value;
        return Some(Launch(r, at, now, true));
      }
      if deadline.value <= now {
        return Some(Launch(r, at, now, false));
      }
      var remaining := deadline.value - now;
      if {
        case takes.Some? && takes.value <= remaining =>
          now := now + takes.value;
          launch := Some(Launch(r, at, now, true));
        case takes.None? || remaining <= takes.value =>
          now := now + remaining;
          launch := Some(Launch(r, at, now, false));
      }
    }

    method WaitForGoroutines(deadline: Option<nat>) returns (returned: bool)
      requires deadline.Some? ==> now <= deadline.value
      modifies this`now
      ensures old(now) <= now && (deadline.Some? ==> now <= deadline.value)
      ensures returned <==> deadline.Some? || behaviour.drained.Some?
      ensures now == if returned then BackAt(old(now), behaviour.drained, deadline) else old(now)
      ensures behaviour.drained.Some? && (deadline.Some? ==> behaviour.drained.value <= deadline.value) ==>
        now == if old(now) < behaviour.drained.value then behaviour.drained.value else old(now)
      ensures deadline.Some? && (behaviour.drained.Some? ==> deadline.value < behaviour.drained.value) ==>
        now == deadline.value
    {
      var drained := behaviour.drained;
      if deadline.None? {
        if drained.None? { return false; }
        now := Later(now, drained.value);
        return true;
      }
      returned := true;
      if deadline.value <= now { return; }
      if {
        case drained.Some? && drained.value <= deadline.value => now := Later(now, drained.value);
        case drained.None? || deadline.value <= drained.value => now := deadline.value;
      }
    }
  }
}
