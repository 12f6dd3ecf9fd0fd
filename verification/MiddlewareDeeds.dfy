/** What the handlers of a chain get done, however their calls of Next nest. */
module MiddlewareDeeds {
  import opened Middleware

  function ActionsOf(h: Handler): seq<Action> {
    if h.Plain? then h.actions else []
  }

  /** What handler `i` did, in order. */
  function Deeds(i: nat, log: seq<Entry>): seq<Action> {
    if log == [] then []
    else
      var e := log[|log| - 1];
      Deeds(i, log[..|log| - 1]) + if e.Did? && e.handler == i then [e.action] else []
  }

  lemma AppendedDeeds(i: nat, log: seq<Entry>, e: Entry)
    ensures Deeds(i, log + [e]) == Deeds(i, log) + if e.Did? && e.handler == i then [e.action] else []
  {
    assert (log + [e])[..|log|] == log;
  }

  /** All of the actions; or, if there was a panic, those up to the handler's own panic or up
  to the call of Next that let one through. */
  predicate Done(deeds: seq<Action>, actions: seq<Action>, panic: bool) {
    || deeds == actions
    || (panic && deeds != [] && deeds <= actions && (deeds[|deeds| - 1].Panic? || deeds[|deeds| - 1].CallNext?))
  }

  /** Nobody who has not started has done anything. */
  ghost predicate Idle(log: seq<Entry>) {
    forall j: nat :: j >= Starts(log) ==> Deeds(j, log) == []
  }

  /** From `a` to `b` some more handlers have started and finished, and the others, `busy`
  excepted, have done nothing. */
  ghost predicate Grown(hs: seq<Handler>, a: seq<Entry>, b: seq<Entry>, busy: int) {
    && Starts(a) <= Starts(b) <= |hs| && Panics(a) <= Panics(b) && Rescues(a) <= Rescues(b) && Idle(b)
    && (forall j: nat :: j < Starts(a) && j != busy ==> Deeds(j, b) == Deeds(j, a))
    && (forall j: nat :: Starts(a) <= j < Starts(b) ==> Done(Deeds(j, b), ActionsOf(hs[j]), Panics(b) > Panics(a)))
  }

  lemma GrownOn(hs: seq<Handler>, a: seq<Entry>, b: seq<Entry>, c: seq<Entry>, busy: int)
    requires Grown(hs, a, b, busy) && Grown(hs, b, c, busy) && busy < Starts(a)
    ensures Grown(hs, a, c, busy)
  {}

  lemma Quiet(hs: seq<Handler>, log: seq<Entry>, e: Entry, busy: int)
    requires Idle(log) && Starts(log) <= |hs| && !e.Start? && (e.Did? ==> e.handler == busy < Starts(log))
    ensures Grown(hs, log, log + [e], busy)
  {
    Appended(log, e);
    forall j: nat ensures Deeds(j, log + [e]) == Deeds(j, log) + if e.Did? && e.handler == j then [e.action] else [] {
      AppendedDeeds(j, log, e);
    }
  }

  lemma Opened(hs: seq<Handler>, log: seq<Entry>)
    requires Idle(log) && Starts(log) < |hs|
    ensures Opens(log, log + [Start(Starts(log))])
  {
    var e := Start(Starts(log));
    Appended(log, e);
    forall j: nat ensures Deeds(j, log + [e]) == Deeds(j, log) { AppendedDeeds(j, log, e); }
  }

  /** One more handler has started. */
  ghost predicate Opens(a: seq<Entry>, b: seq<Entry>) {
    && Starts(b) == Starts(a) + 1 && Panics(b) == Panics(a) && Rescues(b) == Rescues(a)
    && Idle(a) && Idle(b) && forall j: nat :: Deeds(j, b) == Deeds(j, a)
  }

  /** It has finished, and did `part`. */
  lemma Closed(hs: seq<Handler>, a: seq<Entry>, b: seq<Entry>, c: seq<Entry>, part: seq<Action>)
    requires Opens(a, b) && Starts(a) < |hs| && Grown(hs, b, c, Starts(a))
    requires Deeds(Starts(a), c) == part && Done(part, ActionsOf(hs[Starts(a)]), Panics(c) > Panics(b))
    ensures Grown(hs, a, c, -1)
  {}

  lemma DoneMore(deeds: seq<Action>, actions: seq<Action>, panic: bool)
    requires actions != [] && Done(deeds, actions[1..], panic)
    ensures Done([actions[0]] + deeds, actions, panic)
  {
    assert actions == [actions[0]] + actions[1..];
  }

  /** One action is done, at `b`, and the handler goes on with `rest`. */
  lemma WentOn(a: seq<Entry>, b: seq<Entry>, c: seq<Entry>, i: nat, actions: seq<Action>, rest: seq<Action>)
    requires actions != [] && Panics(a) <= Panics(b)
    requires Deeds(i, b) == Deeds(i, a) + [actions[0]] && Deeds(i, c) == Deeds(i, b) + rest
    requires Done(rest, actions[1..], Panics(c) > Panics(b))
    ensures Deeds(i, c) == Deeds(i, a) + ([actions[0]] + rest)
    ensures Done([actions[0]] + rest, actions, Panics(c) > Panics(a))
  {
    DoneMore(rest, actions, Panics(c) > Panics(b));
  }

  lemma GoesOn(hs: seq<Handler>, a: seq<Entry>, b: seq<Entry>, c: seq<Entry>, i: nat, actions: seq<Action>,
               rest: seq<Action>)
    requires actions != [] && i < Starts(a) && Grown(hs, a, b, i) && Grown(hs, b, c, i)
    requires Deeds(i, b) == Deeds(i, a) + [actions[0]] && Deeds(i, c) == Deeds(i, b) + rest
    requires Done(rest, actions[1..], Panics(c) > Panics(b))
    ensures Grown(hs, a, c, i) && Deeds(i, c) == Deeds(i, a) + ([actions[0]] + rest)
    ensures Done([actions[0]] + rest, actions, Panics(c) > Panics(a))
  {
    GrownOn(hs, a, b, c, i);
    WentOn(a, b, c, i, actions, rest);
  }

  /** The action is done, and the last one because of a panic. */
  lemma EndedThere(hs: seq<Handler>, a: seq<Entry>, c: seq<Entry>, i: nat, actions: seq<Action>)
    requires actions != [] && (actions[0].Panic? || actions[0].CallNext?)
    requires Deeds(i, c) == Deeds(i, a) + [actions[0]] && Panics(c) > Panics(a)
    ensures Done([actions[0]], actions, Panics(c) > Panics(a))
  {
    assert [actions[0]] <= actions;
  }

  lemma {:induction false} NextGrows(hs: seq<Handler>, c: Chain)
    requires Inv(hs, 1, c) && !c.panicked && Idle(c.log)
    ensures Grown(hs, c.log, RunNext(hs, c).log, -1)
    ensures RunNext(hs, c).panicked ==> Panics(RunNext(hs, c).log) > Panics(c.log)
    decreases Left(|hs|, c), 0, 0
  {
    var c1 := c.(index := c.index + 1);
    if 0 <= c1.index < |hs| { LoopGrows(hs, c1); }
    NextKeepsInv(hs, c);
  }

  lemma {:induction false} LoopGrows(hs: seq<Handler>, c: Chain)
    requires Inv(hs, 0, c) && !c.panicked && 0 <= c.index < |hs| && Idle(c.log)
    ensures Grown(hs, c.log, RunLoop(hs, c).log, -1)
    decreases Left(|hs|, c), 3, 0
  {
    var c1 := RoundGrows(hs, c);
    var c2 := c1.(index := c1.index + 1);
    if c1.panicked || c2.index >= |hs| {
      assert RunLoop(hs, c).log == c1.log;
    } else {
      LoopGrows(hs, c2);
      GrownOn(hs, c.log, c1.log, RunLoop(hs, c2).log, -1);
      assert RunLoop(hs, c) == RunLoop(hs, c2);
    }
  }

  /** One round of the loop: the next handler from its start to its end. */
  lemma {:induction false} RoundGrows(hs: seq<Handler>, c: Chain) returns (c1: Chain)
    requires Inv(hs, 0, c) && !c.panicked && 0 <= c.index < |hs| && Idle(c.log)
    ensures c1 == RunHandler(hs, c.index, c.Logging(Start(c.index)))
    ensures Grown(hs, c.log, c1.log, -1) && Inv(hs, 1, c1)
    decreases Left(|hs|, c), 2, 1
  {
    var c0 := c.Logging(Start(c.index));
    StartKeepsInv(hs, c);
    Opened(hs, c.log);
    HandlerGrows(hs, c.log, c0);
    HandlerKeepsInv(hs, c.index, c0);
    c1 := RunHandler(hs, c.index, c0);
  }

  /** The handler that starts after `before`, to its end. */
  lemma {:induction false} HandlerGrows(hs: seq<Handler>, before: seq<Entry>, c: Chain)
    requires Opens(before, c.log) && Starts(before) < |hs| && Inv(hs, 1, c) && !c.panicked
    ensures Grown(hs, before, RunHandler(hs, Starts(before), c).log, -1)
    decreases Left(|hs|, c), 2, 0
  {
    var i := Starts(before);
    var part := [];
    match hs[i] {
      case Plain(actions) => part := ActionsGrow(hs, i, actions, c);
      case Recovery(accepted) => RecoveryGrows(hs, i, accepted, c);
    }
    Closed(hs, before, c.log, RunHandler(hs, i, c).log, part);
  }

  lemma {:induction false} RecoveryGrows(hs: seq<Handler>, i: nat, accepted: nat, c: Chain)
    requires Inv(hs, 1, c) && !c.panicked && Idle(c.log) && i < |hs| && hs[i] == Recovery(accepted)
    ensures Grown(hs, c.log, RunHandler(hs, i, c).log, -1)
    decreases Left(|hs|, c), 1, 0
  {
    NextGrows(hs, c);
    var c1 := RunNext(hs, c);
    if c1.panicked {
      Quiet(hs, c1.log, Rescue(i, accepted), -1);
      GrownOn(hs, c.log, c1.log, c1.log + [Rescue(i, accepted)], -1);
    }
  }

  /** `part` is what the handler still does of `actions`. */
  lemma {:induction false} ActionsGrow(hs: seq<Handler>, i: nat, actions: seq<Action>, c: Chain)
    returns (part: seq<Action>)
    requires Inv(hs, 1, c) && !c.panicked && Idle(c.log) && i < Starts(c.log)
    ensures var r := RunActions(hs, i, actions, c);
      && Grown(hs, c.log, r.log, i)
      && Deeds(i, r.log) == Deeds(i, c.log) + part && Done(part, actions, Panics(r.log) > Panics(c.log))
    decreases Left(|hs|, c), 1, |actions|
  {
    part := [];
    if actions != [] {
      var c1 := ActionGrows(hs, i, actions[0], c);
      OneAction(hs, i, actions, c);
      if c1.panicked {
        EndedThere(hs, c.log, c1.log, i, actions);
        part := [actions[0]];
      } else {
        var rest := ActionsGrow(hs, i, actions[1..], c1);
        var r := RunActions(hs, i, actions[1..], c1);
        GoesOn(hs, c.log, c1.log, r.log, i, actions, rest);
        part := [actions[0]] + rest;
      }
    }
  }

  lemma OneAction(hs: seq<Handler>, i: nat, actions: seq<Action>, c: Chain)
    requires actions != [] && !c.panicked
    ensures
      var c0 := Acted(|hs|, i, actions[0], c);
      var c1 := if actions[0].CallNext? then RunNext(hs, c0) else c0;
      RunActions(hs, i, actions, c) == if c1.panicked then c1 else RunActions(hs, i, actions[1..], c1)
  {}

  /** One action, with all that a call of Next leads to. */
  lemma {:induction false} ActionGrows(hs: seq<Handler>, i: nat, action: Action, c: Chain) returns (c1: Chain)
    requires Inv(hs, 1, c) && !c.panicked && Idle(c.log) && i < Starts(c.log)
    ensures c1 == if action.CallNext? then RunNext(hs, Acted(|hs|, i, action, c)) else Acted(|hs|, i, action, c)
    ensures Inv(hs, 1, c1) && Grown(hs, c.log, c1.log, i) && Deeds(i, c1.log) == Deeds(i, c.log) + [action]
    ensures c1.panicked ==> (action.CallNext? || action.Panic?) && Panics(c1.log) > Panics(c.log)
    decreases Left(|hs|, c), 1, 0
  {
    c1 := Acted(|hs|, i, action, c);
    ActionKeepsInv(hs, i, action, c);
    Quiet(hs, c.log, Did(i, action), i);
    AppendedDeeds(i, c.log, Did(i, action));
    Appended(c.log, Did(i, action));
    if action.CallNext? {
      NextGrows(hs, c1);
      NextKeepsInv(hs, c1);
      GrownOn(hs, c.log, c1.log, RunNext(hs, c1).log, i);
      c1 := RunNext(hs, c1);
    }
  }

  /** Every handler that starts does all its actions in their order, unless a panic ends it:
  its own, or one that a call of Next lets through. A handler that does not start does
  nothing. Without a panic all that start are complete. */
  lemma HandlersDoTheirActions(hs: seq<Handler>, i: nat)
    requires i < |hs|
    ensures var log := Serve(hs).log;
      if i < Starts(log) then Done(Deeds(i, log), ActionsOf(hs[i]), Panics(log) > 0) else Deeds(i, log) == []
  {
    NextGrows(hs, FIRST);
  }
}
