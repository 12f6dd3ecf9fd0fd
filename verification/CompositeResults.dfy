/** What the composite runner promises over every interleaving, and two things it does not. */
module CompositeResults {
  import opened Wrappers
  import opened Fsm
  import opened Names
  import opened Membership
  import opened Composite
  import opened CompositeSafety

  lemma ReachableInv(table: Table, events: seq<Event>)
    requires ShownEdges(table) && IsRun(table, Initial(), events)
    ensures Inv(Reach(table, Initial(), events))
  {
    RunKeepsInv(table, Initial(), events);
  }

  lemma {:induction false} OneMoreStep(table: Table, s: State, events: seq<Event>, e: Event)
    requires IsRun(table, s, events) && Enabled(Reach(table, s, events), e)
    ensures IsRun(table, s, events + [e])
    ensures Reach(table, s, events + [e]) == Apply(table, Reach(table, s, events), e)
    decreases |events|
  {
    if events == [] {
      assert events + [e] == [e] && [e][1..] == [];
    } else {
      OneMoreStep(table, Apply(table, s, events[0]), events[1..], e);
      assert (events + [e])[1..] == events[1..] + [e];
    }
  }

  // ---------------------------------------------------------------- interference

  /** A goroutine, seen from itself: Run, or a Reload call. */
  datatype Actor = RunItself | TheCaller(c: CallerId)

  predicate OwnStep(self: Actor, e: Event) {
    match self
    case RunItself => RunChooses(e) || e.Proceed?
    case TheCaller(c) =>
      (e.Call? || e.Callback? || e.Send? || e.Abort? || e.Escalate? || e.Receive?) && e.c == c
  }

  /** The request of `c` has its answer, which the caller may have received. */
  predicate Got(calls: map<CallerId, Caller>, c: CallerId, reply: Reply) {
    c in calls && ((calls[c].Sent? && calls[c].reply == Some(reply)) || calls[c] == Returned(Answered(reply)))
  }

  ghost predicate AnswersStay(before: map<CallerId, Caller>, after: map<CallerId, Caller>) {
    forall c: CallerId, r :: Got(before, c, r) ==> Got(after, c, r)
  }

  /** Only Run leaves these. */
  predicate Lasting(status: Status) { status == Error || status == Stopping || status == Stopped }

  /** What Run can rely on while others act: children only leave, a queued error or request
  stays, and requests that Run holds are not touched. */
  ghost predicate RunUndisturbed(s: State, t: State) {
    && (Lasting(s.status) ==> t.status == s.status)
    && t.pc == s.pc && t.config == s.config && t.gen == s.gen && t.nextGen == s.nextGen
    && t.launched == s.launched && t.endedBy == s.endedBy && t.running <= s.running
    && (s.serverErrors.Some? ==> t.serverErrors == s.serverErrors)
    && (s.reloadCh.Some? ==> t.reloadCh == s.reloadCh)
    && (forall c: CallerId :: Unanswered(s, c) ==> c in t.callers && t.callers[c] == s.callers[c])
    && AnswersStay(s.callers, t.callers)
  }

  /** What a call that is about to give up can rely on. */
  predicate CallUndisturbed(c: CallerId, s: State, t: State) {
    c in s.callers && s.callers[c].Aborting? ==> c in t.callers && t.callers[c] == s.callers[c]
  }

  ghost predicate Undisturbed(self: Actor, s: State, t: State) {
    match self
    case RunItself => RunUndisturbed(s, t)
    case TheCaller(c) => CallUndisturbed(c, s, t)
  }

  lemma CallersDoNotDisturbRun(table: Table, s: State, e: Event)
    requires ShownEdges(table) && TokenInv(s) && GateInv(s) && CallerEnabled(s, e)
    ensures RunUndisturbed(s, ApplyCaller(table, s, e))
  {
    CallersKeepLasting(table, s, e);
    CallersKeepAnswers(table, s, e);
  }

  lemma CallersKeepAnswers(table: Table, s: State, e: Event)
    requires CallerEnabled(s, e)
    ensures AnswersStay(s.callers, ApplyCaller(table, s, e).callers)
    ensures forall c: CallerId :: Unanswered(s, c) ==>
      c in ApplyCaller(table, s, e).callers && ApplyCaller(table, s, e).callers[c] == s.callers[c]
  {
    var t := ApplyCaller(table, s, e);
    assert forall c :: c in s.callers && c != e.c ==> c in t.callers && t.callers[c] == s.callers[c];
  }

  lemma CallersKeepLasting(table: Table, s: State, e: Event)
    requires ShownEdges(table) && TokenInv(s) && GateInv(s) && CallerEnabled(s, e)
    ensures Lasting(s.status) ==> ApplyCaller(table, s, e).status == s.status
  {
    assert Holds(s, e.c) <==> s.gate == Some(e.c);
  }

  lemma RunDoesNotDisturb(table: Table, s: State, c: CallerId)
    requires CanAdvance(s)
    ensures CallUndisturbed(c, s, Advance(table, s))
  {}

  lemma OthersStep(table: Table, self: Actor, s: State, e: Event)
    requires ShownEdges(table) && TokenInv(s) && GateInv(s)
    requires Enabled(s, e) && !OwnStep(self, e)
    ensures Undisturbed(self, s, Apply(table, s, e))
  {
    if e.Proceed? {
      RunDoesNotDisturb(table, s, self.c);
    } else if CallerEnabled(s, e) {
      if self.RunItself? { CallersDoNotDisturbRun(table, s, e); }
    }
  }

  lemma OthersSteps(self: Actor, s: State, t: State, u: State)
    requires Undisturbed(self, s, t) && Undisturbed(self, t, u)
    ensures Undisturbed(self, s, u)
  {}

  // ---------------------------------------------------------------- the reload gate

  /** At most one reload is admitted, queued or worked on; meanwhile the runner is not
  Running, so nobody else is admitted; and the send of an admitted caller never waits. */
  lemma OneReloadAtATime(table: Table, events: seq<Event>, c: CallerId, d: CallerId)
    requires ShownEdges(table) && IsRun(table, Initial(), events)
    ensures var s := Reach(table, Initial(), events);
      && (Holds(s, c) && Holds(s, d) ==> c == d)
      && (Holds(s, c) ==> s.status != Running)
      && (c in s.callers && s.callers[c].Ready? ==> Enabled(s, Send(c)))
  {
    ReachableInv(table, events);
    var s := Reach(table, Initial(), events);
    assert Holds(s, c) <==> s.gate == Some(c);
    assert Holds(s, d) <==> s.gate == Some(d);
    if s.reloadCh.Some? {
      assert Holds(s, s.reloadCh.value.caller);
      assert Unanswered(s, s.reloadCh.value.caller);
    }
  }

  /** The caller on whose behalf a step acts. */
  function ActsFor(s: State, e: Event): Option<CallerId> {
    match e
    case Abort(c, _) => Some(c)
    case Callback(c, _) => Some(c)
    case Proceed => if s.pc.Handling? || s.pc.Releasing? then Some(s.pc.caller) else None
    case _ => None
  }

  /** Nobody ends another caller's Reloading, except by declaring the runner in error. */
  lemma GateIsReleasedForItsTaker(table: Table, events: seq<Event>, e: Event)
    requires ShownEdges(table) && IsRun(table, Initial(), events)
    requires Enabled(Reach(table, Initial(), events), e)
    ensures var s := Reach(table, Initial(), events);
      var t := Apply(table, s, e);
      s.status == Reloading && t.status != Reloading ==>
        || t.status == Error
        || (t.status == Running && ActsFor(s, e).Some? && Holds(s, ActsFor(s, e).value)
            && forall c: CallerId :: !Holds(t, c))
  {
    ReachableInv(table, events);
    ReleaseStep(table, Reach(table, Initial(), events), e);
  }

  lemma ReleaseStep(table: Table, s: State, e: Event)
    requires ShownEdges(table) && TokenInv(s) && GateInv(s) && RequestInv(s) && Enabled(s, e)
    ensures var t := Apply(table, s, e);
      s.status == Reloading && t.status != Reloading ==>
        || t.status == Error
        || (t.status == Running && ActsFor(s, e).Some? && Holds(s, ActsFor(s, e).value)
            && forall c: CallerId :: !Holds(t, c))
  {
    var t := Apply(table, s, e);
    StepKeepsToken(table, s, e);
    if s.status == Reloading && t.status != Reloading && t.status != Error {
      assert forall c: CallerId :: Holds(t, c) <==> t.gate == Some(c);
      if ActsFor(s, e).Some? { assert Holds(s, ActsFor(s, e).value); }
    }
  }

  /** A call whose callback yields no configuration leaves the runner in Error with the gate
  free, and that is the last reload: whatever follows, no call is admitted any more. */
  lemma FailedCallbackIsFinal(table: Table, events: seq<Event>, c: CallerId, more: seq<Event>)
    requires ShownEdges(table) && IsRun(table, Initial(), events)
    requires Enabled(Reach(table, Initial(), events), Callback(c, None))
    requires IsRun(table, Apply(table, Reach(table, Initial(), events), Callback(c, None)), more)
    ensures var t := Apply(table, Reach(table, Initial(), events), Callback(c, None));
      t.status == Error && t.callers[c] == Returned(NoConfig) && NoMoreReloads(t, Reach(table, t, more))
  {
    ReachableInv(table, events);
    var s := Reach(table, Initial(), events);
    StepKeepsInv(table, s, Callback(c, None));
    assert Holds(s, c);
    ErrorAdmitsNobody(table, Apply(table, s, Callback(c, None)), more);
  }

  /** From `s` on nobody is reloading, and calls that are new in `t` were turned away. */
  ghost predicate NoMoreReloads(s: State, t: State) {
    && ReturnedStay(s, t)
    && t.gate.None? && (t.status == Error || t.status == Stopped)
    && (forall c: CallerId :: !Holds(s, c) && !Holds(t, c))
    && (forall c: CallerId :: c in t.callers && c !in s.callers ==>
          t.callers[c] == Returned(Dropped) || t.callers[c] == Returned(CtxDone))
  }

  ghost predicate ReturnedStay(s: State, t: State) {
    forall c: CallerId :: c in s.callers && s.callers[c].Returned? ==> c in t.callers && t.callers[c] == s.callers[c]
  }

  /** Error with the gate free is final, up to the shutdown. */
  lemma {:induction false} ErrorAdmitsNobody(table: Table, s: State, events: seq<Event>)
    requires ShownEdges(table) && Inv(s) && IsRun(table, s, events)
    requires s.gate.None? && (s.status == Error || s.status == Stopped)
    ensures NoMoreReloads(s, Reach(table, s, events))
    decreases |events|
  {
    if events == [] {
      assert forall c: CallerId :: Holds(s, c) <==> s.gate == Some(c);
    } else {
      StepKeepsInv(table, s, events[0]);
      ErrorStep(table, s, events[0]);
      TurnedAway(table, s, events[0]);
      ErrorAdmitsNobody(table, Apply(table, s, events[0]), events[1..]);
    }
  }

  lemma ErrorStep(table: Table, s: State, e: Event)
    requires ShownEdges(table) && TokenInv(s) && GateInv(s) && Enabled(s, e)
    requires s.gate.None? && (s.status == Error || s.status == Stopped)
    ensures var t := Apply(table, s, e);
      t.gate.None? && (t.status == Error || t.status == Stopped) && forall c: CallerId :: !Holds(s, c)
  {
    assert forall c: CallerId :: Holds(s, c) <==> s.gate == Some(c);
  }

  /** Unless the runner is Running, a new call is turned away; no call comes back. */
  lemma TurnedAway(table: Table, s: State, e: Event)
    requires Enabled(s, e) && s.status != Running
    ensures var t := Apply(table, s, e);
      && ReturnedStay(s, t)
      && (forall c: CallerId :: c in t.callers && c !in s.callers ==>
            t.callers[c] == Returned(Dropped) || t.callers[c] == Returned(CtxDone))
  {
    if CallerEnabled(s, e) {
      CallerTurnedAway(table, s, e);
    }
  }

  lemma CallerTurnedAway(table: Table, s: State, e: Event)
    requires CallerEnabled(s, e) && s.status != Running
    ensures var t := ApplyCaller(table, s, e);
      && ReturnedStay(s, t)
      && (forall c: CallerId :: c in t.callers && c !in s.callers ==>
            t.callers[c] == Returned(Dropped) || t.callers[c] == Returned(CtxDone))
  {}

  /** The call still has the configuration that its callback returned, as long as it has one. */
  predicate StillWants(s: State, c: CallerId, cfg: Config) {
    && c in s.callers && !s.callers[c].Admitted?
    && (s.callers[c].Ready? || s.callers[c].Sent? ==> s.callers[c].cfg == cfg)
    && s.callers[c] != Returned(NoConfig) && s.callers[c] != Aborting(NoConfig)
    && (s.reloadCh.Some? && s.reloadCh.value.caller == c ==> s.reloadCh.value.cfg == cfg)
    && (s.pc.Handling? && s.pc.caller == c ==> s.pc.cfg == cfg)
  }

  /** The configuration that a callback returns is the one that is sent and the one that Run
  works on for this call, over every run. */
  lemma CallKeepsItsConfiguration(table: Table, s: State, events: seq<Event>, c: CallerId, cfg: Config)
    requires ShownEdges(table) && Inv(s) && Enabled(s, Callback(c, Some(cfg)))
    requires IsRun(table, Apply(table, s, Callback(c, Some(cfg))), events)
    ensures StillWants(Reach(table, Apply(table, s, Callback(c, Some(cfg))), events), c, cfg)
  {
    var t := Apply(table, s, Callback(c, Some(cfg)));
    StepKeepsInv(table, s, Callback(c, Some(cfg)));
    assert Holds(s, c) && (Unanswered(s, c) <==> Buffered(s, c) || InHand(s.pc, c));
    WantsOn(table, t, events, c, cfg);
  }

  lemma {:induction false} WantsOn(table: Table, s: State, events: seq<Event>, c: CallerId, cfg: Config)
    requires IsRun(table, s, events) && StillWants(s, c, cfg)
    ensures StillWants(Reach(table, s, events), c, cfg)
    decreases |events|
  {
    if events != [] {
      WantsStep(table, s, events[0], c, cfg);
      WantsOn(table, Apply(table, s, events[0]), events[1..], c, cfg);
    }
  }

  lemma WantsStep(table: Table, s: State, e: Event, c: CallerId, cfg: Config)
    requires Enabled(s, e) && StillWants(s, c, cfg)
    ensures StillWants(Apply(table, s, e), c, cfg)
  {
    if CallerEnabled(s, e) {
      CallerWants(table, s, e, c, cfg);
    } else if e.Proceed? {
      AdvanceWants(table, s, c, cfg);
    }
  }

  lemma CallerWants(table: Table, s: State, e: Event, c: CallerId, cfg: Config)
    requires CallerEnabled(s, e) && StillWants(s, c, cfg)
    ensures StillWants(ApplyCaller(table, s, e), c, cfg)
  {}

  lemma AdvanceWants(table: Table, s: State, c: CallerId, cfg: Config)
    requires CanAdvance(s) && StillWants(s, c, cfg)
    ensures StillWants(Advance(table, s), c, cfg)
  {
    if s.pc.Handling? {
      ReloadWants(table, s, c, cfg);
    } else if Plain(s.pc) {
      PlainStep(table, s);
    }
  }

  lemma ReloadWants(table: Table, s: State, c: CallerId, cfg: Config)
    requires s.pc.Handling? && StillWants(s, c, cfg)
    ensures StillWants(AdvanceReload(table, s), c, cfg)
  {}

  // ---------------------------------------------------------------- answers

  /** Every request that Run or a drain received is answered once, and every answer finds
  room: a sent request without an answer is still in the channel or in Run's hands. */
  lemma OneAnswerPerRequest(table: Table, events: seq<Event>, c: CallerId)
    requires ShownEdges(table) && IsRun(table, Initial(), events)
    ensures var s := Reach(table, Initial(), events);
      && !s.misdirected
      && (Unanswered(s, c) <==> Buffered(s, c) || InHand(s.pc, c))
      && !(Buffered(s, c) && InHand(s.pc, c))
  {
    ReachableInv(table, events);
  }

  /** Once Run is over a sent request lacks its answer exactly when it is still buffered;
  when the last drain ends there is none. */
  lemma LastDrainAnswersAll(table: Table, events: seq<Event>, c: CallerId)
    requires ShownEdges(table) && IsRun(table, Initial(), events)
    ensures var s := Reach(table, Initial(), events);
      && (s.pc.Over? ==> (Unanswered(s, c) <==> Buffered(s, c)))
      && (s.pc == Draining(Final) && s.reloadCh.None? ==>
            Apply(table, s, Proceed).pc.Over? && !Unanswered(Apply(table, s, Proceed), c))
  {
    ReachableInv(table, events);
    var s := Reach(table, Initial(), events);
    assert Unanswered(s, c) <==> Buffered(s, c) || InHand(s.pc, c);
  }

  lemma AdvanceKeepsAnswers(table: Table, s: State)
    requires RequestInv(s) && CanAdvance(s)
    ensures AnswersStay(s.callers, Advance(table, s).callers)
  {
    if s.pc.Replying? {
      assert InHand(s.pc, s.pc.caller) && Unanswered(s, s.pc.caller);
    } else if Plain(s.pc) {
      PlainStep(table, s);
    }
  }

  lemma {:induction false} AnswersStayGiven(table: Table, s: State, events: seq<Event>, c: CallerId, reply: Reply)
    requires ShownEdges(table) && Inv(s) && IsRun(table, s, events) && Got(s.callers, c, reply)
    ensures Got(Reach(table, s, events).callers, c, reply)
    decreases |events|
  {
    if events != [] {
      var e := events[0];
      StepKeepsInv(table, s, e);
      if e.Proceed? {
        AdvanceKeepsAnswers(table, s);
      } else if CallerEnabled(s, e) {
        CallersKeepAnswers(table, s, e);
      }
      AnswersStayGiven(table, Apply(table, s, e), events[1..], c, reply);
    }
  }

  /** The answer that Run is about to give is the one its caller gets, whatever follows. */
  lemma AnswerReachesItsCaller(table: Table, s: State, events: seq<Event>)
    requires ShownEdges(table) && Inv(s) && s.pc.Replying? && IsRun(table, Advance(table, s), events)
    ensures Got(Reach(table, Advance(table, s), events).callers, s.pc.caller, s.pc.reply)
  {
    StepKeepsInv(table, s, Proceed);
    assert InHand(s.pc, s.pc.caller) && Unanswered(s, s.pc.caller);
    AnswersStayGiven(table, Advance(table, s), events, s.pc.caller, s.pc.reply);
  }

  /** A request buffered after the last drain is never answered: its caller waits forever. */
  lemma {:induction false} LateRequestWaitsForever(table: Table, s: State, events: seq<Event>, c: CallerId)
    requires RequestInv(s) && IsRun(table, s, events)
    requires s.pc.Over? && Buffered(s, c)
    ensures var t := Reach(table, s, events); Unanswered(t, c) && t.pc.Over?
    decreases |events|
  {
    if events != [] {
      var t := Apply(table, s, events[0]);
      assert Buffered(t, c) && Unanswered(t, c) && t.pc.Over?;
      OverKeepsRequests(table, s, events[0]);
      LateRequestWaitsForever(table, t, events[1..], c);
    }
  }

  lemma OverKeepsRequests(table: Table, s: State, e: Event)
    requires RequestInv(s) && s.pc.Over? && s.reloadCh.Some? && Enabled(s, e)
    ensures RequestInv(Apply(table, s, e))
  {
    var t := Apply(table, s, e);
    forall c: CallerId ensures Unanswered(t, c) <==> Buffered(t, c) || InHand(t.pc, c) {
      assert Unanswered(s, c) <==> Buffered(s, c) || InHand(s.pc, c);
    }
  }

  ghost predicate Leads(table: Table, events: seq<Event>, s: State) {
    IsRun(table, Initial(), events) && Reach(table, Initial(), events) == s
  }

  lemma Then(table: Table, events: seq<Event>, s: State, e: Event, t: State) returns (more: seq<Event>)
    requires Leads(table, events, s) && Enabled(s, e) && Apply(table, s, e) == t
    ensures Leads(table, more, t)
  {
    OneMoreStep(table, Initial(), events, e);
    more := events + [e];
  }

  /** Caller 7 holds the gate with its configuration in hand, and Run stands at `pc`. */
  function HeldAt(status: Status, pc: Pc): State {
    State(status, map[7 := Ready([])], None, None, Some([]), None, 0, {}, pc, Some(7), false, None, false)
  }

  lemma RunningOnNothing(table: Table) returns (events: seq<Event>)
    requires ShownEdges(table)
    ensures Leads(table, events, HeldAt(Reloading, Waiting).(status := Running, callers := map[], gate := None))
  {
    var s := Initial();
    var s1 := Apply(table, s, Begin);
    events := Then(table, [], s, Begin, s1);
    var s2 := Apply(table, s1, FirstBoot(Some([])));
    events := Then(table, events, s1, FirstBoot(Some([])), s2);
    events := Then(table, events, s2, Proceed, s2.(status := Running, pc := Waiting));
  }

  lemma HeldWhileWaiting(table: Table) returns (events: seq<Event>)
    requires ShownEdges(table)
    ensures Leads(table, events, HeldAt(Reloading, Waiting))
  {
    events := RunningOnNothing(table);
    var s := HeldAt(Reloading, Waiting).(status := Running, callers := map[], gate := None);
    var t := ApplyCall(table, s, 7, false);
    events := Then(table, events, s, Call(7, false), t);
    events := Then(table, events, t, Callback(7, Some([])), HeldAt(Reloading, Waiting));
  }

  lemma HeldUntilRefused(table: Table) returns (events: seq<Event>)
    requires ShownEdges(table)
    ensures Leads(table, events, HeldAt(Reloading, Refused))
  {
    events := HeldWhileWaiting(table);
    events := Then(table, events, HeldAt(Reloading, Waiting), Leave, HeldAt(Reloading, Draining(Graceful)));
    events := Then(table, events, HeldAt(Reloading, Draining(Graceful)), Proceed, HeldAt(Reloading, ToStopping));
    events := Then(table, events, HeldAt(Reloading, ToStopping), Proceed, HeldAt(Reloading, StoppingAll));
    events := Then(table, events, HeldAt(Reloading, StoppingAll), Proceed, HeldAt(Reloading, ToStopped));
    events := Then(table, events, HeldAt(Reloading, ToStopped), Proceed, HeldAt(Reloading, Refused));
  }

  /** A caller is admitted, and Run is told to leave before the caller sends: the gate is held
  through the whole shutdown, which ends in Error and not in Stopped. */
  lemma ShutdownCanEndInError(table: Table) returns (events: seq<Event>)
    requires ShownEdges(table)
    ensures Leads(table, events, HeldAt(Error, Over))
  {
    events := HeldUntilRefused(table);
    events := Then(table, events, HeldAt(Reloading, Refused), Proceed, HeldAt(Error, Closing));
    events := Then(table, events, HeldAt(Error, Closing), Proceed, HeldAt(Error, Draining(Final)));
    events := Then(table, events, HeldAt(Error, Draining(Final)), Proceed, HeldAt(Error, Over));
  }

  /** The select of dispatchReload may then still pick the send, after the last drain. */
  lemma RequestCanComeTooLate(table: Table) returns (events: seq<Event>)
    requires ShownEdges(table)
    ensures IsRun(table, Initial(), events)
    ensures var s := Reach(table, Initial(), events);
      s.pc.Over? && DoneClosed(s.pc) && Buffered(s, 7) && Unanswered(s, 7)
  {
    events := ShutdownCanEndInError(table);
    events := Then(table, events, HeldAt(Error, Over), Send(7), ApplySend(HeldAt(Error, Over), 7));
  }

  // ---------------------------------------------------------------- shutdown

  /** Once Stopping is reached, Stopped follows whatever the callers do. */
  lemma {:induction false} StoppingEndsStopped(table: Table, s: State, events: seq<Event>)
    requires ShownEdges(table) && Inv(s) && IsRun(table, s, events)
    requires s.status == Stopping
    ensures var t := Reach(table, s, events);
      if Doomed(t.pc) then t.status == Stopped else t.status == Stopping
    decreases |events|
  {
    if events != [] {
      var e := events[0];
      StepKeepsInv(table, s, e);
      if e.Abort? || e.Callback? { assert Holds(s, e.c); }
      var t := Apply(table, s, e);
      assert t.status == Stopping || (t.status == Stopped && Doomed(t.pc));
      if t.status == Stopping {
        StoppingEndsStopped(table, t, events[1..]);
      } else {
        FinalStatusStays(table, t, events[1..]);
      }
    }
  }

  /** Past Run's last transition the status is Error or Stopped and never changes again. */
  lemma {:induction false} FinalStatusStays(table: Table, s: State, events: seq<Event>)
    requires ShownEdges(table) && Inv(s) && IsRun(table, s, events)
    requires Doomed(s.pc)
    ensures var t := Reach(table, s, events);
      Doomed(t.pc) && t.status == s.status && (t.status == Error || t.status == Stopped)
    decreases |events|
  {
    if events != [] {
      StepKeepsInv(table, s, events[0]);
      DoomedStep(table, s, events[0]);
      FinalStatusStays(table, Apply(table, s, events[0]), events[1..]);
    }
  }

  lemma DoomedStep(table: Table, s: State, e: Event)
    requires ShownEdges(table) && TokenInv(s) && GateInv(s) && Enabled(s, e) && Doomed(s.pc)
    ensures Doomed(Apply(table, s, e).pc) && Apply(table, s, e).status == s.status
  {
    if e.Abort? || e.Callback? { assert Holds(s, e.c); }
  }

  /** The status that the transition to Stopped finds, or the latest one if it is yet to come. */
  function Found(table: Table, s: State, events: seq<Event>): Status
    requires IsRun(table, s, events)
    decreases |events|
  {
    if events == [] || (s.pc.ToStopped? && events[0].Proceed?) then s.status
    else Found(table, Apply(table, s, events[0]), events[1..])
  }

  predicate NearlyStopped(pc: Pc) { pc.StoppingAll? || pc.ToStopped? }

  /** Stopped if the table allows it, and Error otherwise. */
  function StoppedOrError(table: Table, found: Status): Status {
    if (found, Stopped) in table then Stopped else Error
  }

  /** A step near the end: not yet the last transition, or the transition, legal or refused. */
  lemma LastStep(table: Table, s: State, e: Event)
    requires Enabled(s, e) && NearlyStopped(s.pc) && (Configured(s.pc) ==> s.config.Some?)
    ensures var t := Apply(table, s, e);
      if s.pc.ToStopped? && e.Proceed?
      then if (s.status, Stopped) in table then Doomed(t.pc) && t.status == Stopped else t.pc.Refused?
      else NearlyStopped(t.pc)
  {}

  lemma RefusedStep(table: Table, s: State, e: Event)
    requires Enabled(s, e) && s.pc.Refused?
    ensures var t := Apply(table, s, e); t.pc.Refused? || (Doomed(t.pc) && t.status == Error)
  {}

  /** Run ends Stopped exactly when the status found by the last transition allows it. */
  lemma {:induction false} LastTransitionDecides(table: Table, s: State, events: seq<Event>)
    requires ShownEdges(table) && Inv(s) && NearlyStopped(s.pc)
    requires IsRun(table, s, events) && Doomed(Reach(table, s, events).pc)
    ensures Reach(table, s, events).status == StoppedOrError(table, Found(table, s, events))
    decreases |events|
  {
    var e, t := events[0], Apply(table, s, events[0]);
    StepKeepsInv(table, s, e);
    LastStep(table, s, e);
    if NearlyStopped(t.pc) {
      LastTransitionDecides(table, t, events[1..]);
    } else if t.pc.Refused? {
      RefusalEndsInError(table, t, events[1..]);
    } else {
      FinalStatusStays(table, t, events[1..]);
    }
  }

  lemma {:induction false} RefusalEndsInError(table: Table, s: State, events: seq<Event>)
    requires ShownEdges(table) && Inv(s) && s.pc.Refused?
    requires IsRun(table, s, events) && Doomed(Reach(table, s, events).pc)
    ensures Reach(table, s, events).status == Error
    decreases |events|
  {
    var t := Apply(table, s, events[0]);
    StepKeepsInv(table, s, events[0]);
    RefusedStep(table, s, events[0]);
    if t.pc.Refused? {
      RefusalEndsInError(table, t, events[1..]);
    } else {
      FinalStatusStays(table, t, events[1..]);
    }
  }

  /** Once the gate is free and the status is not Running, callers cannot change it; while the
  gate is taken, they can free it or fail, but they cannot reach Stopping. */
  lemma {:induction false} WhatIsFound(table: Table, s: State, events: seq<Event>)
    requires ShownEdges(table) && Inv(s) && NearlyStopped(s.pc) && IsRun(table, s, events)
    requires Doomed(Reach(table, s, events).pc)
    ensures s.status == Stopping || s.status == Error ==> Found(table, s, events) == s.status
    ensures s.status != Stopping ==> Busy(Found(table, s, events))
    decreases |events|
  {
    if !(s.pc.ToStopped? && events[0].Proceed?) {
      StepKeepsInv(table, s, events[0]);
      NearlyStoppedStep(table, s, events[0]);
      WhatIsFound(table, Apply(table, s, events[0]), events[1..]);
    }
  }

  lemma NearlyStoppedStep(table: Table, s: State, e: Event)
    requires ShownEdges(table) && TokenInv(s) && GateInv(s) && Enabled(s, e) && s.config.Some?
    requires NearlyStopped(s.pc) && !(s.pc.ToStopped? && e.Proceed?)
    ensures var t := Apply(table, s, e);
      && NearlyStopped(t.pc)
      && (s.status == Stopping || s.status == Error ==> t.status == s.status)
      && (s.status != Stopping ==> t.status != Stopping)
  {
    if e.Abort? || e.Callback? { assert Holds(s, e.c); }
  }

  /** What a graceful shutdown ends in, over everything that callers may do after the attempt
  to reach Stopping: Stopped exactly when the last transition is legal. A free gate and no
  failure at the attempt are enough for that; an earlier failure leaves it to the edge from
  Error. If neither Running nor Error leads to Stopped directly, the runner ends Stopped
  exactly when the gate was free and no reload had failed. */
  lemma ShutdownEndsStoppedExactlyWhen(table: Table, s: State, events: seq<Event>)
    requires ShownEdges(table) && Inv(s) && s.pc.ToStopping?
    requires IsRun(table, Advance(table, s), events) && Doomed(Reach(table, Advance(table, s), events).pc)
    ensures var final := Reach(table, Advance(table, s), events).status;
      && (final == Stopped || final == Error)
      && (final == Stopped <==> (Found(table, Advance(table, s), events), Stopped) in table)
      && (s.gate.None? && s.status != Error ==> final == Stopped)
      && (s.status == Error ==> (final == Stopped <==> (Error, Stopped) in table))
      && ((Running, Stopped) !in table && (Error, Stopped) !in table ==>
            (final == Stopped <==> s.gate.None? && s.status != Error))
  {
    StepKeepsInv(table, s, Proceed);
    LastTransitionDecides(table, Advance(table, s), events);
    WhatIsFound(table, Advance(table, s), events);
  }

  /** No child outlives Run. */
  lemma NoChildOutlivesRun(table: Table, events: seq<Event>)
    requires ShownEdges(table) && IsRun(table, Initial(), events)
    ensures var s := Reach(table, Initial(), events); s.pc.Over? ==> s.running == {}
  {
    ReachableInv(table, events);
  }

  // ---------------------------------------------------------------- generations

  /** Only children of the current generation run, only their errors are queued, and only
  such an error ends Run. */
  lemma GenerationsAreIsolated(table: Table, events: seq<Event>)
    requires ShownEdges(table) && IsRun(table, Initial(), events)
    ensures var s := Reach(table, Initial(), events);
      && (forall child :: child in s.running ==> OfCurrent(s, child) && Listed(s, child))
      && (s.serverErrors.Some? ==> OfCurrent(s, s.serverErrors.value))
      && (s.endedBy.Some? ==> OfCurrent(s, s.endedBy.value))
  {
    ReachableInv(table, events);
  }

  /** A child of a generation that has been replaced, even by an empty one. */
  predicate Replaced(s: State, child: Child) {
    child.gen < s.nextGen && !OfCurrent(s, child)
  }

  /** Whatever reloads follow, the failure of a replaced child never ends Run. */
  lemma {:induction false} ReplacedChildNeverEndsRun(table: Table, s: State, events: seq<Event>, child: Child)
    requires ShownEdges(table) && Inv(s) && IsRun(table, s, events)
    requires Replaced(s, child)
    ensures var t := Reach(table, s, events);
      Replaced(t, child) && t.endedBy != Some(child) && t.serverErrors != Some(child) && child !in t.running
    decreases |events|
  {
    if events != [] {
      StepKeepsInv(table, s, events[0]);
      ReplacedStaysReplaced(table, s, events[0], child);
      ReplacedChildNeverEndsRun(table, Apply(table, s, events[0]), events[1..], child);
    }
  }

  lemma ReplacedStaysReplaced(table: Table, s: State, e: Event, child: Child)
    requires Enabled(s, e) && Replaced(s, child)
    ensures Replaced(Apply(table, s, e), child)
  {}

  /** The error is still queued, or it ended Run, or the generation it came from has been or
  is just being replaced. */
  predicate Accounted(s: State, child: Child) {
    && child.gen < s.nextGen
    && (|| s.serverErrors == Some(child) || s.endedBy == Some(child) || Replaced(s, child)
        || (s.pc.Handling? && (s.pc.work.StoreConfig? || s.pc.work.BootNew?)))
  }

  lemma AccountedStep(table: Table, s: State, e: Event, child: Child)
    requires PhaseInv(s) && Enabled(s, e) && Accounted(s, child)
    ensures Accounted(Apply(table, s, e), child)
  {
    if e.Proceed? { AccountedAdvance(table, s, child); }
  }

  lemma AccountedAdvance(table: Table, s: State, child: Child)
    requires CanAdvance(s) && Accounted(s, child)
    ensures Accounted(Advance(table, s), child)
  {
    if Plain(s.pc) { PlainStep(table, s); }
  }

  lemma {:induction false} AccountedOn(table: Table, s: State, events: seq<Event>, child: Child)
    requires ShownEdges(table) && Inv(s) && IsRun(table, s, events) && Accounted(s, child)
    ensures Accounted(Reach(table, s, events), child)
    decreases |events|
  {
    if events != [] {
      StepKeepsInv(table, s, events[0]);
      AccountedStep(table, s, events[0], child);
      AccountedOn(table, Apply(table, s, events[0]), events[1..], child);
    }
  }

  /** No failure goes unnoticed: when a child fails, its error or one that was queued before
  it stays queued until it ends Run or its generation is replaced. */
  lemma FailureIsNotLost(table: Table, s: State, child: Child, events: seq<Event>)
    requires ShownEdges(table) && Inv(s) && child in s.running
    requires IsRun(table, Apply(table, s, ChildExits(child, true)), events)
    ensures Accounted(Reach(table, Apply(table, s, ChildExits(child, true)), events),
                      if s.serverErrors.Some? then s.serverErrors.value else child)
  {
    StepKeepsInv(table, s, ChildExits(child, true));
    assert OfCurrent(s, child);
    AccountedOn(table, Apply(table, s, ChildExits(child, true)), events,
                if s.serverErrors.Some? then s.serverErrors.value else child);
  }

  // ---------------------------------------------------------------- what a reload achieves

  /** A reload that replaces the children leaves exactly one child per new entry running,
  all of a new generation, and no error of the old one. */
  lemma ReplacementIsComplete(table: Table, s: State)
    requires Inv(s) && s.pc.Handling? && s.pc.work.BootNew?
    ensures var t := Advance(table, s);
      && t.config == Some(s.pc.cfg) && t.serverErrors.None?
      && (forall child: Child :: child in t.running <==> child.gen == s.nextGen && child.index < |s.pc.cfg|)
      && (forall child :: child in t.running ==> Some(child.gen) != s.gen)
  {}

  /** The children are replaced exactly when the new list has another length or a name that
  the current one lacks, and reloaded in place otherwise. */
  lemma ReplacesExactlyWhen(table: Table, s: State)
    requires Inv(s) && s.pc.Handling? && s.pc.work.Decide?
    ensures s.config.Some?
    ensures var t := Advance(table, s);
      && t.pc == Handling(s.pc.caller, s.pc.cfg, t.pc.work)
      && (t.pc.work.ReloadInPlace? <==>
            && |s.config.value| == |s.pc.cfg|
            && SetOf(NamesIn(s.pc.cfg)) <= SetOf(NamesIn(s.config.value)))
      && (!t.pc.work.ReloadInPlace? ==> t.pc.work.StopOld?)
  {
    ChangedInGeneral(s.config.value, s.pc.cfg);
  }

  /** A reload in place starts and stops nobody, and with distinct names the entries are a
  permutation of the old ones. */
  lemma InPlaceKeepsMembership(table: Table, s: State, reply: Reply)
    requires Inv(s) && Enabled(s, InPlace(reply))
    ensures var t := Apply(table, s, InPlace(reply));
      && t.running == s.running && t.gen == s.gen && t.config == Some(s.pc.cfg) && s.config.Some?
      && (Distinct(NamesIn(s.pc.cfg)) ==> multiset(NamesIn(s.config.value)) == multiset(NamesIn(s.pc.cfg)))
  {
    if Distinct(NamesIn(s.pc.cfg)) { UnchangedExactlyWhenPermuted(s.config.value, s.pc.cfg); }
  }

  lemma Conclusion(table: Table, s: State)
    requires ShownEdges(table) && s.pc.Handling? && s.pc.work.Finish? && !s.pc.work.reply.Abandoned?
    requires s.status == Reloading && s.gate == Some(s.pc.caller)
    ensures var reply := s.pc.work.reply;
      AdvanceReload(table, s) == s.(status := if reply.ReloadFailed? then Error else Running, gate := None,
                                    pc := Replying(s.pc.caller, reply, Resume))
  {}

  /** Every reload that does not fail returns the runner to Running and is answered with its
  own result, a failed one leaves it in Error; either way the gate is free. */
  lemma ReloadConcludes(table: Table, s: State)
    requires ShownEdges(table) && Inv(s) && s.pc.Handling? && s.pc.work.Finish?
    ensures var t := Advance(table, s);
      && t.status == (if s.pc.work.reply.ReloadFailed? then Error else Running)
      && t.pc == Replying(s.pc.caller, s.pc.work.reply, Resume)
      && t.gate.None?
  {
    assert Holds(s, s.pc.caller);
  }
}
