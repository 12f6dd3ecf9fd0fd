/** What every step of the composite runner keeps. */
module CompositeSafety {
  import opened Wrappers
  import opened Fsm
  import opened Membership
  import opened Composite

  // ---------------------------------------------------------------- the reload gate

  /** The four places where the right to be reloading can be. */
  predicate Holds(s: State, c: CallerId) {
    || (c in s.callers && (s.callers[c].Admitted? || s.callers[c].Ready?))
    || (s.reloadCh.Some? && s.reloadCh.value.caller == c)
    || (s.pc.Handling? && s.pc.caller == c)
    || (s.pc.Releasing? && s.pc.caller == c)
  }

  ghost predicate TokenInv(s: State) {
    forall c: CallerId :: Holds(s, c) <==> s.gate == Some(c)
  }

  /** Run is past its last transition: the status is final. */
  predicate Doomed(pc: Pc) {
    match pc
    case Draining(exit) => exit != Graceful
    case Releasing(_, exit) => exit != Graceful
    case Replying(_, _, next) => next.Drain? && next.exit != Graceful
    case StoppingAfterFailure | Closing | Over => true
    case _ => false
  }

  predicate Busy(status: Status) { status == Running || status == Reloading || status == Error }

  predicate StatusFits(status: Status, pc: Pc) {
    match pc
    case NotStarted => status == New
    case Loading | BootFailed | Announcing => status == Booting
    case StoppingAll | ToStopped => Busy(status) || status == Stopping
    case _ => if Doomed(pc) then status == Error || status == Stopped else Busy(status)
  }

  ghost predicate GateInv(s: State) {
    && StatusFits(s.status, s.pc)
    && (s.gate.Some? ==> s.status == if Doomed(s.pc) then Error else Reloading)
    && (s.gate.None? ==> s.status != Reloading)
    && (forall c :: c in s.callers && s.callers[c].Aborting? ==> Doomed(s.pc) && s.status == Error)
  }

  // ---------------------------------------------------------------- requests

  /** Run has received this request and not answered it yet. */
  predicate InHand(pc: Pc, c: CallerId) {
    (pc.Handling? || pc.Replying? || pc.Releasing?) && pc.caller == c
  }

  predicate Unanswered(s: State, c: CallerId) {
    c in s.callers && s.callers[c].Sent? && s.callers[c].reply.None?
  }

  predicate Buffered(s: State, c: CallerId) {
    s.reloadCh.Some? && s.reloadCh.value.caller == c
  }

  ghost predicate RequestInv(s: State) {
    && !s.misdirected
    && (forall c: CallerId :: Unanswered(s, c) <==> Buffered(s, c) || InHand(s.pc, c))
    && (s.reloadCh.Some? ==>
          && !InHand(s.pc, s.reloadCh.value.caller)
          && Unanswered(s, s.reloadCh.value.caller)
          && s.callers[s.reloadCh.value.caller].cfg == s.reloadCh.value.cfg)
    && (s.pc.Handling? ==> Unanswered(s, s.pc.caller) && s.callers[s.pc.caller].cfg == s.pc.cfg)
  }

  // ---------------------------------------------------------------- generations

  /** No child runs: before the first boot, between stopping and booting, after stopping. */
  predicate Quiet(pc: Pc) {
    match pc
    case NotStarted | Loading | BootFailed => true
    case Handling(_, _, work) => work.DiscardError? || work.StoreConfig? || work.BootNew?
    case ToStopped | Refused | Closing | Over => true
    case Draining(exit) => exit == Final
    case Releasing(_, exit) => exit == Final
    case Replying(_, _, next) => next == Drain(Final)
    case _ => false
  }

  /** Between boots the channel is empty, and a boot error ends Run before there is one. */
  predicate NoErrorYet(pc: Pc) {
    match pc
    case NotStarted | Loading | BootFailed => true
    case Handling(_, _, work) => work.StoreConfig? || work.BootNew?
    case _ => false
  }

  predicate Configured(pc: Pc) {
    match pc
    case NotStarted | Loading | BootFailed => false
    case _ => !Doomed(pc)
  }

  predicate OfCurrent(s: State, child: Child) {
    s.launched && s.gen == Some(child.gen)
  }

  predicate Listed(s: State, child: Child) {
    s.config.Some? && child.index < |s.config.value|
  }

  ghost predicate ChildInv(s: State) {
    && (forall child :: child in s.running ==> OfCurrent(s, child) && Listed(s, child))
    && (s.serverErrors.Some? ==> OfCurrent(s, s.serverErrors.value))
    && (s.endedBy.Some? ==> OfCurrent(s, s.endedBy.value))
    && (s.gen.Some? ==> s.gen.value < s.nextGen)
  }

  predicate PhaseInv(s: State) {
    && (s.endedBy.Some? ==> s.pc.ChildFailed? || Doomed(s.pc))
    && (Quiet(s.pc) ==> s.running == {})
    && (NoErrorYet(s.pc) ==> s.serverErrors.None?)
  }

  ghost predicate ConfigInv(s: State) {
    && (Configured(s.pc) ==> s.config.Some?)
    && (s.pc.NotStarted? || s.pc.Loading? ==> s.config.None?)
    && (s.pc.Handling? && s.pc.work.ReloadInPlace? && s.config.Some? ==> !Changed(s.config.value, s.pc.cfg))
    && (s.pc.Handling? && (s.pc.work.BootNew? || (s.pc.work.Finish? && s.pc.work.reply.Reloaded?)) ==>
          s.config == Some(s.pc.cfg))
    && (s.pc.Handling? && s.pc.work.Finish? ==> !s.pc.work.reply.Abandoned?)
  }

  ghost predicate Inv(s: State) {
    TokenInv(s) && GateInv(s) && RequestInv(s) && ChildInv(s) && PhaseInv(s) && ConfigInv(s)
  }

  // ---------------------------------------------------------------- preservation

  lemma CallerKeepsToken(table: Table, s: State, e: Event)
    requires TokenInv(s) && RequestInv(s) && CallerEnabled(s, e)
    requires e.Call? ==> s.status == Running ==> s.gate.None?
    ensures TokenInv(ApplyCaller(table, s, e))
  {
    var t := ApplyCaller(table, s, e);
    assert Holds(s, e.c) <==> s.gate == Some(e.c);
    assert Unanswered(s, e.c) <==> Buffered(s, e.c) || InHand(s.pc, e.c);
    forall c: CallerId ensures Holds(t, c) <==> t.gate == Some(c) {
      assert Holds(s, c) <==> s.gate == Some(c);
    }
  }

  /** A plain step moves Run and may change the status, and that is all. */
  lemma PlainStep(table: Table, s: State)
    requires CanAdvance(s) && Plain(s.pc)
    ensures var t := AdvancePlain(table, s);
      t == s.(status := t.status, pc := t.pc) && (Plain(t.pc) || t.pc.Draining?)
  {}

  /** The gate's places are the same, or the holder has lost its place and the gate. */
  lemma SamePlacesKeepToken(s: State, t: State)
    requires TokenInv(s) && t.gate == s.gate
    requires forall c: CallerId :: Holds(t, c) <==> Holds(s, c)
    ensures TokenInv(t)
  {}

  lemma PlainKeepsToken(table: Table, s: State)
    requires TokenInv(s) && CanAdvance(s) && Plain(s.pc)
    ensures TokenInv(AdvancePlain(table, s))
  {
    PlainStep(table, s);
    SamePlacesKeepToken(s, AdvancePlain(table, s));
  }

  lemma ReloadKeepsToken(table: Table, s: State)
    requires TokenInv(s) && RequestInv(s) && s.pc.Handling?
    ensures TokenInv(AdvanceReload(table, s))
  {
    var t := AdvanceReload(table, s);
    assert Holds(s, s.pc.caller);
    forall c: CallerId ensures Holds(t, c) <==> t.gate == Some(c) {
      assert Holds(s, c) <==> s.gate == Some(c);
      if c == s.pc.caller { assert Unanswered(s, c); }
    }
  }

  lemma ReplyKeepsToken(s: State)
    requires TokenInv(s) && s.pc.Replying?
    ensures TokenInv(ApplyReply(s))
  {
    SamePlacesKeepToken(s, ApplyReply(s));
  }

  lemma DrainKeepsToken(s: State)
    requires TokenInv(s) && s.pc.Draining?
    ensures TokenInv(ApplyDrain(s))
  {
    SamePlacesKeepToken(s, ApplyDrain(s));
  }

  lemma ReleaseKeepsToken(table: Table, s: State)
    requires TokenInv(s) && RequestInv(s) && s.pc.Releasing?
    ensures TokenInv(ApplyRelease(table, s))
  {
    var t := ApplyRelease(table, s);
    assert Holds(s, s.pc.caller);
    assert InHand(s.pc, s.pc.caller) && Unanswered(s, s.pc.caller);
    forall c: CallerId ensures Holds(t, c) <==> t.gate == Some(c) {
      assert Holds(s, c) <==> s.gate == Some(c);
    }
  }

  lemma AdvanceKeepsToken(table: Table, s: State)
    requires TokenInv(s) && RequestInv(s) && CanAdvance(s)
    ensures TokenInv(Advance(table, s))
  {
    if s.pc.Handling? {
      ReloadKeepsToken(table, s);
    } else if s.pc.Replying? {
      ReplyKeepsToken(s);
    } else if s.pc.Draining? {
      DrainKeepsToken(s);
    } else if s.pc.Releasing? {
      ReleaseKeepsToken(table, s);
    } else {
      PlainKeepsToken(table, s);
    }
  }

  lemma StepKeepsToken(table: Table, s: State, e: Event)
    requires TokenInv(s) && GateInv(s) && RequestInv(s) && Enabled(s, e)
    ensures TokenInv(Apply(table, s, e))
  {
    if CallerEnabled(s, e) {
      CallerKeepsToken(table, s, e);
    } else if e.Proceed? {
      AdvanceKeepsToken(table, s);
    } else {
      var t := Apply(table, s, e);
      forall c: CallerId ensures Holds(t, c) <==> t.gate == Some(c) {
        assert Holds(s, c) <==> s.gate == Some(c);
      }
    }
  }

  lemma CallerKeepsGate(table: Table, s: State, e: Event)
    requires ShownEdges(table) && TokenInv(s) && GateInv(s) && CallerEnabled(s, e)
    ensures GateInv(ApplyCaller(table, s, e))
  {
    assert Holds(s, e.c) <==> s.gate == Some(e.c);
  }

  lemma ReloadKeepsGate(table: Table, s: State)
    requires ShownEdges(table) && TokenInv(s) && GateInv(s) && ConfigInv(s)
    requires s.pc.Handling? && !s.pc.work.ReloadInPlace?
    ensures GateInv(AdvanceReload(table, s))
  {
    assert Holds(s, s.pc.caller);
  }

  /** The gate and the status stay as they are, but Run may have come closer to its end. */
  lemma MovingOnKeepsGate(s: State, t: State)
    requires GateInv(s)
    requires t.status == s.status && t.gate == s.gate && t.callers == s.callers
    requires Doomed(s.pc) <==> Doomed(t.pc)
    requires StatusFits(s.status, t.pc)
    ensures GateInv(t)
  {}

  lemma ReleaseKeepsGate(table: Table, s: State)
    requires ShownEdges(table) && TokenInv(s) && GateInv(s) && s.pc.Releasing?
    ensures GateInv(ApplyRelease(table, s))
  {
    assert Holds(s, s.pc.caller);
  }

  lemma ReplyKeepsGate(s: State)
    requires GateInv(s) && s.pc.Replying?
    ensures GateInv(ApplyReply(s))
  {}

  lemma PlainKeepsGate(table: Table, s: State)
    requires ShownEdges(table) && GateInv(s) && CanAdvance(s) && Plain(s.pc)
    requires Configured(s.pc) ==> s.config.Some?
    ensures GateInv(AdvancePlain(table, s))
  {
    PlainStep(table, s);
  }

  lemma AdvanceKeepsGate(table: Table, s: State)
    requires ShownEdges(table) && TokenInv(s) && GateInv(s) && ConfigInv(s) && CanAdvance(s)
    ensures GateInv(Advance(table, s))
  {
    if s.pc.Handling? {
      ReloadKeepsGate(table, s);
    } else if s.pc.Replying? {
      ReplyKeepsGate(s);
    } else if s.pc.Draining? {
      MovingOnKeepsGate(s, ApplyDrain(s));
    } else if s.pc.Releasing? {
      ReleaseKeepsGate(table, s);
    } else {
      PlainKeepsGate(table, s);
    }
  }

  lemma StepKeepsGate(table: Table, s: State, e: Event)
    requires ShownEdges(table) && TokenInv(s) && GateInv(s) && ConfigInv(s) && Enabled(s, e)
    ensures GateInv(Apply(table, s, e))
  {
    if CallerEnabled(s, e) {
      CallerKeepsGate(table, s, e);
    } else if e.Proceed? {
      AdvanceKeepsGate(table, s);
    }
  }

  lemma CallerKeepsRequests(table: Table, s: State, e: Event)
    requires TokenInv(s) && RequestInv(s) && CallerEnabled(s, e)
    ensures RequestInv(ApplyCaller(table, s, e))
  {
    var t := ApplyCaller(table, s, e);
    assert Unanswered(s, e.c) <==> Buffered(s, e.c) || InHand(s.pc, e.c);
    forall c: CallerId ensures Unanswered(t, c) <==> Buffered(t, c) || InHand(t.pc, c) {
      assert Unanswered(s, c) <==> Buffered(s, c) || InHand(s.pc, c);
    }
  }

  /** Nothing about requests changes. */
  lemma SameRequests(s: State, t: State)
    requires RequestInv(s)
    requires t.callers == s.callers && t.reloadCh == s.reloadCh && t.misdirected == s.misdirected
    requires forall c: CallerId :: InHand(t.pc, c) <==> InHand(s.pc, c)
    requires t.pc.Handling? ==> s.pc.Handling? && t.pc.caller == s.pc.caller && t.pc.cfg == s.pc.cfg
    ensures RequestInv(t)
  {
    forall c: CallerId ensures Unanswered(t, c) <==> Buffered(t, c) || InHand(t.pc, c) {
      assert Unanswered(s, c) <==> Buffered(s, c) || InHand(s.pc, c);
    }
  }

  lemma ReplyKeepsRequests(s: State)
    requires RequestInv(s) && s.pc.Replying?
    ensures RequestInv(ApplyReply(s))
  {
    var t := ApplyReply(s);
    assert InHand(s.pc, s.pc.caller) && Unanswered(s, s.pc.caller);
    forall c: CallerId ensures Unanswered(t, c) <==> Buffered(t, c) || InHand(t.pc, c) {
      assert Unanswered(s, c) <==> Buffered(s, c) || InHand(s.pc, c);
    }
  }

  lemma DrainKeepsRequests(s: State)
    requires RequestInv(s) && s.pc.Draining?
    ensures RequestInv(ApplyDrain(s))
  {
    var t := ApplyDrain(s);
    forall c: CallerId ensures Unanswered(t, c) <==> Buffered(t, c) || InHand(t.pc, c) {
      assert Unanswered(s, c) <==> Buffered(s, c) || InHand(s.pc, c);
    }
  }

  lemma AdvanceKeepsRequests(table: Table, s: State)
    requires RequestInv(s) && CanAdvance(s)
    ensures RequestInv(Advance(table, s))
  {
    if s.pc.Handling? {
      SameRequests(s, AdvanceReload(table, s));
    } else if s.pc.Replying? {
      ReplyKeepsRequests(s);
    } else if s.pc.Draining? {
      DrainKeepsRequests(s);
    } else if s.pc.Releasing? {
      SameRequests(s, ApplyRelease(table, s));
    } else {
      PlainStep(table, s);
      SameRequests(s, AdvancePlain(table, s));
    }
  }

  lemma StepKeepsRequests(table: Table, s: State, e: Event)
    requires TokenInv(s) && RequestInv(s) && Enabled(s, e)
    ensures RequestInv(Apply(table, s, e))
  {
    if CallerEnabled(s, e) {
      CallerKeepsRequests(table, s, e);
    } else if e.Proceed? {
      AdvanceKeepsRequests(table, s);
    } else {
      var t := Apply(table, s, e);
      forall c: CallerId ensures Unanswered(t, c) <==> Buffered(t, c) || InHand(t.pc, c) {
        assert Unanswered(s, c) <==> Buffered(s, c) || InHand(s.pc, c);
      }
    }
  }

  lemma NobodyLeft(s: State)
    requires ChildInv(s) && GenerationGone(s)
    ensures s.running == {}
  {
    forall child | child in s.running ensures false { assert OfCurrent(s, child); }
  }

  lemma LaunchKeepsChildren(s: State, cfg: Config)
    requires ChildInv(s) && s.running == {} && s.serverErrors.None? && s.endedBy.None?
    requires s.config == Some(cfg)
    ensures ChildInv(Launch(s, cfg))
  {}

  /** No boot: children may leave, errors move along, and the configuration gets no shorter. */
  predicate NoBoot(s: State, t: State) {
    && t.running <= s.running && t.gen == s.gen && t.nextGen == s.nextGen && t.launched == s.launched
    && (t.serverErrors.Some? ==> t.serverErrors == s.serverErrors || t.serverErrors.value in s.running)
    && (t.endedBy.Some? ==> t.endedBy == s.endedBy || t.endedBy == s.serverErrors)
    && (s.running == {} || t.config == s.config
        || (s.config.Some? && t.config.Some? && |s.config.value| == |t.config.value|))
  }

  lemma NoBootKeepsChildren(s: State, t: State)
    requires ChildInv(s) && NoBoot(s, t)
    ensures ChildInv(t)
  {
    forall child | child in t.running ensures OfCurrent(t, child) && Listed(t, child) {
      assert OfCurrent(s, child) && Listed(s, child);
    }
    if t.serverErrors.Some? && t.serverErrors.value in s.running { assert OfCurrent(s, t.serverErrors.value); }
  }

  lemma ReloadKeepsChildren(table: Table, s: State)
    requires ChildInv(s) && PhaseInv(s) && ConfigInv(s) && s.pc.Handling?
    ensures ChildInv(AdvanceReload(table, s))
  {
    if s.pc.work.BootNew? {
      LaunchKeepsChildren(s, s.pc.cfg);
    } else {
      NoBootKeepsChildren(s, AdvanceReload(table, s));
    }
  }

  lemma AdvanceKeepsChildren(table: Table, s: State)
    requires ChildInv(s) && PhaseInv(s) && ConfigInv(s) && CanAdvance(s)
    ensures ChildInv(Advance(table, s))
  {
    if s.pc.Handling? {
      ReloadKeepsChildren(table, s);
    } else if s.pc.Replying? {
      NoBootKeepsChildren(s, ApplyReply(s));
    } else if s.pc.Draining? {
      NoBootKeepsChildren(s, ApplyDrain(s));
    } else if s.pc.Releasing? {
      NoBootKeepsChildren(s, ApplyRelease(table, s));
    } else {
      PlainStep(table, s);
      NoBootKeepsChildren(s, AdvancePlain(table, s));
    }
  }

  lemma ReloadKeepsPhase(table: Table, s: State)
    requires ChildInv(s) && PhaseInv(s) && s.pc.Handling? && CanAdvance(s)
    ensures PhaseInv(AdvanceReload(table, s))
  {
    if s.pc.work.StopOld? { NobodyLeft(s); }
  }

  /** Run moves on, and everything else that matters here stays. */
  lemma MovingOnKeepsPhase(s: State, t: State)
    requires PhaseInv(s) && t.running == s.running && t.serverErrors == s.serverErrors && t.endedBy == s.endedBy
    requires s.pc.ChildFailed? || Doomed(s.pc) ==> Doomed(t.pc)
    requires Quiet(t.pc) ==> s.running == {}
    requires NoErrorYet(t.pc) ==> s.serverErrors.None?
    ensures PhaseInv(t)
  {}

  lemma PlainKeepsPhase(table: Table, s: State)
    requires ShownEdges(table) && StatusFits(s.status, s.pc) && CanAdvance(s) && Plain(s.pc)
    requires ChildInv(s) && PhaseInv(s) && (Configured(s.pc) ==> s.config.Some?)
    ensures PhaseInv(AdvancePlain(table, s))
  {
    PlainStep(table, s);
    if s.pc.StoppingAll? || s.pc.StoppingAfterFailure? { NobodyLeft(s); }
    MovingOnKeepsPhase(s, AdvancePlain(table, s));
  }

  lemma DrainingKeepsPhase(table: Table, s: State)
    requires PhaseInv(s) && (s.pc.Draining? || s.pc.Releasing?)
    ensures PhaseInv(if s.pc.Draining? then ApplyDrain(s) else ApplyRelease(table, s))
  {
    MovingOnKeepsPhase(s, if s.pc.Draining? then ApplyDrain(s) else ApplyRelease(table, s));
  }

  lemma ReplyKeepsPhase(s: State)
    requires PhaseInv(s) && s.pc.Replying?
    ensures PhaseInv(ApplyReply(s))
  {
    MovingOnKeepsPhase(s, ApplyReply(s));
  }

  lemma AdvanceKeepsPhase(table: Table, s: State)
    requires ShownEdges(table) && StatusFits(s.status, s.pc) && CanAdvance(s)
    requires ChildInv(s) && PhaseInv(s) && (Configured(s.pc) ==> s.config.Some?)
    ensures PhaseInv(Advance(table, s))
  {
    if s.pc.Handling? {
      ReloadKeepsPhase(table, s);
    } else if s.pc.Replying? {
      ReplyKeepsPhase(s);
    } else if s.pc.Draining? || s.pc.Releasing? {
      DrainingKeepsPhase(table, s);
    } else {
      PlainKeepsPhase(table, s);
    }
  }

  lemma FirstBootKeepsChildren(s: State, loaded: Option<Config>)
    requires ChildInv(s) && PhaseInv(s) && s.pc.Loading?
    ensures ChildInv(ApplyFirstBoot(s, loaded))
  {
    var config := if s.config.Some? then s.config else loaded;
    if config.Some? { LaunchKeepsChildren(s.(config := config), config.value); }
  }

  lemma OtherKeepsChildren(table: Table, s: State, e: Event)
    requires ChildInv(s) && PhaseInv(s) && ConfigInv(s) && Enabled(s, e) && !e.Proceed? && !e.FirstBoot?
    ensures ChildInv(Apply(table, s, e))
  {
    if CallerEnabled(s, e) {
      CallerKeepsChildren(table, s, e);
    } else {
      NoBootKeepsChildren(s, Apply(table, s, e));
    }
  }

  lemma CallerKeepsChildren(table: Table, s: State, e: Event)
    requires ChildInv(s) && CallerEnabled(s, e)
    ensures ChildInv(ApplyCaller(table, s, e))
  {
    NoBootKeepsChildren(s, ApplyCaller(table, s, e));
  }

  lemma StepKeepsChildren(table: Table, s: State, e: Event)
    requires ChildInv(s) && PhaseInv(s) && ConfigInv(s) && Enabled(s, e)
    ensures ChildInv(Apply(table, s, e))
  {
    match e
    case Proceed => AdvanceKeepsChildren(table, s);
    case FirstBoot(loaded) => FirstBootKeepsChildren(s, loaded);
    case _ => OtherKeepsChildren(table, s, e);
  }

  /** Steps of others leave Run where it is and start no child. */
  lemma OthersKeepPhase(s: State, t: State)
    requires PhaseInv(s) && t.pc == s.pc && t.endedBy == s.endedBy && t.running <= s.running
    requires t.serverErrors == s.serverErrors || s.running != {}
    ensures PhaseInv(t)
  {}

  predicate RunChooses(e: Event) {
    e.Begin? || e.FirstBoot? || e.Leave? || e.TakeError? || e.TakeRequest? || e.InPlace?
  }

  lemma ChoiceKeepsPhase(table: Table, s: State, e: Event)
    requires PhaseInv(s) && Enabled(s, e) && RunChooses(e)
    ensures PhaseInv(Apply(table, s, e))
  {}

  lemma OtherKeepsPhase(table: Table, s: State, e: Event)
    requires PhaseInv(s) && Enabled(s, e) && !RunChooses(e) && !e.Proceed?
    ensures PhaseInv(Apply(table, s, e))
  {
    OthersKeepPhase(s, Apply(table, s, e));
  }

  lemma StepKeepsPhase(table: Table, s: State, e: Event)
    requires ShownEdges(table) && StatusFits(s.status, s.pc) && ChildInv(s) && PhaseInv(s) && ConfigInv(s)
    requires Enabled(s, e)
    ensures PhaseInv(Apply(table, s, e))
  {
    if e.Proceed? {
      AdvanceKeepsPhase(table, s);
    } else if RunChooses(e) {
      ChoiceKeepsPhase(table, s, e);
    } else {
      OtherKeepsPhase(table, s, e);
    }
  }

  lemma AdvanceKeepsConfig(table: Table, s: State)
    requires ConfigInv(s) && CanAdvance(s)
    ensures ConfigInv(Advance(table, s))
  {
    if Plain(s.pc) { PlainStep(table, s); }
  }

  lemma StepKeepsConfig(table: Table, s: State, e: Event)
    requires ConfigInv(s) && Enabled(s, e)
    ensures ConfigInv(Apply(table, s, e))
  {
    if e.Proceed? { AdvanceKeepsConfig(table, s); }
  }

  lemma StepKeepsInv(table: Table, s: State, e: Event)
    requires ShownEdges(table) && Inv(s) && Enabled(s, e)
    ensures Inv(Apply(table, s, e))
  {
    StepKeepsToken(table, s, e);
    StepKeepsGate(table, s, e);
    StepKeepsRequests(table, s, e);
    StepKeepsChildren(table, s, e);
    StepKeepsPhase(table, s, e);
    StepKeepsConfig(table, s, e);
  }

  lemma {:induction false} RunKeepsInv(table: Table, s: State, events: seq<Event>)
    requires ShownEdges(table) && Inv(s) && IsRun(table, s, events)
    ensures Inv(Reach(table, s, events))
    decreases |events|
  {
    if events != [] {
      StepKeepsInv(table, s, events[0]);
      RunKeepsInv(table, Apply(table, s, events[0]), events[1..]);
    }
  }
}
