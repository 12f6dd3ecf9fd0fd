/** The composite runner's code. Each method changes the runner's fields as the source does
and is proved to take steps of the transition system; `trace` is the run taken so far, so
every state of the object is a reachable state of the system. Between any two of its steps
other goroutines may take any number of theirs. */
module CompositeRunner {
  import opened Wrappers
  import opened Fsm
  import opened Membership
  import opened Composite
  import opened CompositeSafety
  import opened CompositeResults

  /** The loop of reloadSkipRestart. Every child that can take settings is handed those of its
  own new entry; the errors of the others are joined. */
  method ReloadEntries(cfg: Config, responses: seq<Response>) returns (reply: Reply, handed: seq<Option<int>>)
    requires |responses| == |cfg|
    ensures reply == Joined(responses)
    ensures reply == Reloaded <==>
      forall i :: 0 <= i < |cfg| ==> !responses[i].ReloadsBadly? && !responses[i].ReloadCut?
    ensures reply == ReloadCancelled <==> exists i :: 0 <= i < |cfg| && responses[i].ReloadCut?
    ensures |handed| == |cfg|
    ensures forall i :: 0 <= i < |cfg| ==>
      handed[i] == if responses[i].TakesSettings? then Some(cfg[i].settings) else None
  {
    var errs: seq<Response> := [];
    handed := [];
    for i := 0 to |cfg|
      invariant forall e :: e in errs <==> e in responses[..i] && (e.ReloadsBadly? || e.ReloadCut?)
      invariant |handed| == i
      invariant forall j :: 0 <= j < i ==>
        handed[j] == if responses[j].TakesSettings? then Some(cfg[j].settings) else None
    {
      var response := responses[i];
      assert responses[..i + 1] == responses[..i] + [response];
      if response.ReloadsBadly? || response.ReloadCut? { errs := errs + [response]; }
      handed := handed + [if response.TakesSettings? then Some(cfg[i].settings) else None];
    }
    assert responses[..|cfg|] == responses;
    reply := if ReloadCut in errs then ReloadCancelled else if errs != [] then ReloadFailed else Reloaded;
    assert errs != [] ==> errs[0] in errs;
  }

  class Runner {
    const table: Table
    var status: Status
    var callers: map<CallerId, Caller>     // the Reload calls: their stacks and result channels
    var reloadCh: Option<Request>
    var serverErrors: Option<Child>
    var currentConfig: Option<Config>
    var currentGen: Option<nat>
    var nextGen: nat                       // generations are numbered as they are allocated
    var running: set<Child>                // the goroutines the wait groups count
    var pc: Pc                             // where the goroutine of Run stands
    var gate: Option<CallerId>             // from here on only recorded
    var launched: bool
    var endedBy: Option<Child>
    var misdirected: bool
    var schedule: seq<seq<Event>>          // what others try at each of the coming opportunities
    ghost var trace: seq<Event>

    function Abs(): State
      reads this
    {
      State(status, callers, reloadCh, serverErrors, currentConfig, currentGen, nextGen, running,
            pc, gate, launched, endedBy, misdirected)
    }

    ghost predicate Valid()
      reads this
    {
      ShownEdges(table) && Leads(table, trace, Abs())
    }

    constructor (table: Table, schedule: seq<seq<Event>>)
      requires ShownEdges(table)
      ensures Valid() && this.table == table && this.schedule == schedule && Abs() == Initial()
    {
      this.table, this.schedule := table, schedule;
      status, callers, reloadCh, serverErrors := New, map[], None, None;
      currentConfig, currentGen, nextGen, running := None, None, 0, {};
      pc, gate, launched, endedBy, misdirected := NotStarted, None, false, None, false;
      trace := [];
    }

    lemma HasInv()
      requires Valid()
      ensures Inv(Abs())
    {
      ReachableInv(table, trace);
    }

    // What the invariant says at the places where the code relies on it.

    lemma WhenStarting()
      requires Valid() && (pc.NotStarted? || pc.Loading? || pc.BootFailed? || pc.Announcing?)
      ensures status == if pc.NotStarted? then New else Booting
      ensures pc.NotStarted? || pc.Loading? ==> running == {} && currentConfig.None?
    {
      HasInv();
    }

    lemma WhenHandling()
      requires Valid() && pc.Handling?
      ensures status == Reloading && gate == Some(pc.caller) && currentConfig.Some?
      ensures pc.work.Finish? ==> !pc.work.reply.Abandoned?
    {
      HasInv();
      assert Holds(Abs(), pc.caller);
    }

    lemma WhenBooting()
      requires Valid() && pc.Handling? && pc.work.BootNew?
      ensures running == {} && serverErrors.None? && currentConfig == Some(pc.cfg)
    {
      HasInv();
    }

    lemma WhenInHand(c: CallerId)
      requires Valid() && InHand(pc, c)
      ensures Unanswered(Abs(), c)
    {
      HasInv();
      assert Unanswered(Abs(), c) <==> Buffered(Abs(), c) || InHand(pc, c);
    }

    lemma WhenBuffered()
      requires Valid() && reloadCh.Some?
      ensures Unanswered(Abs(), reloadCh.value.caller) && callers[reloadCh.value.caller].cfg == reloadCh.value.cfg
      ensures gate == Some(reloadCh.value.caller) && status != Running
    {
      HasInv();
      assert Holds(Abs(), reloadCh.value.caller);
    }

    lemma WhenReady(c: CallerId)
      requires Valid() && c in callers && callers[c].Ready?
      ensures gate == Some(c) && reloadCh.None?
      ensures status == if Doomed(pc) then Error else Reloading
    {
      HasInv();
      assert Holds(Abs(), c);
      SendNeverWaits(Abs(), c);
    }

    lemma WhenAdmitted(c: CallerId)
      requires Valid() && c in callers && callers[c].Admitted?
      ensures gate == Some(c)
    {
      HasInv();
      assert Holds(Abs(), c);
    }

    lemma WhenAborting(c: CallerId)
      requires Valid() && c in callers && callers[c].Aborting?
      ensures Doomed(pc) && status == Error
    {
      HasInv();
    }

    lemma WhenStopping()
      requires Valid()
      ensures pc.StoppingAll? || pc.ToStopped? || pc.ToStopping? ==> currentConfig.Some?
      ensures Quiet(pc) ==> running == {}
      ensures Doomed(pc) ==> status == Error || status == Stopped
    {
      HasInv();
    }

    lemma WhenOver(c: CallerId)
      requires Valid() && pc.Over? && reloadCh.None?
      ensures !Unanswered(Abs(), c)
    {
      HasInv();
      assert Unanswered(Abs(), c) <==> Buffered(Abs(), c) || InHand(pc, c);
    }

    lemma ErrorIsCurrent()
      requires Valid()
      ensures serverErrors.Some? ==> launched && currentGen == Some(serverErrors.value.gen)
    {
      HasInv();
    }

    ghost method Took(e: Event, before: State)
      requires ShownEdges(table) && Leads(table, trace, before)
      requires Enabled(before, e) && Abs() == Apply(table, before, e)
      modifies this`trace
      ensures Valid()
    {
      OneMoreStep(table, Initial(), trace, e);
      trace := trace + [e];
    }

    /** The other goroutines use one opportunity; what they cannot do at the moment is skipped.
    An empty schedule means that nobody interferes. */
    method OthersAct(self: Actor)
      requires Valid()
      modifies this
      ensures Valid() && Undisturbed(self, old(Abs()), Abs())
      ensures schedule == if old(schedule) == [] then [] else old(schedule)[1..]
      ensures old(schedule) == [] ==> Abs() == old(Abs())
    {
      if schedule == [] { return; }
      var todo := schedule[0];
      schedule := schedule[1..];
      for i := 0 to |todo|
        invariant Valid() && Undisturbed(self, old(Abs()), Abs())
        invariant schedule == old(schedule)[1..]
      {
        var e := todo[i];
        if Enabled(Abs(), e) && !OwnStep(self, e) {
          HasInv();
          OthersStep(table, self, Abs(), e);
          OthersSteps(self, old(Abs()), Abs(), Apply(table, Abs(), e));
          Become(Apply(table, Abs(), e), e);
        }
      }
    }

    method Become(t: State, ghost e: Event)
      requires Valid() && Enabled(Abs(), e) && t == Apply(table, Abs(), e)
      modifies this
      ensures Valid() && Abs() == t && schedule == old(schedule)
    {
      ghost var before := Abs();
      Assign(t);
      Took(e, before);
    }

    method Assign(t: State)
      modifies this
      ensures Abs() == t && trace == old(trace) && schedule == old(schedule)
    {
      TakeCallers(t);
      TakeRun(t);
    }

    method TakeCallers(t: State)
      modifies this`status, this`callers, this`reloadCh, this`serverErrors, this`running, this`gate
      ensures status == t.status && callers == t.callers && reloadCh == t.reloadCh
      ensures serverErrors == t.serverErrors && running == t.running && gate == t.gate
    {
      status, callers, reloadCh := t.status, t.callers, t.reloadCh;
      serverErrors, running, gate := t.serverErrors, t.running, t.gate;
    }

    method TakeRun(t: State)
      modifies this`currentConfig, this`currentGen, this`nextGen, this`pc, this`launched, this`endedBy, this`misdirected
      ensures currentConfig == t.config && currentGen == t.gen && nextGen == t.nextGen && pc == t.pc
      ensures launched == t.launched && endedBy == t.endedBy && misdirected == t.misdirected
    {
      currentConfig, currentGen, nextGen, pc := t.config, t.gen, t.nextGen, t.pc;
      launched, endedBy, misdirected := t.launched, t.endedBy, t.misdirected;
    }

    // -------------------------------------------------------------- Reload

    /** Reload up to the gate. */
    method TryAdmit(c: CallerId, ctxDone: bool) returns (admitted: bool)
      requires Valid() && c !in callers
      modifies this
      ensures Valid() && Abs() == ApplyCall(table, old(Abs()), c, ctxDone)
      ensures admitted <==> !ctxDone && old(status) == Running
      ensures status == if admitted then Reloading else old(status)
      ensures gate == if admitted then Some(c) else old(gate)
      ensures callers ==
        old(callers)[c := if admitted then Admitted else if ctxDone then Returned(CtxDone) else Returned(Dropped)]
    {
      ghost var before := Abs();
      admitted := false;
      if ctxDone {
        callers := callers[c := Returned(CtxDone)];
      } else {
        admitted := status == Running && (Running, Reloading) in table;
        if admitted {
          status := Reloading;
          callers := callers[c := Admitted];
          gate := Some(c);
        } else {
          callers := callers[c := Returned(Dropped)];
        }
      }
      Took(Call(c, ctxDone), before);
    }

    /** The configuration callback has returned. Without a configuration the runner is in
    Error, the gate is nobody's and the call returns; otherwise only the call moves on. */
    method FinishCallback(c: CallerId, result: Option<Config>)
      requires Valid() && c in callers && callers[c].Admitted?
      modifies this`status, this`callers, this`gate, this`trace
      ensures Valid() && Abs() == ApplyCallback(old(Abs()), c, result)
      ensures result.None? ==> status == Error && gate.None? && callers == old(callers)[c := Returned(NoConfig)]
      ensures result.Some? ==>
        status == old(status) && gate == old(gate) && callers == old(callers)[c := Ready(result.value)]
    {
      ghost var before := Abs();
      WhenAdmitted(c);
      if result.None? {
        status := Error;
        callers := callers[c := Returned(NoConfig)];
        gate := Released(gate, c);
      } else {
        callers := callers[c := Ready(result.value)];
      }
      Took(Callback(c, result), before);
    }

    /** dispatchReload when the select picks the send: there is always room. */
    method SendRequest(c: CallerId)
      requires Valid() && c in callers && callers[c].Ready?
      modifies this`reloadCh, this`callers, this`trace
      ensures old(reloadCh).None? && reloadCh == Some(Request(c, old(callers)[c].cfg))
      ensures callers == old(callers)[c := Sent(old(callers)[c].cfg, None)]
      ensures Valid() && Abs() == ApplySend(old(Abs()), c)
    {
      ghost var before := Abs();
      WhenReady(c);
      reloadCh := Some(Request(c, callers[c].cfg));
      callers := callers[c := Sent(callers[c].cfg, None)];
      Took(Send(c), before);
    }

    /** abortDispatch. The gate is given back, or, when Run has ended meanwhile, the runner is
    in Error for good, whatever happens between the refused transition and the escalation. */
    method AbortDispatch(c: CallerId, reason: Outcome)
      requires Valid() && Enabled(Abs(), Abort(c, reason))
      modifies this
      ensures Valid() && c in callers && callers[c] == Returned(reason)
      ensures old(status) == Reloading ==>
        && status == Running && gate.None? && callers == old(callers)[c := Returned(reason)]
        && Abs() == ApplyAbort(table, old(Abs()), c, reason)
      ensures old(status) != Reloading ==> status == Error && Doomed(pc)
    {
      ghost var before := Abs();
      WhenReady(c);
      gate := Released(gate, c);
      if (status, Running) in table {
        status := Running;
        callers := callers[c := Returned(reason)];
        Took(Abort(c, reason), before);
      } else {
        callers := callers[c := Aborting(reason)];
        Took(Abort(c, reason), before);
        OthersAct(TheCaller(c));
        EscalateToError(c, reason);
      }
    }

    method EscalateToError(c: CallerId, reason: Outcome)
      requires Valid() && c in callers && callers[c] == Aborting(reason)
      modifies this`status, this`callers, this`trace
      ensures Valid() && c in callers && callers[c] == Returned(reason) && status == Error && Doomed(pc)
    {
      ghost var before := Abs();
      WhenAborting(c);
      status := Error;
      callers := callers[c := Returned(reason)];
      Took(Escalate(c), before);
    }

    // -------------------------------------------------------------- children

    /** The end of startRunnable: a failure is forwarded unless the channel is full. */
    method ChildReturns(child: Child, failed: bool)
      requires Valid() && child in running
      modifies this`running, this`serverErrors, this`trace
      ensures Valid() && Abs() == ApplyExit(old(Abs()), child, failed)
      ensures running == old(running) - {child}
      ensures serverErrors == if failed && old(serverErrors).None? then Some(child) else old(serverErrors)
    {
      ghost var before := Abs();
      running := running - {child};
      if failed && serverErrors.None? {
        serverErrors := Some(child);
      }
      Took(ChildExits(child, failed), before);
    }

    /** stopAllRunnables' wait: every child of the generation returns, those in `failing`
    with an error. The first error is forwarded if the channel is free. */
    method StopAllRunnables(failing: set<Child>)
      requires Valid()
      modifies this
      ensures Valid() && RunUndisturbed(old(Abs()), Abs()) && running == {}
      ensures old(schedule) == [] ==>
        && schedule == [] && Abs() == old(Abs()).(running := {}, serverErrors := serverErrors)
        && (old(serverErrors).None? ==> ErrorOf(old(running) * failing, serverErrors))
    {
      while running != {}
        invariant Valid() && RunUndisturbed(old(Abs()), Abs())
        invariant old(schedule) == [] ==>
          && schedule == [] && Abs() == old(Abs()).(running := running, serverErrors := serverErrors)
          && (old(serverErrors).None? ==> ErrorOf((old(running) - running) * failing, serverErrors))
        decreases running
      {
        ghost var before := Abs();
        var child := OneChildReturns(failing);
        OthersSteps(RunItself, old(Abs()), before, Abs());
        if old(schedule) == [] { OneMoreGone(old(running), before.running, failing, child.value); }
      }
    }

    method OneChildReturns(failing: set<Child>) returns (returned: Option<Child>)
      requires Valid() && running != {}
      modifies this
      ensures Valid() && RunUndisturbed(old(Abs()), Abs()) && running < old(running)
      ensures old(schedule) == [] ==>
        && schedule == [] && returned.Some? && returned.value in old(running)
        && Abs() == ApplyExit(old(Abs()), returned.value, returned.value in failing)
    {
      OthersAct(RunItself);
      returned := None;
      if running != {} {
        var child :| child in running;
        HasInv();
        OthersStep(table, RunItself, Abs(), ChildExits(child, child in failing));
        OthersSteps(RunItself, old(Abs()), Abs(), ApplyExit(Abs(), child, child in failing));
        ChildReturns(child, child in failing);
        returned := Some(child);
      }
    }

    /** boot's loop over the entries, which launches one goroutine each. */
    method Boot(cfg: Config)
      requires running == {}
      modifies this`currentGen, this`nextGen, this`running, this`launched
      ensures Abs() == Launch(old(Abs()), cfg)
      ensures forall child: Child :: child in running <==> child.gen == old(nextGen) && child.index < |cfg|
    {
      if |cfg| == 0 {
        launched := false;
        return;
      }
      var gen := nextGen;
      nextGen := nextGen + 1;
      currentGen := Some(gen);
      launched := true;
      for i := 0 to |cfg|
        invariant running == ChildrenOf(gen, cfg[..i])
        invariant currentGen == Some(gen) && nextGen == gen + 1 && launched
      {
        running := running + {Child(gen, i)};
      }
      assert cfg[..|cfg|] == cfg;
    }

    // -------------------------------------------------------------- Run

    /** Run up to the event loop. */
    method Start(loaded: Option<Config>)
      requires Valid() && pc.NotStarted?
      modifies this
      ensures Valid() && currentConfig == loaded
      ensures status == if loaded.Some? then Running else Error
      ensures pc == if loaded.Some? then Waiting else Closing
      ensures running <= if loaded.Some? then ChildrenOf(old(nextGen), loaded.value) else {}
      ensures old(schedule) == [] && loaded.Some? ==> running == ChildrenOf(old(nextGen), loaded.value)
    {
      BeginRun();
      LoadUndisturbed(loaded);
      OthersAct(RunItself);
      FinishBoot(loaded.Some?);
    }

    method LoadUndisturbed(loaded: Option<Config>)
      requires Valid() && pc.Loading?
      modifies this
      ensures Valid() && currentConfig == loaded && pc == if loaded.Some? then Announcing else BootFailed
      ensures running == if loaded.Some? then ChildrenOf(old(nextGen), loaded.value) else {}
      ensures old(schedule) == [] ==> schedule == []
    {
      OthersAct(RunItself);
      LoadAndBoot(loaded);
    }

    method BeginRun()
      requires Valid() && pc.NotStarted?
      modifies this`status, this`pc, this`trace
      ensures Valid() && pc == Loading
    {
      ghost var before := Abs();
      WhenStarting();
      status := Transition(table, status, Booting);
      pc := Loading;
      Took(Begin, before);
    }

    method LoadAndBoot(loaded: Option<Config>)
      requires Valid() && pc.Loading?
      modifies this`currentConfig, this`currentGen, this`nextGen, this`running, this`launched, this`pc, this`trace
      ensures Valid() && Abs() == ApplyFirstBoot(old(Abs()), loaded)
      ensures currentConfig == loaded && pc == if loaded.Some? then Announcing else BootFailed
      ensures running == if loaded.Some? then ChildrenOf(old(nextGen), loaded.value) else {}
    {
      ghost var before := Abs();
      WhenStarting();
      if loaded.Some? {
        currentConfig := loaded;
        Boot(loaded.value);
        pc := Announcing;
      } else {
        pc := BootFailed;
      }
      Took(FirstBoot(loaded), before);
    }

    /** The transition to Running, which is never refused, or the error of a failed boot. */
    method FinishBoot(ok: bool)
      requires Valid() && pc == if ok then Announcing else BootFailed
      modifies this`status, this`pc, this`trace
      ensures Valid() && status == if ok then Running else Error
      ensures pc == if ok then Waiting else Closing
    {
      ghost var before := Abs();
      WhenStarting();
      status := if ok then Transition(table, status, Running) else Error;
      pc := if ok then Waiting else Closing;
      Took(Proceed, before);
    }

    // -------------------------------------------------------------- reloads

    /** One turn of the event loop that picks a request: its caller gets the outcome, and the
    runner has the caller's configuration, whatever others do during the turn. */
    method ServeRequest(failing: set<Child>, responses: seq<Response>) returns (reply: Reply)
      requires Valid() && pc == Waiting && reloadCh.Some? && |responses| == |reloadCh.value.cfg|
      modifies this
      ensures Valid() && pc == Waiting && old(currentConfig).Some?
      ensures reply ==
        if Changed(old(currentConfig).value, old(reloadCh).value.cfg) then Reloaded else Joined(responses)
      ensures currentConfig == Some(old(reloadCh).value.cfg)
      ensures old(reloadCh).value.caller in callers
        && callers[old(reloadCh).value.caller] == Sent(old(reloadCh).value.cfg, Some(reply))
      ensures old(schedule) == [] ==>
        && status == (if reply.ReloadFailed? then Error else Running) && gate.None? && reloadCh.None?
        && callers == old(callers)[old(reloadCh).value.caller := Sent(old(reloadCh).value.cfg, Some(reply))]
    {
      var req := ReceiveRequest();
      OthersAct(RunItself);
      reply := HandleReload(req.caller, req.cfg, failing, responses);
      OthersAct(RunItself);
      SendResult(req.caller, reply, Resume);
    }

    method ReceiveRequest() returns (req: Request)
      requires Valid() && pc == Waiting && reloadCh.Some?
      modifies this`reloadCh, this`pc, this`trace
      ensures Valid() && Abs() == ApplyTakeRequest(old(Abs()))
      ensures old(reloadCh) == Some(req) && Unanswered(Abs(), req.caller) && callers[req.caller].cfg == req.cfg
    {
      ghost var before := Abs();
      WhenBuffered();
      req := reloadCh.value;
      reloadCh := None;
      pc := Handling(req.caller, req.cfg, Decide);
      Took(TakeRequest, before);
    }

    /** handleReload. `failing` are the old children that return with an error when stopped,
    `responses` is how those of the new configuration take a reload in place. */
    method HandleReload(c: CallerId, cfg: Config, failing: set<Child>, responses: seq<Response>) returns (reply: Reply)
      requires Valid() && pc == Handling(c, cfg, Decide) && |responses| == |cfg|
      modifies this
      ensures Valid() && pc == Replying(c, reply, Resume) && StillHeld(c, old(Abs()), Abs())
      ensures currentConfig == Some(cfg) && gate.None?
      ensures status == if reply.ReloadFailed? then Error else Running
      ensures old(currentConfig).Some?
      ensures if Changed(old(currentConfig).value, cfg)
        then reply == Reloaded && NewGeneration(old(nextGen), cfg)
        else reply == Joined(responses) && SameGeneration(old(Abs()), Abs())
      ensures serverErrors.Some? ==> launched && currentGen == Some(serverErrors.value.gen)
      ensures old(schedule) == [] ==>
        && schedule == [] && Untouched(old(Abs()), Abs())
        && if Changed(old(currentConfig).value, cfg) then running == ChildrenOf(old(nextGen), cfg) && serverErrors.None?
           else running == old(running) && serverErrors == old(serverErrors)
    {
      var changed := CompareWithCurrent(c, cfg);
      if changed {
        ReplaceChildren(c, cfg, failing);
        reply := Reloaded;
      } else {
        reply := KeepChildren(c, cfg, responses);
      }
    }

    method ReplaceChildren(c: CallerId, cfg: Config, failing: set<Child>)
      requires Valid() && pc == Handling(c, cfg, StopOld)
      modifies this
      ensures Valid() && pc == Replying(c, Reloaded, Resume) && StillHeld(c, old(Abs()), Abs())
      ensures currentConfig == Some(cfg) && gate.None? && status == Running && NewGeneration(old(nextGen), cfg)
      ensures serverErrors.Some? ==> launched && currentGen == Some(serverErrors.value.gen)
      ensures old(schedule) == [] ==> schedule == [] && Untouched(old(Abs()), Abs())
      ensures old(schedule) == [] ==> running == ChildrenOf(old(nextGen), cfg) && serverErrors.None?
    {
      OthersAct(RunItself);
      ReloadWithRestart(c, cfg, failing);
      ConcludeUndisturbed(c, cfg, Reloaded);
    }

    method KeepChildren(c: CallerId, cfg: Config, responses: seq<Response>) returns (reply: Reply)
      requires Valid() && pc == Handling(c, cfg, Composite.ReloadInPlace) && |responses| == |cfg|
      modifies this
      ensures reply == Joined(responses)
      ensures Valid() && pc == Replying(c, reply, Resume) && StillHeld(c, old(Abs()), Abs())
      ensures currentConfig == Some(cfg) && gate.None? && SameGeneration(old(Abs()), Abs())
      ensures status == if reply.ReloadFailed? then Error else Running
      ensures serverErrors.Some? ==> launched && currentGen == Some(serverErrors.value.gen)
      ensures old(schedule) == [] ==> schedule == [] && Untouched(old(Abs()), Abs())
      ensures old(schedule) == [] ==> running == old(running) && serverErrors == old(serverErrors)
    {
      OthersAct(RunItself);
      reply := ReloadSkipRestart(c, cfg, responses);
      ConcludeUndisturbed(c, cfg, reply);
    }

    method ConcludeUndisturbed(c: CallerId, cfg: Config, reply: Reply)
      requires Valid() && pc == Handling(c, cfg, Finish(reply))
      modifies this
      ensures Valid() && gate.None? && pc == Replying(c, reply, Resume) && StillHeld(c, old(Abs()), Abs())
      ensures status == if reply.ReloadFailed? then Error else Running
      ensures currentConfig == old(currentConfig) && launched == old(launched) && SameGeneration(old(Abs()), Abs())
      ensures serverErrors.Some? ==> launched && currentGen == Some(serverErrors.value.gen)
      ensures old(schedule) == [] ==> schedule == [] && Untouched(old(Abs()), Abs())
      ensures old(schedule) == [] ==> running == old(running) && serverErrors == old(serverErrors)
    {
      OthersAct(RunItself);
      Conclude(c, cfg, reply);
      ErrorIsCurrent();
    }

    /** Generation `gen` was launched for `cfg`; some of its children may have returned. */
    ghost predicate NewGeneration(gen: nat, cfg: Config)
      reads this
    {
      && running <= ChildrenOf(gen, cfg) && launched == (cfg != [])
      && (cfg != [] ==> currentGen == Some(gen))
    }

    /** Nobody was started; children may have returned by themselves. */
    static ghost predicate SameGeneration(s: State, t: State) {
      t.gen == s.gen && t.nextGen == s.nextGen && t.running <= s.running
    }

    /** A request that was unanswered still is. */
    static ghost predicate StillHeld(c: CallerId, s: State, t: State) {
      Unanswered(s, c) ==> c in t.callers && t.callers[c] == s.callers[c]
    }

    /** No caller did anything. */
    static ghost predicate Untouched(s: State, t: State) {
      t.callers == s.callers && t.reloadCh == s.reloadCh
    }

    method CompareWithCurrent(c: CallerId, cfg: Config) returns (changed: bool)
      requires Valid() && pc == Handling(c, cfg, Decide)
      modifies this`pc, this`trace
      ensures Valid() && currentConfig.Some? && changed == Changed(currentConfig.value, cfg)
      ensures Abs() == old(Abs()).(pc := Handling(c, cfg, if changed then StopOld else Composite.ReloadInPlace))
    {
      ghost var before := Abs();
      WhenHandling();
      changed := HasMembershipChanged(if currentConfig.Some? then currentConfig.value else [], cfg);
      pc := Handling(c, cfg, if changed then StopOld else Composite.ReloadInPlace);
      Took(Proceed, before);
    }

    /** reloadWithRestart: stop, discard the old generation's error, store, boot. */
    method ReloadWithRestart(c: CallerId, cfg: Config, failing: set<Child>)
      requires Valid() && pc == Handling(c, cfg, StopOld)
      modifies this
      ensures Valid() && pc == Handling(c, cfg, Finish(Reloaded)) && StillHeld(c, old(Abs()), Abs())
      ensures currentConfig == Some(cfg) && NewGeneration(old(nextGen), cfg)
      ensures running == ChildrenOf(old(nextGen), cfg) && serverErrors.None?
      ensures old(schedule) == [] ==> schedule == [] && Untouched(old(Abs()), Abs())
    {
      StopOldGeneration(c, cfg, failing);
      OthersAct(RunItself);
      StoreAndBoot(c, cfg);
    }

    method StopOldGeneration(c: CallerId, cfg: Config, failing: set<Child>)
      requires Valid() && pc == Handling(c, cfg, StopOld)
      modifies this
      ensures Valid() && pc == Handling(c, cfg, StoreConfig) && StillHeld(c, old(Abs()), Abs())
      ensures nextGen == old(nextGen)
      ensures old(schedule) == [] ==> schedule == [] && Untouched(old(Abs()), Abs())
    {
      StopAllRunnables(failing);
      AllStopped(c, cfg);
      OthersAct(RunItself);
      Discard(c, cfg);
    }

    method AllStopped(c: CallerId, cfg: Config)
      requires Valid() && pc == Handling(c, cfg, StopOld) && running == {}
      modifies this`pc, this`trace
      ensures Valid() && pc == Handling(c, cfg, Composite.DiscardError)
    {
      ghost var stopped := Abs();
      WhenHandling();
      pc := Handling(c, cfg, Composite.DiscardError);
      Took(Proceed, stopped);
    }

    method StoreAndBoot(c: CallerId, cfg: Config)
      requires Valid() && pc == Handling(c, cfg, StoreConfig)
      modifies this
      ensures Valid() && pc == Handling(c, cfg, Finish(Reloaded)) && StillHeld(c, old(Abs()), Abs())
      ensures currentConfig == Some(cfg) && NewGeneration(old(nextGen), cfg)
      ensures running == ChildrenOf(old(nextGen), cfg) && serverErrors.None?
      ensures old(schedule) == [] ==> schedule == [] && Untouched(old(Abs()), Abs())
    {
      Store(c, cfg);
      OthersAct(RunItself);
      BootNewGeneration(c, cfg);
    }

    method Discard(c: CallerId, cfg: Config)
      requires Valid() && pc == Handling(c, cfg, Composite.DiscardError)
      modifies this`serverErrors, this`pc, this`trace
      ensures Valid() && pc == Handling(c, cfg, StoreConfig) && serverErrors.None?
    {
      ghost var before := Abs();
      serverErrors := None;
      pc := Handling(c, cfg, StoreConfig);
      Took(Proceed, before);
    }

    method Store(c: CallerId, cfg: Config)
      requires Valid() && pc == Handling(c, cfg, StoreConfig)
      modifies this`currentConfig, this`pc, this`trace
      ensures Valid() && pc == Handling(c, cfg, BootNew) && currentConfig == Some(cfg)
    {
      ghost var before := Abs();
      currentConfig := Some(cfg);
      pc := Handling(c, cfg, BootNew);
      Took(Proceed, before);
    }

    /** By now nobody is left to fail, so nothing but the new generation is there afterwards. */
    method BootNewGeneration(c: CallerId, cfg: Config)
      requires Valid() && pc == Handling(c, cfg, BootNew)
      modifies this`currentGen, this`nextGen, this`running, this`launched, this`pc, this`trace
      ensures Valid() && pc == Handling(c, cfg, Finish(Reloaded)) && currentConfig == Some(cfg) && serverErrors.None?
      ensures running == ChildrenOf(old(nextGen), cfg) && launched == (cfg != [])
      ensures cfg != [] ==> currentGen == Some(old(nextGen))
    {
      ghost var before := Abs();
      WhenBooting();
      Boot(cfg);
      pc := Handling(c, cfg, Finish(Reloaded));
      Took(Proceed, before);
    }

    /** reloadSkipRestart. */
    method ReloadSkipRestart(c: CallerId, cfg: Config, responses: seq<Response>) returns (reply: Reply)
      requires Valid() && pc == Handling(c, cfg, Composite.ReloadInPlace) && |responses| == |cfg|
      modifies this`currentConfig, this`pc, this`trace
      ensures Valid() && Abs() == ApplyInPlace(old(Abs()), reply) && currentConfig == Some(cfg)
      ensures reply == Joined(responses)
    {
      ghost var before := Abs();
      currentConfig := Some(cfg);
      var handed;
      reply, handed := ReloadEntries(cfg, responses);
      pc := Handling(c, cfg, Finish(reply));
      Took(InPlace(reply), before);
    }

    /** The end of handleReload; the transition to Running is never refused. */
    method Conclude(c: CallerId, cfg: Config, reply: Reply)
      requires Valid() && pc == Handling(c, cfg, Finish(reply))
      modifies this`status, this`gate, this`pc, this`trace
      ensures Valid() && gate.None? && pc == Replying(c, reply, Resume)
      ensures status == if reply.ReloadFailed? then Error else Running
    {
      ghost var before := Abs();
      WhenHandling();
      Conclusion(table, before);
      status :=
        if reply.Reloaded? then (if (status, Running) in table then Running else Error)
        else if reply.ReloadCancelled? then TransitionIf(table, status, Reloading, Running)
        else Error;
      gate := Released(gate, c);
      pc := Replying(c, reply, Resume);
      Took(Proceed, before);
    }

    /** The send on a request's result channel: it finds the channel empty. */
    method SendResult(c: CallerId, reply: Reply, next: Next)
      requires Valid() && pc == Replying(c, reply, next)
      modifies this`callers, this`pc, this`trace
      ensures old(Unanswered(Abs(), c))
      ensures Valid() && callers == old(callers)[c := Sent(old(callers)[c].cfg, Some(reply))]
      ensures Continued(old(Abs()), Abs())
      ensures pc == if next.Resume? then Waiting else Draining(next.exit)
    {
      ghost var before := Abs();
      WhenInHand(c);
      callers := callers[c := callers[c].(reply := Some(reply))];
      pc := if next.Resume? then Waiting else Draining(next.exit);
      Took(Proceed, before);
    }

    // -------------------------------------------------------------- draining and stopping

    /** drainReloadCh. Requests that arrive while it runs are drained as well; each gets the
    abandonment answer, and its Reloading is undone. */
    method DrainReloadCh(exit: Exit)
      requires Valid() && pc == Draining(exit)
      modifies this
      ensures Valid() && reloadCh.None? && pc == Afterwards(exit)
      ensures old(reloadCh).Some? ==> Got(callers, old(reloadCh).value.caller, Abandoned)
      ensures Continued(old(Abs()), Abs())
      ensures old(schedule) == [] ==>
        && schedule == [] && running == old(running)
        && status == (if old(reloadCh).Some? then TransitionIf(table, old(status), Reloading, Running) else old(status))
        && callers == CallersAnswered(old(Abs()), Abandoned)
    {
      while reloadCh.Some?
        invariant Valid() && pc == Draining(exit) && Continued(old(Abs()), Abs())
        invariant reloadCh != old(reloadCh) && old(reloadCh).Some? ==>
          Got(callers, old(reloadCh).value.caller, Abandoned)
        invariant old(schedule) == [] ==> schedule == [] && running == old(running)
        invariant old(schedule) == [] && reloadCh == old(reloadCh) ==> status == old(status) && callers == old(callers)
        invariant old(schedule) == [] && reloadCh != old(reloadCh) ==>
          && reloadCh.None? && old(reloadCh).Some? && status == TransitionIf(table, old(status), Reloading, Running)
          && callers == CallersAnswered(old(Abs()), Abandoned)
        decreases |schedule|, if reloadCh.Some? then 1 else 0
      {
        AbandonNext(exit);
      }
      ghost var drained := Abs();
      pc := Afterwards(exit);
      Took(Proceed, drained);
    }

    /** The calls after the buffered request, if any, was answered. */
    static ghost function CallersAnswered(s: State, reply: Reply): map<CallerId, Caller> {
      if s.reloadCh.None? then s.callers
      else s.callers[s.reloadCh.value.caller := Sent(s.reloadCh.value.cfg, Some(reply))]
    }

    /** Answers stay given, and no child is started or configuration changed. */
    static ghost predicate Continued(s: State, t: State) {
      && t.config == s.config && t.gen == s.gen && t.endedBy == s.endedBy && t.running <= s.running
      && (Lasting(s.status) ==> t.status == s.status)
      && AnswersStay(s.callers, t.callers)
    }

    /** One turn of the loop. */
    method AbandonNext(exit: Exit)
      requires Valid() && pc == Draining(exit) && reloadCh.Some?
      modifies this
      ensures Valid() && pc == Draining(exit) && Continued(old(Abs()), Abs())
      ensures Got(callers, old(reloadCh).value.caller, Abandoned)
      ensures |schedule| < |old(schedule)| || (schedule == [] && reloadCh.None?)
      ensures old(schedule) == [] ==>
        && schedule == [] && running == old(running)
        && status == TransitionIf(table, old(status), Reloading, Running)
        && callers == CallersAnswered(old(Abs()), Abandoned)
    {
      var req := TakeBuffered(exit);
      ghost var taken := Abs();
      ReleaseForCaller(req.caller, exit);
      ghost var released := Abs();
      SendResult(req.caller, Abandoned, Drain(exit));
      OnwardsTwice(old(Abs()), taken, released);
      OnwardsTwice(old(Abs()), released, Abs());
    }

    static lemma OnwardsTwice(s: State, t: State, u: State)
      requires Continued(s, t) && Continued(t, u)
      ensures Continued(s, u)
    {}

    method ReleaseForCaller(c: CallerId, exit: Exit)
      requires Valid() && pc == Releasing(c, exit) && Unanswered(Abs(), c)
      modifies this
      ensures Valid() && pc == Replying(c, Abandoned, Drain(exit)) && Continued(old(Abs()), Abs())
      ensures StillHeld(c, old(Abs()), Abs())
      ensures |schedule| <= |old(schedule)| && (old(schedule) != [] ==> |schedule| < |old(schedule)|)
      ensures old(schedule) == [] ==>
        && schedule == [] && running == old(running) && Untouched(old(Abs()), Abs())
        && status == TransitionIf(table, old(status), Reloading, Running)
    {
      OthersAct(RunItself);
      ghost var before := Abs();
      FreeGate(c, exit);
      ghost var freed := Abs();
      OthersAct(RunItself);
      OnwardsTwice(old(Abs()), before, freed);
      OnwardsTwice(old(Abs()), freed, Abs());
    }

    method TakeBuffered(exit: Exit) returns (req: Request)
      requires Valid() && pc == Draining(exit) && reloadCh.Some?
      modifies this`reloadCh, this`pc, this`trace
      ensures Valid() && Some(req) == old(reloadCh)
      ensures Abs() == old(Abs()).(reloadCh := None, pc := Releasing(req.caller, exit))
      ensures Unanswered(Abs(), req.caller) && callers[req.caller].cfg == req.cfg
    {
      ghost var before := Abs();
      WhenBuffered();
      req := reloadCh.value;
      reloadCh := None;
      pc := Releasing(req.caller, exit);
      Took(Proceed, before);
    }

    method FreeGate(c: CallerId, exit: Exit)
      requires Valid() && pc == Releasing(c, exit)
      modifies this`status, this`gate, this`pc, this`trace
      ensures Valid() && status == TransitionIf(table, old(status), Reloading, Running)
      ensures pc == Replying(c, Abandoned, Drain(exit))
    {
      ghost var before := Abs();
      status := TransitionIf(table, status, Reloading, Running);
      gate := Released(gate, c);
      pc := Replying(c, Abandoned, Drain(exit));
      Took(Proceed, before);
    }

    /** What Run does after the event loop ends without an error. `found` is the status found
    by the attempt to reach Stopping: Running makes the runner end Stopped, Error leaves it
    to the table. When nobody interferes the runner was Running, or becomes it because the
    reload that was going on had been sent; a reload that was admitted but not sent makes
    the runner end in Error. */
    method ShutDown(failing: set<Child>) returns (found: Status)
      requires Valid() && pc == Waiting
      modifies this
      ensures Valid() && pc == Over && running == {} && reloadCh.None?
      ensures forall c: CallerId :: !Unanswered(Abs(), c)
      ensures old(reloadCh).Some? ==> Got(callers, old(reloadCh).value.caller, Abandoned)
      ensures status == Stopped || status == Error
      ensures found == Running ==> status == Stopped
      ensures found == Error ==> status == StoppedOrError(table, Error)
      ensures old(schedule) == [] ==>
        && callers == CallersAnswered(old(Abs()), Abandoned)
        && found == (if old(reloadCh).Some? then Running else old(status))
        && (found == Reloading ==> status == Error)
    {
      LeaveLoop();
      OthersAct(RunItself);
      DrainReloadCh(Graceful);
      OthersAct(RunItself);
      found := status;
      EndGracefully(failing);
      forall c: CallerId ensures !Unanswered(Abs(), c) { WhenOver(c); }
    }

    method LeaveLoop()
      requires Valid() && pc == Waiting
      modifies this`pc, this`trace
      ensures Valid() && Abs() == old(Abs()).(pc := Draining(Graceful))
      ensures reloadCh.Some? ==> status == Reloading
    {
      ghost var before := Abs();
      if reloadCh.Some? { BufferedMeansReloading(); }
      pc := Draining(Graceful);
      Took(Leave, before);
    }

    lemma BufferedMeansReloading()
      requires Valid() && pc == Waiting && reloadCh.Some?
      ensures status == Reloading
    {
      HasInv();
      assert Holds(Abs(), reloadCh.value.caller);
    }

    method EndGracefully(failing: set<Child>)
      requires Valid() && pc == ToStopping
      modifies this
      ensures Valid() && pc == Over && running == {} && reloadCh.None?
      ensures status == Stopped || status == Error
      ensures old(status) == Running ==> status == Stopped
      ensures old(status) == Error ==> status == StoppedOrError(table, Error)
      ensures AnswersStay(old(callers), callers)
      ensures old(schedule) == [] && old(reloadCh).None? ==> callers == old(callers)
      ensures old(schedule) == [] && old(status) == Reloading ==> status == Error
    {
      StopGracefully(failing);
      EndRun();
    }

    method StopGracefully(failing: set<Child>)
      requires Valid() && pc == ToStopping
      modifies this
      ensures Valid() && pc == Closing && running == {}
      ensures status == Stopped || status == Error
      ensures old(status) == Running ==> status == Stopped
      ensures old(status) == Error ==> status == StoppedOrError(table, Error)
      ensures AnswersStay(old(callers), callers)
      ensures old(schedule) == [] ==> schedule == [] && Untouched(old(Abs()), Abs())
      ensures old(schedule) == [] && old(status) == Reloading ==> status == Error
    {
      MarkStopping();
      StopChildren(failing);
      MarkStopped();
    }

    method MarkStopping()
      requires Valid() && pc == ToStopping
      modifies this`status, this`pc, this`trace
      ensures Valid() && status == TransitionIf(table, old(status), Running, Stopping) && pc == StoppingAll
    {
      ghost var before := Abs();
      status := TransitionIf(table, status, Running, Stopping);
      pc := StoppingAll;
      Took(Proceed, before);
    }

    method StopChildren(failing: set<Child>)
      requires Valid() && pc == StoppingAll
      modifies this
      ensures Valid() && pc == ToStopped && AnswersStay(old(callers), callers)
      ensures Lasting(old(status)) ==> status == old(status)
      ensures old(schedule) == [] ==> schedule == [] && status == old(status) && Untouched(old(Abs()), Abs())
    {
      OthersAct(RunItself);
      StopAllRunnables(failing);
      AllGone();
      OthersAct(RunItself);
    }

    method AllGone()
      requires Valid() && pc == StoppingAll && running == {}
      modifies this`pc, this`trace
      ensures Valid() && pc == ToStopped
    {
      ghost var stopped := Abs();
      WhenStopping();
      pc := ToStopped;
      Took(Proceed, stopped);
    }

    method MarkStopped()
      requires Valid() && pc == ToStopped
      modifies this
      ensures Valid() && pc == Closing && running == {}
      ensures status == Stopped || status == Error
      ensures Lasting(old(status)) ==> status == StoppedOrError(table, old(status))
      ensures AnswersStay(old(callers), callers)
      ensures old(schedule) == [] ==> schedule == [] && Untouched(old(Abs()), Abs())
      ensures old(schedule) == [] ==> status == StoppedOrError(table, old(status))
    {
      var refused := TryStopped();
      if refused { MarkRefused(); }
    }

    method TryStopped() returns (refused: bool)
      requires Valid() && pc == ToStopped
      modifies this`status, this`pc, this`trace
      ensures Valid() && running == {} && pc == if refused then Refused else Closing
      ensures refused == ((old(status), Stopped) !in table)
      ensures status == if refused then old(status) else Stopped
    {
      ghost var before := Abs();
      WhenStopping();
      refused := (status, Stopped) !in table;
      pc := if refused then Refused else Closing;
      if !refused { status := Stopped; }
      Took(Proceed, before);
    }

    method MarkRefused()
      requires Valid() && pc == Refused
      modifies this
      ensures Valid() && pc == Closing && running == {} && status == Error
      ensures AnswersStay(old(callers), callers)
      ensures old(schedule) == [] ==> schedule == [] && Untouched(old(Abs()), Abs())
    {
      OthersAct(RunItself);
      ghost var before := Abs();
      WhenStopping();
      status := Error;
      pc := Closing;
      Took(Proceed, before);
    }

    /** The deferred calls: done(), then the last drain. */
    method EndRun()
      requires Valid() && pc == Closing
      modifies this
      ensures Valid() && pc == Over && status == old(status) && running == {} && reloadCh.None?
      ensures Continued(old(Abs()), Abs())
      ensures old(schedule) == [] && old(reloadCh).None? ==> callers == old(callers)
    {
      ghost var before := Abs();
      WhenStopping();
      pc := Draining(Final);
      Took(Proceed, before);
      DrainLast();
    }

    method DrainLast()
      requires Valid() && pc == Draining(Final)
      modifies this
      ensures Valid() && pc == Over && status == old(status) && running == {} && reloadCh.None?
      ensures Continued(old(Abs()), Abs())
      ensures old(schedule) == [] && old(reloadCh).None? ==> callers == old(callers)
    {
      WhenStopping();
      OthersAct(RunItself);
      ghost var before := Abs();
      DrainReloadCh(Final);
      OnwardsTwice(old(Abs()), before, Abs());
    }

    /** What Run does with an error of a child, which is always a current one. */
    method FailOn(failing: set<Child>)
      requires Valid() && pc == Waiting && serverErrors.Some?
      modifies this
      ensures Valid() && pc == Over && running == {} && reloadCh.None? && status == Error
      ensures endedBy == old(serverErrors) && currentGen == Some(endedBy.value.gen)
      ensures forall c: CallerId :: !Unanswered(Abs(), c)
      ensures old(reloadCh).Some? ==> Got(callers, old(reloadCh).value.caller, Abandoned)
      ensures old(schedule) == [] ==> callers == CallersAnswered(old(Abs()), Abandoned)
    {
      AcceptError();
      OthersAct(RunItself);
      MarkFailed();
      OthersAct(RunItself);
      DrainAndStop(failing);
      forall c: CallerId ensures !Unanswered(Abs(), c) { WhenOver(c); }
    }

    method AcceptError()
      requires Valid() && pc == Waiting && serverErrors.Some?
      modifies this`serverErrors, this`endedBy, this`pc, this`trace
      ensures Valid() && Abs() == ApplyTakeError(old(Abs()))
      ensures currentGen == Some(old(serverErrors).value.gen)
    {
      ghost var before := Abs();
      ErrorIsCurrent();
      endedBy := serverErrors;
      serverErrors := None;
      pc := ChildFailed;
      Took(TakeError, before);
    }

    method MarkFailed()
      requires Valid() && pc == ChildFailed
      modifies this`status, this`pc, this`trace
      ensures Valid() && status == Error && pc == Draining(AfterFailure)
    {
      ghost var before := Abs();
      status := Error;
      pc := Draining(AfterFailure);
      Took(Proceed, before);
    }

    method DrainAndStop(failing: set<Child>)
      requires Valid() && pc == Draining(AfterFailure) && status == Error
      modifies this
      ensures Valid() && pc == Over && running == {} && reloadCh.None? && status == Error
      ensures Continued(old(Abs()), Abs())
      ensures old(reloadCh).Some? ==> Got(callers, old(reloadCh).value.caller, Abandoned)
      ensures old(schedule) == [] ==> callers == CallersAnswered(old(Abs()), Abandoned)
    {
      DrainReloadCh(AfterFailure);
      ghost var drained := Abs();
      StopAfterFailure(failing);
      ghost var closing := Abs();
      EndRun();
      OnwardsTwice(drained, closing, Abs());
      OnwardsTwice(old(Abs()), drained, Abs());
    }

    method StopAfterFailure(failing: set<Child>)
      requires Valid() && pc == Composite.StoppingAfterFailure
      modifies this
      ensures Valid() && pc == Closing && Continued(old(Abs()), Abs())
      ensures old(schedule) == [] ==> schedule == [] && Untouched(old(Abs()), Abs())
    {
      OthersAct(RunItself);
      ghost var before := Abs();
      StopAllRunnables(failing);
      ghost var stopped := Abs();
      OnwardsTwice(old(Abs()), before, stopped);
      pc := Closing;
      Took(Proceed, stopped);
    }
  }

  /** The queued error is one of the failed children's, if there are any. */
  predicate ErrorOf(failed: set<Child>, error: Option<Child>) {
    if error.Some? then error.value in failed else failed == {}
  }

  lemma OneMoreGone(all: set<Child>, left: set<Child>, failing: set<Child>, child: Child)
    requires child in left && left <= all
    ensures (all - (left - {child})) * failing == (all - left) * failing + if child in failing then {child} else {}
  {}

  /** The channel of capacity one is empty whenever a caller wants to send. */
  lemma SendNeverWaits(s: State, c: CallerId)
    requires Inv(s) && c in s.callers && s.callers[c].Ready?
    ensures s.reloadCh.None? && s.status != Running
  {
    assert Holds(s, c);
    if s.reloadCh.Some? {
      assert Holds(s, s.reloadCh.value.caller);
    }
  }
}
