/** The composite runner as a transition system: any number of Reload callers, one Run call
with its event loop, a reload channel and an error channel that each hold one item, and a
generation of children per boot. Every step is one atomic action of one goroutine, so a
sequence of steps is an interleaving. */
module Composite {
  import opened Wrappers
  import opened Fsm
  import opened Membership

  type CallerId = nat

  /** What Run sends on a request's result channel. */
  datatype Reply = Reloaded | ReloadFailed | ReloadCancelled | Abandoned

  /** What a Reload call returns. `Dropped`: the runner was not Running. */
  datatype Outcome = Answered(reply: Reply) | Dropped | CtxDone | RunnerDone | NoConfig

  /** Where a Reload call stands: calling the configuration callback; in the select of
  dispatchReload; refused by the status table while aborting; waiting for its answer. */
  datatype Caller =
    | Admitted
    | Ready(cfg: Config)
    | Aborting(reason: Outcome)
    | Sent(cfg: Config, reply: Option<Reply>)
    | Returned(outcome: Outcome)

  datatype Request = Request(caller: CallerId, cfg: Config)

  /** The goroutine running entry `index` in generation `gen`. */
  datatype Child = Child(gen: nat, index: nat)

  /** The three places where Run drains the reload channel. */
  datatype Exit = Graceful | AfterFailure | Final

  datatype Next = Resume | Drain(exit: Exit)

  /** The steps of handleReload. */
  datatype Work = Decide | StopOld | DiscardError | StoreConfig | BootNew | ReloadInPlace | Finish(reply: Reply)

  /** Where Run stands. */
  datatype Pc =
    | NotStarted | Loading | BootFailed | Announcing
    | Waiting
    | Handling(caller: CallerId, cfg: Config, work: Work)
    | Replying(caller: CallerId, reply: Reply, next: Next)
    | Draining(exit: Exit)
    | Releasing(caller: CallerId, exit: Exit)
    | ChildFailed | StoppingAfterFailure
    | ToStopping | StoppingAll | ToStopped | Refused
    | Closing
    | Over

  /** The last four fields only record: who took the reload gate and has not given it back,
  whether the latest boot launched children, whose error ended Run, and whether an answer
  was ever sent to a full or finished result channel. */
  datatype State = State(
    status: Status,
    callers: map<CallerId, Caller>,
    reloadCh: Option<Request>,
    serverErrors: Option<Child>,
    config: Option<Config>,
    gen: Option<nat>,
    nextGen: nat,
    running: set<Child>,
    pc: Pc,
    gate: Option<CallerId>,
    launched: bool,
    endedBy: Option<Child>,
    misdirected: bool)

  function Initial(): State {
    State(New, map[], None, None, None, None, 0, {}, NotStarted, None, false, None, false)
  }

  /** DoneCh is closed: before the first run, and once done() was called. */
  predicate DoneClosed(pc: Pc) {
    match pc
    case NotStarted => true
    case Draining(exit) => exit == Final
    case Releasing(_, exit) => exit == Final
    case Replying(_, _, next) => next == Drain(Final)
    case Over => true
    case _ => false
  }

  // ---------------------------------------------------------------- Reload

  function Released(gate: Option<CallerId>, c: CallerId): Option<CallerId> {
    if gate == Some(c) then None else gate
  }

  /** Reload up to the gate. */
  function ApplyCall(table: Table, s: State, c: CallerId, ctxDone: bool): State {
    if ctxDone then s.(callers := s.callers[c := Returned(CtxDone)])
    else if s.status == Running && (Running, Reloading) in table then
      s.(status := Reloading, callers := s.callers[c := Admitted], gate := Some(c))
    else s.(callers := s.callers[c := Returned(Dropped)])
  }

  /** The configuration callback returns. */
  function ApplyCallback(s: State, c: CallerId, result: Option<Config>): State {
    match result
    case Some(cfg) => s.(callers := s.callers[c := Ready(cfg)])
    case None => s.(status := Error, callers := s.callers[c := Returned(NoConfig)], gate := Released(s.gate, c))
  }

  function ApplySend(s: State, c: CallerId): State
    requires c in s.callers && s.callers[c].Ready?
  {
    var cfg := s.callers[c].cfg;
    s.(reloadCh := Some(Request(c, cfg)), callers := s.callers[c := Sent(cfg, None)])
  }

  /** abortDispatch, up to the transition. */
  function ApplyAbort(table: Table, s: State, c: CallerId, reason: Outcome): State {
    var s := s.(gate := Released(s.gate, c));
    if (s.status, Running) in table then
      s.(status := Running, callers := s.callers[c := Returned(reason)])
    else s.(callers := s.callers[c := Aborting(reason)])
  }

  function ApplyEscalate(s: State, c: CallerId): State
    requires c in s.callers && s.callers[c].Aborting?
  {
    s.(status := Error, callers := s.callers[c := Returned(s.callers[c].reason)])
  }

  function ApplyReceive(s: State, c: CallerId): State
    requires c in s.callers && s.callers[c].Sent? && s.callers[c].reply.Some?
  {
    s.(callers := s.callers[c := Returned(Answered(s.callers[c].reply.value))])
  }

  // ---------------------------------------------------------------- children

  /** A child's Run returns; a failure is forwarded unless the channel is full. */
  function ApplyExit(s: State, child: Child, failed: bool): State {
    s.(running := s.running - {child},
       serverErrors := if failed && s.serverErrors.None? then Some(child) else s.serverErrors)
  }

  function ChildrenOf(gen: nat, cfg: Config): set<Child> {
    set i | 0 <= i < |cfg| :: Child(gen, i)
  }

  /** boot, with the configuration already loaded. */
  function Launch(s: State, cfg: Config): State {
    if cfg == [] then s.(launched := false)
    else s.(gen := Some(s.nextGen), nextGen := s.nextGen + 1, launched := true,
            running := s.running + ChildrenOf(s.nextGen, cfg))
  }

  /** The wait of stopAllRunnables: the current generation's goroutines are gone. */
  predicate GenerationGone(s: State) {
    forall child :: child in s.running ==> s.gen != Some(child.gen)
  }

  // ---------------------------------------------------------------- Run

  function ApplyBegin(table: Table, s: State): State {
    if (s.status, Booting) in table then s.(status := Booting, pc := Loading) else s.(pc := Closing)
  }

  /** boot, loading the configuration through the callback when there is none yet. */
  function ApplyFirstBoot(s: State, loaded: Option<Config>): State {
    var config := if s.config.Some? then s.config else loaded;
    match config
    case None => s.(pc := BootFailed)
    case Some(cfg) => Launch(s.(config := config), cfg).(pc := Announcing)
  }

  function ApplyTakeError(s: State): State {
    s.(serverErrors := None, endedBy := s.serverErrors, pc := ChildFailed)
  }

  function ApplyTakeRequest(s: State): State
    requires s.reloadCh.Some?
  {
    s.(reloadCh := None, pc := Handling(s.reloadCh.value.caller, s.reloadCh.value.cfg, Decide))
  }

  /** How a child takes part in a reload in place: it is handed its new settings, or its
  Reload is called and succeeds, fails or is cancelled, or it can do neither. */
  datatype Response = TakesSettings | ReloadsWell | ReloadsBadly | ReloadCut | CannotReload

  /** What the joined errors are taken for: one cancellation among them makes the whole reload
  a cancelled one, whatever else failed. */
  function Joined(responses: seq<Response>): Reply {
    if ReloadCut in responses then ReloadCancelled
    else if ReloadsBadly in responses then ReloadFailed
    else Reloaded
  }

  /** The children are reloaded in place, with whatever result. */
  function ApplyInPlace(s: State, reply: Reply): State
    requires s.pc.Handling?
  {
    s.(config := Some(s.pc.cfg), pc := s.pc.(work := Finish(reply)))
  }

  /** The end of handleReload: the status the reload leads to, and the answer. */
  function Concluded(table: Table, status: Status, reply: Reply): (Status, Reply) {
    match reply
    case Reloaded =>
      if (status, Running) in table then (Running, Reloaded) else (Error, ReloadFailed)
    case ReloadCancelled => (TransitionIf(table, status, Reloading, Running), ReloadCancelled)
    case _ => (Error, reply)
  }

  function AdvanceReload(table: Table, s: State): State
    requires s.pc.Handling?
  {
    var Handling(c, cfg, work) := s.pc;
    match work
    case Decide =>
      var old' := if s.config.Some? then s.config.value else [];
      s.(pc := Handling(c, cfg, if Changed(old', cfg) then StopOld else ReloadInPlace))
    case StopOld =>
      s.(pc := Handling(c, cfg, if s.config.None? then Finish(ReloadFailed) else DiscardError))
    case DiscardError => s.(serverErrors := None, pc := Handling(c, cfg, StoreConfig))
    case StoreConfig => s.(config := Some(cfg), pc := Handling(c, cfg, BootNew))
    case BootNew => Launch(s, cfg).(pc := Handling(c, cfg, Finish(Reloaded)))
    case ReloadInPlace => s
    case Finish(reply) =>
      var (status, answer) := Concluded(table, s.status, reply);
      s.(status := status, gate := Released(s.gate, c), pc := Replying(c, answer, Resume))
  }

  /** The answer goes to a result channel of capacity one. */
  function ApplyReply(s: State): State
    requires s.pc.Replying?
  {
    var Replying(c, reply, next) := s.pc;
    var s := s.(pc := if next.Resume? then Waiting else Draining(next.exit));
    if c in s.callers && s.callers[c].Sent? && s.callers[c].reply.None?
    then s.(callers := s.callers[c := s.callers[c].(reply := Some(reply))])
    else s.(misdirected := true)
  }

  /** One turn of drainReloadCh's loop, up to the transition. */
  function ApplyDrain(s: State): State
    requires s.pc.Draining?
  {
    match s.reloadCh
    case Some(req) => s.(reloadCh := None, pc := Releasing(req.caller, s.pc.exit))
    case None => s.(pc := Afterwards(s.pc.exit))
  }

  /** Where Run goes on after a drain. */
  function Afterwards(exit: Exit): Pc {
    match exit
    case Graceful => ToStopping
    case AfterFailure => StoppingAfterFailure
    case Final => Over
  }

  function ApplyRelease(table: Table, s: State): State
    requires s.pc.Releasing?
  {
    s.(status := TransitionIf(table, s.status, Reloading, Running),
       gate := Released(s.gate, s.pc.caller),
       pc := Replying(s.pc.caller, Abandoned, Drain(s.pc.exit)))
  }

  predicate CanAdvance(s: State) {
    match s.pc
    case NotStarted | Loading | Waiting | Over => false
    case Handling(_, _, work) => !work.ReloadInPlace? && (work.StopOld? ==> GenerationGone(s))
    case StoppingAll | StoppingAfterFailure => GenerationGone(s)
    case _ => true
  }

  /** Neither working on a reload nor draining. */
  predicate Plain(pc: Pc) { !pc.Handling? && !pc.Replying? && !pc.Draining? && !pc.Releasing? }

  function AdvancePlain(table: Table, s: State): State
    requires CanAdvance(s) && Plain(s.pc)
  {
    match s.pc
    case BootFailed => s.(status := Error, pc := Closing)
    case Announcing =>
      if (s.status, Running) in table then s.(status := Running, pc := Waiting) else s.(pc := BootFailed)
    case ChildFailed => s.(status := Error, pc := Draining(AfterFailure))
    case StoppingAfterFailure => s.(pc := Closing)
    case ToStopping => s.(status := TransitionIf(table, s.status, Running, Stopping), pc := StoppingAll)
    case StoppingAll => s.(pc := if s.config.None? then Refused else ToStopped)
    case ToStopped =>
      if (s.status, Stopped) in table then s.(status := Stopped, pc := Closing) else s.(pc := Refused)
    case Refused => s.(status := Error, pc := Closing)
    case Closing => s.(pc := Draining(Final))
  }

  /** Run's next step wherever it has no choice. */
  function Advance(table: Table, s: State): State
    requires CanAdvance(s)
  {
    if s.pc.Handling? then AdvanceReload(table, s)
    else if s.pc.Replying? then ApplyReply(s)
    else if s.pc.Draining? then ApplyDrain(s)
    else if s.pc.Releasing? then ApplyRelease(table, s)
    else AdvancePlain(table, s)
  }

  // ---------------------------------------------------------------- runs

  datatype Event =
    | Call(c: CallerId, ctxDone: bool)
    | Callback(c: CallerId, result: Option<Config>)
    | Send(c: CallerId)
    | Abort(c: CallerId, reason: Outcome)
    | Escalate(c: CallerId)
    | Receive(c: CallerId)
    | ChildExits(child: Child, failed: bool)
    | Begin
    | FirstBoot(loaded: Option<Config>)
    | Leave
    | TakeError
    | TakeRequest
    | InPlace(reply: Reply)
    | Proceed

  predicate CallerEnabled(s: State, e: Event) {
    match e
    case Call(c, _) => c !in s.callers
    case Callback(c, _) => c in s.callers && s.callers[c].Admitted?
    case Send(c) => c in s.callers && s.callers[c].Ready? && s.reloadCh.None?
    case Abort(c, reason) =>
      && c in s.callers && s.callers[c].Ready?
      && (reason == CtxDone || (reason == RunnerDone && DoneClosed(s.pc)))
    case Escalate(c) => c in s.callers && s.callers[c].Aborting?
    case Receive(c) => c in s.callers && s.callers[c].Sent? && s.callers[c].reply.Some?
    case _ => false
  }

  predicate Enabled(s: State, e: Event) {
    match e
    case ChildExits(child, _) => child in s.running
    case Begin => s.pc.NotStarted?
    case FirstBoot(_) => s.pc.Loading?
    case Leave => s.pc.Waiting?
    case TakeError => s.pc.Waiting? && s.serverErrors.Some?
    case TakeRequest => s.pc.Waiting? && s.reloadCh.Some?
    case InPlace(reply) => s.pc.Handling? && s.pc.work.ReloadInPlace? && !reply.Abandoned?
    case Proceed => CanAdvance(s)
    case _ => CallerEnabled(s, e)
  }

  function ApplyCaller(table: Table, s: State, e: Event): State
    requires CallerEnabled(s, e)
  {
    match e
    case Call(c, ctxDone) => ApplyCall(table, s, c, ctxDone)
    case Callback(c, result) => ApplyCallback(s, c, result)
    case Send(c) => ApplySend(s, c)
    case Abort(c, reason) => ApplyAbort(table, s, c, reason)
    case Escalate(c) => ApplyEscalate(s, c)
    case Receive(c) => ApplyReceive(s, c)
  }

  function Apply(table: Table, s: State, e: Event): State
    requires Enabled(s, e)
  {
    match e
    case ChildExits(child, failed) => ApplyExit(s, child, failed)
    case Begin => ApplyBegin(table, s)
    case FirstBoot(loaded) => ApplyFirstBoot(s, loaded)
    case Leave => s.(pc := Draining(Graceful))
    case TakeError => ApplyTakeError(s)
    case TakeRequest => ApplyTakeRequest(s)
    case InPlace(reply) => ApplyInPlace(s, reply)
    case Proceed => Advance(table, s)
    case _ => ApplyCaller(table, s, e)
  }

  predicate IsRun(table: Table, s: State, events: seq<Event>)
    decreases |events|
  {
    events == [] || (Enabled(s, events[0]) && IsRun(table, Apply(table, s, events[0]), events[1..]))
  }

  function Reach(table: Table, s: State, events: seq<Event>): State
    requires IsRun(table, s, events)
    decreases |events|
  {
    if events == [] then s else Reach(table, Apply(table, s, events[0]), events[1..])
  }
}
