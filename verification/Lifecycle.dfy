/** StartStop: the synchronisation of Run and Stop, reusable across cycles.

First the protocol as a transition system over its critical sections, with any number of
runs and of concurrent Stop calls, then the code, proved to take exactly those steps. */
module Lifecycle {
  import opened Wrappers

  type Channel = nat

  /** One Run call: the stop channel it listens on, and whether its done function ran. */
  datatype Run = Run(stopCh: Channel, ended: bool)

  /** Where a Stop call stands: it has signalled and waits for a start; it waits for the
  run whose done channel it read; it has returned. `cycle` is the number of resets that
  had happened when it signalled. */
  datatype Stopper =
    | Signalled(startedCh: Channel, cycle: nat)
    | Awaiting(doneCh: Option<Channel>, sameCycle: bool)
    | Returned(doneCh: Option<Channel>)

  datatype State = State(
    stopCh: Channel,
    startedCh: Channel,
    doneCh: Option<Channel>,
    stopped: bool,
    closed: set<Channel>,
    next: Channel,               // channels are numbered in the order of their creation
    closedTwice: bool,           // the runtime would have panicked
    resets: nat,
    lastSignal: Option<nat>,     // the cycle of the latest Stop signal
    runs: map<Channel, Run>,     // by done channel
    stoppers: map<nat, Stopper>)

  function Initial(): State {
    State(0, 1, None, false, {}, 2, false, 0, None, map[], map[])
  }

  function Close(s: State, ch: Channel): State {
    s.(closed := s.closed + {ch}, closedTwice := s.closedTwice || ch in s.closed)
  }

  /** A completed earlier run makes Started reset the lifecycle. */
  function Renewed(s: State): State {
    if s.doneCh.Some? && s.doneCh.value in s.closed then
      s.(stopCh := s.next, startedCh := s.next + 1, stopped := false, next := s.next + 2, resets := s.resets + 1)
    else s
  }

  function Registered(s: State, done: Channel): State {
    s.(doneCh := Some(done), runs := s.runs[done := Run(s.stopCh, false)])
  }

  /** Waiting Stop calls may go on. */
  function Opened(s: State): State {
    if s.startedCh in s.closed then s else Close(s, s.startedCh)
  }

  function Announced(s: State, done: Channel): State { Opened(Registered(s, done)) }

  /** Started: a new run. */
  function ApplyStarted(s: State): State {
    Announced(Renewed(s.(next := s.next + 1)), s.next)
  }

  /** The done function; a sync.Once makes repeated calls harmless. */
  function ApplyDone(s: State, done: Channel): State
    requires done in s.runs
  {
    if s.runs[done].ended then s
    else Close(s.(runs := s.runs[done := s.runs[done].(ended := true)]), done)
  }

  /** First critical section of Stop. */
  function ApplySignal(s: State, caller: nat): State {
    var s := if s.stopped then s else Close(s.(stopped := true), s.stopCh);
    s.(lastSignal := Some(s.resets), stoppers := s.stoppers[caller := Signalled(s.startedCh, s.resets)])
  }

  /** Second critical section of Stop. */
  function ApplyRead(s: State, caller: nat): State
    requires caller in s.stoppers && s.stoppers[caller].Signalled?
  {
    s.(stoppers := s.stoppers[caller := Awaiting(s.doneCh, s.stoppers[caller].cycle == s.resets)])
  }

  function ApplyReturn(s: State, caller: nat): State
    requires caller in s.stoppers && s.stoppers[caller].Awaiting?
  {
    s.(stoppers := s.stoppers[caller := Returned(s.stoppers[caller].doneCh)])
  }

  datatype Event = Started | Done(done: Channel) | Signal(caller: nat) | Read(caller: nat) | Return(caller: nat)

  /** A receive goes through once the channel is closed; on a nil channel it never does. */
  predicate Enabled(s: State, e: Event) {
    match e
    case Started => true
    case Done(done) => done in s.runs
    case Signal(caller) => caller !in s.stoppers
    case Read(caller) =>
      caller in s.stoppers && s.stoppers[caller].Signalled? && s.stoppers[caller].startedCh in s.closed
    case Return(caller) =>
      && caller in s.stoppers && s.stoppers[caller].Awaiting?
      && s.stoppers[caller].doneCh.Some? && s.stoppers[caller].doneCh.value in s.closed
  }

  function Apply(s: State, e: Event): State
    requires Enabled(s, e)
  {
    match e
    case Started => ApplyStarted(s)
    case Done(done) => ApplyDone(s, done)
    case Signal(caller) => ApplySignal(s, caller)
    case Read(caller) => ApplyRead(s, caller)
    case Return(caller) => ApplyReturn(s, caller)
  }

  predicate IsRun(s: State, events: seq<Event>)
    decreases |events|
  {
    events == [] || (Enabled(s, events[0]) && IsRun(Apply(s, events[0]), events[1..]))
  }

  function Reach(s: State, events: seq<Event>): State
    requires IsRun(s, events)
    decreases |events|
  {
    if events == [] then s else Reach(Apply(s, events[0]), events[1..])
  }

  // ---------------------------------------------------------------- the invariant

  ghost predicate ChannelsInv(s: State) {
    && s.stopCh < s.next && s.startedCh < s.next && s.stopCh != s.startedCh
    && (forall ch :: ch in s.closed ==> ch < s.next)
    && (forall d :: d in s.runs ==> d < s.next && d != s.stopCh && d != s.startedCh && s.runs[d].stopCh < s.next)
    && !s.closedTwice
  }

  ghost predicate FlagsInv(s: State) {
    && (s.stopped <==> s.stopCh in s.closed)
    && (s.stopped <==> s.lastSignal == Some(s.resets))
    && (s.lastSignal.Some? ==> s.lastSignal.value <= s.resets)
    && (s.startedCh in s.closed <==> s.doneCh.Some?)
    && (s.doneCh.Some? ==> s.doneCh.value in s.runs && s.runs[s.doneCh.value].stopCh == s.stopCh)
    && (forall d :: d in s.runs ==> (s.runs[d].ended <==> d in s.closed))
  }

  ghost predicate StopperInv(s: State, t: Stopper) {
    match t
    case Signalled(startedCh, cycle) =>
      && cycle <= s.resets
      && (cycle == s.resets ==> s.stopped)
      && (startedCh == s.startedCh || (startedCh in s.closed && s.doneCh.Some?))
    case Awaiting(doneCh, sameCycle) =>
      && doneCh.Some? && doneCh.value in s.runs
      && (sameCycle ==> s.runs[doneCh.value].stopCh in s.closed)
    case Returned(doneCh) =>
      && doneCh.Some? && doneCh.value in s.runs && s.runs[doneCh.value].ended
  }

  ghost predicate Inv(s: State) {
    && ChannelsInv(s) && FlagsInv(s)
    && forall c :: c in s.stoppers ==> StopperInv(s, s.stoppers[c])
  }

  lemma StepKeepsInv(s: State, e: Event)
    requires Inv(s) && Enabled(s, e)
    ensures Inv(Apply(s, e))
  {
    match e
    case Started => StartedKeepsInv(s);
    case Done(done) => DoneKeepsInv(s, done);
    case _ => StopKeepsInv(s, e);
  }

  lemma StartedKeepsInv(s: State)
    requires Inv(s)
    ensures Inv(ApplyStarted(s))
  {
    var t := ApplyStarted(s);
    forall c | c in t.stoppers ensures StopperInv(t, t.stoppers[c]) { assert StopperInv(s, s.stoppers[c]); }
  }

  lemma DoneKeepsInv(s: State, done: Channel)
    requires Inv(s) && done in s.runs
    ensures Inv(ApplyDone(s, done))
  {
    var t := ApplyDone(s, done);
    forall c | c in t.stoppers ensures StopperInv(t, t.stoppers[c]) { assert StopperInv(s, s.stoppers[c]); }
  }

  lemma StopKeepsInv(s: State, e: Event)
    requires Inv(s) && Enabled(s, e) && (e.Signal? || e.Read? || e.Return?)
    ensures Inv(Apply(s, e))
  {
    var t := Apply(s, e);
    forall c | c in t.stoppers ensures StopperInv(t, t.stoppers[c]) {
      if c in s.stoppers { assert StopperInv(s, s.stoppers[c]); }
    }
  }

  /** Over every interleaving of runs and stops: no channel is closed twice, `stopped`
  says whether the stop channel is closed, no Stop waits on a nil channel, and a Stop that
  returned did so after the run it waited for had ended. */
  lemma {:induction false} RunKeepsInv(s: State, events: seq<Event>)
    requires Inv(s) && IsRun(s, events)
    ensures Inv(Reach(s, events))
    decreases |events|
  {
    if events != [] {
      StepKeepsInv(s, events[0]);
      RunKeepsInv(Apply(s, events[0]), events[1..]);
    }
  }

  /** The run with that done channel has called its done function. */
  predicate Ended(s: State, doneCh: Option<Channel>) {
    doneCh.Some? && doneCh.value in s.runs && s.runs[doneCh.value].ended
  }

  lemma EveryInterleavingIsSafe(events: seq<Event>)
    requires IsRun(Initial(), events)
    ensures var s := Reach(Initial(), events);
      && !s.closedTwice
      && (s.stopped <==> s.stopCh in s.closed)
      && (forall c :: c in s.stoppers ==>
            && (s.stoppers[c].Awaiting? ==> s.stoppers[c].doneCh.Some?)
            && (s.stoppers[c].Returned? ==> Ended(s, s.stoppers[c].doneCh)))
  {
    RunKeepsInv(Initial(), events);
    var s := Reach(Initial(), events);
    assert forall c :: c in s.stoppers ==> StopperInv(s, s.stoppers[c]);
  }

  /** The run that a Stop waits for has been told to stop exactly when some Stop signalled
  in the current cycle; in particular when no reset fell between the two critical sections
  of this one. */
  lemma StopWaitsForAToldRun(s: State, caller: nat)
    requires Inv(s) && Enabled(s, Read(caller))
    ensures s.doneCh.Some? && s.doneCh.value in s.runs
    ensures s.runs[s.doneCh.value].stopCh in s.closed <==> s.lastSignal == Some(s.resets)
    ensures s.stoppers[caller].cycle == s.resets ==> s.runs[s.doneCh.value].stopCh in s.closed
  {
    assert StopperInv(s, s.stoppers[caller]);
  }

  /** A new run gets an open done channel and the current stop channel, and every Stop may go
  on to wait for it. The stop channel is a new, open one exactly when the run before it had
  ended; otherwise it stays, signalled or not. */
  lemma StartedRenewsExactlyWhen(s: State)
    requires Inv(s)
    ensures
      var t := ApplyStarted(s);
      var renewed := s.doneCh.Some? && s.runs[s.doneCh.value].ended;
      && t.doneCh.Some? && t.doneCh.value !in s.runs && t.doneCh.value !in t.closed
      && t.runs == s.runs[t.doneCh.value := Run(t.stopCh, false)]
      && t.startedCh in t.closed && t.stoppers == s.stoppers
      && (if renewed then t.stopCh >= s.next && t.stopCh !in t.closed && !t.stopped
          else t.stopCh == s.stopCh && t.startedCh == s.startedCh && t.stopped == s.stopped)
      && t.resets == s.resets + (if renewed then 1 else 0)
  {}

  /** No Stop is stuck: one that has signalled goes on as soon as any run has started, and
  one that waits for a run returns as soon as that run has ended. */
  lemma StopGoesOn(events: seq<Event>, caller: nat)
    requires IsRun(Initial(), events) && caller in Reach(Initial(), events).stoppers
    ensures var s := Reach(Initial(), events);
      match s.stoppers[caller]
      case Signalled(_, _) => s.doneCh.Some? <==> Enabled(s, Read(caller))
      case Awaiting(doneCh, _) => Ended(s, doneCh) <==> Enabled(s, Return(caller))
      case Returned(doneCh) => Ended(s, doneCh)
  {
    RunKeepsInv(Initial(), events);
    var s := Reach(Initial(), events);
    assert StopperInv(s, s.stoppers[caller]);
  }

  /** When a reset does fall in between, Stop can end up waiting for a later run that
  nobody has told to stop. */
  lemma StopCanWaitForAnUntoldRun() returns (events: seq<Event>)
    ensures IsRun(Initial(), events)
    ensures var s := Reach(Initial(), events);
      && 7 in s.stoppers && s.stoppers[7].Awaiting? && s.stoppers[7].doneCh.Some?
      && s.stoppers[7].doneCh.value in s.runs
      && !s.runs[s.stoppers[7].doneCh.value].ended
      && s.runs[s.stoppers[7].doneCh.value].stopCh !in s.closed
  {
    var s0 := Initial();
    var s1 := Apply(s0, Started);
    var s2 := Apply(s1, Signal(7));
    var s3 := Apply(s2, Done(2));
    var s4 := Apply(s3, Started);
    var s5 := Apply(s4, Read(7));
    assert s5.stoppers[7] == Awaiting(Some(3), false) && s5.runs[3].stopCh == 4 && 4 !in s5.closed;
    assert Reach(s5, []) == s5;
    assert [Read(7)][1..] == [];
    assert Reach(s4, [Read(7)]) == s5;
    assert [Started, Read(7)][1..] == [Read(7)];
    assert Reach(s3, [Started, Read(7)]) == s5;
    assert [Done(2), Started, Read(7)][1..] == [Started, Read(7)];
    assert Reach(s2, [Done(2), Started, Read(7)]) == s5;
    assert [Signal(7), Done(2), Started, Read(7)][1..] == [Done(2), Started, Read(7)];
    assert Reach(s1, [Signal(7), Done(2), Started, Read(7)]) == s5;
    events := [Started, Signal(7), Done(2), Started, Read(7)];
    assert events[1..] == [Signal(7), Done(2), Started, Read(7)];
  }

  // ---------------------------------------------------------------- the code

  predicate Unused(s: State, ch: Channel) {
    ch < s.next && ch !in s.runs && ch !in s.closed && ch != s.stopCh && ch != s.startedCh
  }

  lemma NumberIsUnused(s: State)
    requires ChannelsInv(s)
    ensures Unused(Renewed(s.(next := s.next + 1)), s.next)
  {}

  class Chan {
    var isClosed: bool
    ghost const serial: Channel

    constructor (ghost serial: Channel)
      ensures !isClosed && this.serial == serial
    {
      this.serial, isClosed := serial, false;
    }

    /** Closing a closed channel panics. */
    method Close()
      requires !isClosed
      modifies this
      ensures isClosed
    {
      isClosed := true;
    }
  }

  class StartStop {
    var stopCh: Chan
    var startedCh: Chan
    var doneCh: Chan?
    var stopped: bool
    ghost var model: State
    ghost var issued: map<Channel, Chan>    // the done channel of every run so far

    /** A channel object stands for its number in the model. */
    ghost predicate Mirrors(ch: Chan, number: Channel)
      reads ch, this`model
    {
      ch.serial == number && (ch.isClosed <==> number in model.closed)
    }

    /** The objects are those the model speaks of. */
    ghost predicate Linked()
      reads this, stopCh, startedCh, doneCh, issued.Values
    {
      && ChannelsInv(model)
      && Mirrors(stopCh, model.stopCh) && Mirrors(startedCh, model.startedCh) && stopCh != startedCh
      && issued.Keys == model.runs.Keys && (forall n :: n in issued ==> Mirrors(issued[n], n))
      && (doneCh == null <==> model.doneCh == None)
      && (doneCh != null ==> model.doneCh.Some? && model.doneCh.value in issued && issued[model.doneCh.value] == doneCh)
      && stopped == model.stopped
    }

    ghost predicate Valid()
      reads this, stopCh, startedCh, doneCh, issued.Values
    {
      Inv(model) && Linked()
    }

    constructor ()
      ensures Valid() && model == Initial()
    {
      var stop := new Chan(0);
      var started := new Chan(1);
      stopCh, startedCh, doneCh, stopped := stop, started, null, false;
      model, issued := Initial(), map[];
    }

    method MarkStarted() returns (done: Chan)
      requires Valid()
      modifies this, startedCh
      ensures Valid()
      ensures model == ApplyStarted(old(model))
      ensures fresh(done) && doneCh == done && issued == old(issued)[done.serial := done]
      ensures !done.isClosed && startedCh.isClosed
      ensures if old(doneCh) != null && old(doneCh.isClosed)
        then fresh(stopCh) && !stopCh.isClosed && !stopped
        else stopCh == old(stopCh) && startedCh == old(startedCh) && stopped == old(stopped)
    {
      StartedKeepsInv(model);
      done := Begin();
    }

    method Begin() returns (done: Chan)
      requires Linked()
      modifies this, startedCh
      ensures Linked() && model == ApplyStarted(old(model))
      ensures fresh(done) && doneCh == done && issued == old(issued)[done.serial := done]
      ensures !done.isClosed && startedCh.isClosed
      ensures if old(doneCh) != null && old(doneCh.isClosed)
        then fresh(stopCh) && !stopCh.isClosed && !stopped
        else stopCh == old(stopCh) && startedCh == old(startedCh) && stopped == old(stopped)
    {
      done := Prepare();
      Announce(done);
    }

    method Prepare() returns (done: Chan)
      requires Linked()
      modifies this`stopCh, this`startedCh, this`stopped, this`model
      ensures Linked() && model == Renewed(old(model).(next := old(model).next + 1))
      ensures startedCh == old(startedCh) || fresh(startedCh)
      ensures fresh(done) && !done.isClosed && done.serial == old(model).next && Unused(model, done.serial)
      ensures if old(doneCh) != null && old(doneCh.isClosed)
        then fresh(stopCh) && !stopCh.isClosed && !stopped
        else stopCh == old(stopCh) && startedCh == old(startedCh) && stopped == old(stopped)
    {
      NumberIsUnused(model);
      done := NewDone();
      Renew();
    }

    method NewDone() returns (done: Chan)
      requires Linked()
      modifies this`model
      ensures Linked() && model == old(model).(next := old(model).next + 1)
      ensures fresh(done) && !done.isClosed && done.serial == old(model).next
    {
      done := new Chan(model.next);
      model := model.(next := model.next + 1);
    }

    method Renew()
      requires Linked()
      modifies this`stopCh, this`startedCh, this`stopped, this`model
      ensures Linked() && model == Renewed(old(model))
      ensures startedCh == old(startedCh) || fresh(startedCh)
      ensures stopCh == old(stopCh) || fresh(stopCh)
      ensures if old(doneCh) != null && old(doneCh.isClosed)
        then fresh(stopCh) && !stopCh.isClosed && !stopped
        else stopCh == old(stopCh) && startedCh == old(startedCh) && stopped == old(stopped)
    {
      if doneCh != null && doneCh.isClosed { Replace(); }
    }

    method Replace()
      requires Linked() && doneCh != null && doneCh.isClosed
      modifies this`stopCh, this`startedCh, this`stopped, this`model
      ensures Linked() && model == Renewed(old(model))
      ensures fresh(startedCh) && fresh(stopCh) && !stopCh.isClosed && !stopped
    {
      stopCh := new Chan(model.next);
      startedCh := new Chan(model.next + 1);
      stopped := false;
      model := Renewed(model);
    }

    method Announce(done: Chan)
      requires Linked() && !done.isClosed && Unused(model, done.serial)
      modifies this`doneCh, this`issued, this`model, startedCh
      ensures Linked() && model == Announced(old(model), done.serial)
      ensures doneCh == done && issued == old(issued)[done.serial := done]
      ensures !done.isClosed && startedCh.isClosed
    {
      Register(done);
      CloseStarted();
    }

    method Register(done: Chan)
      requires Linked() && !done.isClosed && Unused(model, done.serial)
      modifies this`doneCh, this`issued, this`model
      ensures Linked() && model == Registered(old(model), done.serial)
      ensures doneCh == done && issued == old(issued)[done.serial := done]
    {
      doneCh := done;
      issued := issued[done.serial := done];
      model := Registered(model, done.serial);
    }

    method CloseStarted()
      requires Linked()
      modifies this`model, startedCh
      ensures Linked() && model == Opened(old(model)) && startedCh.isClosed
    {
      model := Opened(model);
      if !startedCh.isClosed {
        startedCh.Close();
      }
    }

    /** The function Started returns, for the run whose done channel it closed over. */
    method MarkDone(done: Chan)
      requires Valid() && done.serial in issued && issued[done.serial] == done
      modifies this`model, done
      ensures Valid()
      ensures model == ApplyDone(old(model), done.serial)
      ensures done.isClosed && done.serial in model.runs && model.runs[done.serial].ended
    {
      if !done.isClosed {
        done.Close();
      }
      StepKeepsInv(model, Done(done.serial));
      model := ApplyDone(model, done.serial);
    }

    /** First critical section of Stop: signal, and fetch the channel to wait on. */
    method SignalStop(ghost caller: nat) returns (started: Chan)
      requires Valid() && caller !in model.stoppers
      modifies this`stopped, this`model, stopCh
      ensures Valid()
      ensures model == ApplySignal(old(model), caller)
      ensures started == startedCh && stopped && stopCh.isClosed
    {
      if !stopped {
        stopped := true;
        stopCh.Close();
      }
      started := startedCh;
      StepKeepsInv(model, Signal(caller));
      model := ApplySignal(model, caller);
    }

    /** Second critical section: fetch the done channel of the run to wait for. The caller
    has seen the started channel closed, so it is not nil. */
    method ReadDone(ghost caller: nat) returns (done: Chan?)
      requires Valid() && Enabled(model, Read(caller))
      modifies this`model
      ensures Valid()
      ensures model == ApplyRead(old(model), caller)
      ensures done == doneCh && done != null
    {
      done := doneCh;
      assert StopperInv(model, model.stoppers[caller]);
      StepKeepsInv(model, Read(caller));
      model := ApplyRead(model, caller);
    }
  }
}
