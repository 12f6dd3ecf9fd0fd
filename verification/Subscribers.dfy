/** The supervisor's state subscribers: registration, broadcasts, cancellation.

First the protocol as a transition system over its critical sections, then the code. A
snapshot of all states is represented by how many state changes it has seen. */
module Subscribers {
  import opened Wrappers

  type ChanId = nat
  type Version = nat

  /** The goroutine that SubscribeStateChanges starts: it waits for a cancelled context, then
  unsubscribes, then closes the channel. */
  datatype Watcher = Watching | Unsubscribing | Closing | Gone

  /** `watcher` is None for a channel the caller made for AddStateSubscriber. The rest is
  recorded: the newest snapshot offered while subscribed, the newest that entered the
  buffer, whether one was ever dropped, and what entered the buffer and was received. */
  datatype Channel = Channel(cap: nat, queue: seq<Version>, closed: bool, watcher: Option<Watcher>,
                             offered: Version, accepted: Version, lossy: bool,
                             taken: seq<Version>, received: seq<Version>)

  function NewChannel(cap: nat, watcher: Option<Watcher>): Channel {
    Channel(cap, [], false, watcher, 0, 0, false, [], [])
  }

  /** A send that does not block: the snapshot is dropped when there is no room. */
  function Offer(queue: seq<Version>, cap: nat, v: Version): seq<Version> {
    if |queue| < cap then queue + [v] else queue
  }

  /** A call of broadcastState: `cause` is the state change that led to it. */
  datatype Broadcast =
    | Called(cause: Version)
    | Prepared(cause: Version, snapshot: Version)
    | Finished(cause: Version)

  /** `adding` is the channel whose registration holds the mutex. The last two fields
  record run-time panics: a second close, and sends to closed channels. */
  datatype State = State(
    version: Version,
    chans: map<ChanId, Channel>,
    subscribers: set<ChanId>,
    adding: Option<ChanId>,
    broadcasts: map<nat, Broadcast>,
    closedTwice: bool,
    sentToClosed: set<ChanId>)

  const SUBSCRIPTION_BUFFER := 10

  datatype Event =
    | Change                                             // a runnable changes its state
    | Register(ch: ChanId, own: Option<nat>)             // AddStateSubscriber takes the mutex
    | FirstSnapshot                                      // ... and sends the snapshot
    | Cancel(ch: ChanId) | Unsubscribe(ch: ChanId) | Close(ch: ChanId)
    | CallerUnsubscribes(ch: ChanId) | CallerCloses(ch: ChanId)
    | Call(b: nat, cause: Version) | Prepare(b: nat) | Deliver(b: nat)
    | Receive(ch: ChanId)

  predicate Enabled(s: State, e: Event) {
    match e
    case Change => true
    case Register(ch, own) => s.adding.None? && (ch !in s.chans || (own.Some? && CallersOwn(s, ch)))
    case FirstSnapshot => s.adding.Some? && s.adding.value in s.chans
    case Cancel(ch) => ch in s.chans && s.chans[ch].watcher == Some(Watching) && s.adding != Some(ch)
    case Unsubscribe(ch) => ch in s.chans && s.chans[ch].watcher == Some(Unsubscribing) && s.adding.None?
    case Close(ch) => ch in s.chans && s.chans[ch].watcher == Some(Closing)
    case CallerUnsubscribes(ch) => CallersOwn(s, ch) && s.adding.None?
    case CallerCloses(ch) => CallersOwn(s, ch)
    case Call(b, cause) => b !in s.broadcasts && cause <= s.version
    case Prepare(b) => b in s.broadcasts && s.broadcasts[b].Called?
    case Deliver(b) => b in s.broadcasts && s.broadcasts[b].Prepared? && s.adding.None?
    case Receive(ch) => ch in s.chans && s.chans[ch].queue != []
  }

  predicate CallersOwn(s: State, ch: ChanId) { ch in s.chans && s.chans[ch].watcher.None? }

  function ApplyRegister(s: State, ch: ChanId, own: Option<nat>): State {
    var chans :=
      if ch in s.chans then s.chans
      else s.chans[ch := if own.Some? then NewChannel(own.value, None)
                         else NewChannel(SUBSCRIPTION_BUFFER, Some(Watching))];
    s.(chans := chans, subscribers := s.subscribers + {ch}, adding := Some(ch))
  }

  function Later(a: Version, b: Version): Version { if a < b then b else a }

  predicate HasRoom(c: Channel) { !c.closed && |c.queue| < c.cap }

  function Sent(c: Channel, v: Version): Channel {
    var c := c.(offered := Later(c.offered, v));
    if HasRoom(c) then c.(queue := Offer(c.queue, c.cap, v), accepted := Later(c.accepted, v), taken := c.taken + [v])
    else c.(lossy := true)
  }

  function ApplyFirstSnapshot(s: State): State
    requires s.adding.Some? && s.adding.value in s.chans
  {
    var ch := s.adding.value;
    s.(chans := s.chans[ch := Sent(s.chans[ch], s.version)], adding := None,
       sentToClosed := s.sentToClosed + if s.chans[ch].closed then {ch} else {})
  }

  function ClosedSubscribers(s: State): set<ChanId> {
    set ch | ch in s.subscribers && ch in s.chans && s.chans[ch].closed
  }

  /** Every subscriber is offered the snapshot. */
  function ApplyDeliver(s: State, b: nat): State
    requires b in s.broadcasts && s.broadcasts[b].Prepared?
  {
    var v := s.broadcasts[b].snapshot;
    s.(chans := map ch | ch in s.chans :: if ch in s.subscribers then Sent(s.chans[ch], v) else s.chans[ch],
       sentToClosed := s.sentToClosed + ClosedSubscribers(s),
       broadcasts := s.broadcasts[b := Finished(s.broadcasts[b].cause)])
  }

  /** Without subscribers no snapshot is taken. */
  function ApplyPrepare(s: State, b: nat): State
    requires b in s.broadcasts && s.broadcasts[b].Called?
  {
    var cause := s.broadcasts[b].cause;
    s.(broadcasts := s.broadcasts[b := if s.subscribers == {} then Finished(cause) else Prepared(cause, s.version)])
  }

  function Moved(s: State, ch: ChanId, watcher: Watcher): State
    requires ch in s.chans
  {
    s.(chans := s.chans[ch := s.chans[ch].(watcher := Some(watcher))])
  }

  function Closed(s: State, ch: ChanId): State
    requires ch in s.chans
  {
    s.(chans := s.chans[ch := s.chans[ch].(closed := true)])
  }

  /** The oldest snapshot in the buffer goes to the subscriber. */
  function Received(c: Channel): Channel
    requires c.queue != []
  {
    c.(queue := c.queue[1..], received := c.received + [c.queue[0]])
  }

  function Apply(s: State, e: Event): State
    requires Enabled(s, e)
  {
    match e
    case Change => s.(version := s.version + 1)
    case Register(ch, own) => ApplyRegister(s, ch, own)
    case FirstSnapshot => ApplyFirstSnapshot(s)
    case Cancel(ch) => Moved(s, ch, Unsubscribing)
    case Unsubscribe(ch) => Moved(s, ch, Closing).(subscribers := s.subscribers - {ch})
    case Close(ch) => Moved(Closed(s, ch), ch, Gone).(closedTwice := s.closedTwice || s.chans[ch].closed)
    case CallerUnsubscribes(ch) => s.(subscribers := s.subscribers - {ch})
    case CallerCloses(ch) => Closed(s, ch)
    case Call(b, cause) => s.(broadcasts := s.broadcasts[b := Called(cause)])
    case Prepare(b) => ApplyPrepare(s, b)
    case Deliver(b) => ApplyDeliver(s, b)
    case Receive(ch) => s.(chans := s.chans[ch := Received(s.chans[ch])])
  }

  function Initial(): State { State(0, map[], {}, None, map[], false, {}) }

  predicate IsRun(s: State, events: seq<Event>)
    decreases |events|
  {
    events == [] || (Enabled(s, events[0]) && IsRun(Apply(s, events[0]), events[1..]))
  }

  function Reach(s: State, events: seq<Event>): State
    requires IsRun(s, events)
    decreases |events|
  {
    if events == [] then s else Reach(Apply(s, events[0]), events[1..])
  }

  // ---------------------------------------------------------------- the invariant

  predicate ChannelInv(s: State, ch: ChanId)
    requires ch in s.chans
  {
    var c := s.chans[ch];
    && |c.queue| <= c.cap
    && c.offered <= s.version
    && (!c.lossy ==> c.accepted == c.offered)
    && (c.watcher.Some? ==>
          && (c.closed <==> c.watcher.value.Gone?)
          && (ch in s.subscribers <==> c.watcher.value.Watching? || c.watcher.value.Unsubscribing?)
          && ch !in s.sentToClosed
          && (s.adding == Some(ch) ==> c.watcher.value.Watching?))
  }

  /** What entered the buffer has been received or is still there, in the same order. */
  predicate Conserved(c: Channel) { c.taken == c.received + c.queue }

  /** A snapshot is at least as new as the change that caused it. */
  predicate BroadcastInv(s: State, b: nat)
    requires b in s.broadcasts
  {
    match s.broadcasts[b]
    case Prepared(cause, snapshot) => cause <= snapshot <= s.version
    case Called(cause) => cause <= s.version
    case Finished(cause) => cause <= s.version
  }

  /** A broadcast that is over concerned a change that the subscriber was offered. */
  predicate Informed(s: State, ch: ChanId, b: nat)
    requires ch in s.chans && b in s.broadcasts
  {
    s.broadcasts[b].Finished? && ch in s.subscribers && s.adding != Some(ch) ==>
      s.broadcasts[b].cause <= s.chans[ch].offered
  }

  ghost predicate Inv(s: State) {
    && !s.closedTwice
    && s.subscribers <= s.chans.Keys && s.sentToClosed <= s.chans.Keys
    && (s.adding.Some? ==> s.adding.value in s.subscribers)
    && (forall ch :: ch in s.chans ==> ChannelInv(s, ch) && Conserved(s.chans[ch]))
    && (forall b :: b in s.broadcasts ==> BroadcastInv(s, b))
    && (forall ch, b :: ch in s.chans && b in s.broadcasts ==> Informed(s, ch, b))
  }

  lemma StepKeepsChannels(s: State, e: Event)
    requires Inv(s) && Enabled(s, e)
    ensures forall ch :: ch in Apply(s, e).chans ==> ChannelInv(Apply(s, e), ch)
  {
    if e.Deliver? {
      DeliveryKeepsChannels(s, e.b);
    } else if e.FirstSnapshot? || e.Receive? {
      TrafficKeepsChannels(s, e);
    } else {
      var t := Apply(s, e);
      forall ch | ch in t.chans ensures ChannelInv(t, ch) {
        if ch in s.chans { assert ChannelInv(s, ch); }
      }
    }
  }

  lemma DeliveryKeepsChannels(s: State, b: nat)
    requires Inv(s) && Enabled(s, Deliver(b))
    ensures forall ch :: ch in ApplyDeliver(s, b).chans ==> ChannelInv(ApplyDeliver(s, b), ch)
  {
    var t := ApplyDeliver(s, b);
    assert BroadcastInv(s, b);
    forall ch | ch in t.chans ensures ChannelInv(t, ch) { assert ChannelInv(s, ch); }
  }

  lemma TrafficKeepsChannels(s: State, e: Event)
    requires Inv(s) && Enabled(s, e) && (e.FirstSnapshot? || e.Receive?)
    ensures forall ch :: ch in Apply(s, e).chans ==> ChannelInv(Apply(s, e), ch)
  {
    var t := Apply(s, e);
    forall ch | ch in t.chans ensures ChannelInv(t, ch) { assert ChannelInv(s, ch); }
  }

  lemma SendingConserves(c: Channel, v: Version)
    requires Conserved(c)
    ensures Conserved(Sent(c, v))
  {
    assert c.received + (c.queue + [v]) == (c.received + c.queue) + [v];
  }

  lemma ReceivingConserves(c: Channel)
    requires Conserved(c) && c.queue != []
    ensures Conserved(Received(c))
  {
    assert c.queue == [c.queue[0]] + c.queue[1..];
  }

  lemma StepConserves(s: State, e: Event)
    requires Enabled(s, e) && forall ch :: ch in s.chans ==> Conserved(s.chans[ch])
    ensures forall ch :: ch in Apply(s, e).chans ==> Conserved(Apply(s, e).chans[ch])
  {
    var t := Apply(s, e);
    forall ch | ch in t.chans ensures Conserved(t.chans[ch]) {
      if e.Deliver? && ch in s.subscribers {
        SendingConserves(s.chans[ch], s.broadcasts[e.b].snapshot);
      } else if e.FirstSnapshot? && s.adding == Some(ch) {
        SendingConserves(s.chans[ch], s.version);
      } else if e.Receive? && e.ch == ch {
        ReceivingConserves(s.chans[ch]);
      }
    }
  }

  lemma StepKeepsInformed(s: State, e: Event)
    requires Inv(s) && Enabled(s, e)
    ensures var t := Apply(s, e);
      forall ch, b :: ch in t.chans && b in t.broadcasts ==> Informed(t, ch, b)
  {
    var t := Apply(s, e);
    forall ch, b | ch in t.chans && b in t.broadcasts ensures Informed(t, ch, b) {
      if ch in s.chans && b in s.broadcasts { assert Informed(s, ch, b); }
      if b in s.broadcasts { assert BroadcastInv(s, b); }
    }
  }

  lemma StepKeepsInv(s: State, e: Event)
    requires Inv(s) && Enabled(s, e)
    ensures Inv(Apply(s, e))
  {
    var t := Apply(s, e);
    StepKeepsChannels(s, e);
    StepConserves(s, e);
    StepKeepsInformed(s, e);
    forall b | b in t.broadcasts ensures BroadcastInv(t, b) {
      if b in s.broadcasts { assert BroadcastInv(s, b); }
    }
    if e.Close? { assert ChannelInv(s, e.ch); }
  }

  lemma {:induction false} RunKeepsInv(s: State, events: seq<Event>)
    requires Inv(s) && IsRun(s, events)
    ensures Inv(Reach(s, events))
    decreases |events|
  {
    if events != [] {
      StepKeepsInv(s, events[0]);
      RunKeepsInv(Apply(s, events[0]), events[1..]);
    }
  }

  // ---------------------------------------------------------------- the promises

  /** A channel of SubscribeStateChanges is closed at most once, only after it has left the
  subscribers, and nothing is ever sent to it when closed; no channel exceeds its buffer. */
  lemma SubscriptionsAreSafe(events: seq<Event>, ch: ChanId)
    requires IsRun(Initial(), events) && ch in Reach(Initial(), events).chans
    ensures var s := Reach(Initial(), events);
      && !s.closedTwice
      && |s.chans[ch].queue| <= s.chans[ch].cap
      && (s.chans[ch].watcher.Some? ==> ch !in s.sentToClosed && (s.chans[ch].closed ==> ch !in s.subscribers))
  {
    RunKeepsInv(Initial(), events);
    assert ChannelInv(Reach(Initial(), events), ch);
  }

  /** Every change is offered to every registered subscriber: once the broadcast that the
  change caused is over, each was offered a snapshot that includes it, even one that
  registered while the broadcast was under way or after it found nobody to send to. One
  whose buffer always had room has also been sent such a snapshot. */
  lemma EveryChangeIsOffered(events: seq<Event>, ch: ChanId, b: nat)
    requires IsRun(Initial(), events)
    requires b in Reach(Initial(), events).broadcasts && Reach(Initial(), events).broadcasts[b].Finished?
    requires ch in Reach(Initial(), events).subscribers && Reach(Initial(), events).adding != Some(ch)
    ensures var s := Reach(Initial(), events);
      && ch in s.chans
      && s.broadcasts[b].cause <= s.chans[ch].offered
      && (!s.chans[ch].lossy ==> s.broadcasts[b].cause <= s.chans[ch].accepted)
  {
    RunKeepsInv(Initial(), events);
    assert Informed(Reach(Initial(), events), ch, b);
    assert ChannelInv(Reach(Initial(), events), ch);
  }

  /** Nothing that entered a buffer is lost, repeated or reordered: what a subscriber has
  received, followed by what is still buffered, is what was accepted. */
  lemma AcceptedIsReceivedInOrder(events: seq<Event>, ch: ChanId)
    requires IsRun(Initial(), events) && ch in Reach(Initial(), events).chans
    ensures var c := Reach(Initial(), events).chans[ch]; c.taken == c.received + c.queue
  {
    RunKeepsInv(Initial(), events);
    assert Conserved(Reach(Initial(), events).chans[ch]);
  }

  /** The broadcast will deliver this snapshot, unless it has done so. */
  predicate Holding(s: State, b: nat, snapshot: Version) {
    b in s.broadcasts && (s.broadcasts[b].Prepared? ==> s.broadcasts[b].snapshot == snapshot)
    && !s.broadcasts[b].Called?
  }

  lemma {:induction false} HoldsOn(s: State, events: seq<Event>, b: nat, snapshot: Version)
    requires IsRun(s, events) && Holding(s, b, snapshot)
    ensures Holding(Reach(s, events), b, snapshot)
    decreases |events|
  {
    if events != [] { HoldsOn(Apply(s, events[0]), events[1..], b, snapshot); }
  }

  /** A broadcast delivers the states as they were when it took its snapshot, whatever happens
  until then: each channel subscribed at the delivery gets them at the end of its buffer,
  unless that is full or the channel closed, and then its buffer stays as it is. */
  lemma SnapshotIsDelivered(s: State, events: seq<Event>, b: nat, ch: ChanId)
    requires Enabled(s, Prepare(b)) && s.subscribers != {} && IsRun(Apply(s, Prepare(b)), events)
    requires var t := Reach(Apply(s, Prepare(b)), events); Enabled(t, Deliver(b)) && ch in t.chans
    ensures
      var t := Reach(Apply(s, Prepare(b)), events);
      var c, c' := t.chans[ch], Apply(t, Deliver(b)).chans[ch];
      && c'.closed == c.closed && c'.cap == c.cap
      && if ch in t.subscribers && !c.closed && |c.queue| < c.cap
         then c'.queue == c.queue + [s.version] && c'.taken == c.taken + [s.version]
         else c'.queue == c.queue && c'.taken == c.taken
  {
    HoldsOn(Apply(s, Prepare(b)), events, b, s.version);
  }

  /** A new subscriber is sent the current states at once, if there is room. */
  lemma FirstSnapshotIsCurrent(s: State)
    requires Enabled(s, FirstSnapshot)
    ensures
      var ch := s.adding.value;
      var c, c' := s.chans[ch], Apply(s, FirstSnapshot).chans[ch];
      && c'.queue == c.queue + (if !c.closed && |c.queue| < c.cap then [s.version] else [])
      && Apply(s, FirstSnapshot).adding.None?
  {}

  // ---------------------------------------------------------------- the order of snapshots

  /** A delivery leaves the newest offered snapshot last in a channel exactly when nothing
  newer was offered to the channel since the broadcast took its snapshot. */
  lemma LastIsNewestExactlyWhen(s: State, b: nat, ch: ChanId)
    requires Inv(s) && Enabled(s, Deliver(b))
    requires ch in s.subscribers && ch in s.chans && HasRoom(s.chans[ch])
    ensures var c := Apply(s, Deliver(b)).chans[ch];
      && c.queue != []
      && (c.queue[|c.queue| - 1] == c.offered <==> s.chans[ch].offered <= s.broadcasts[b].snapshot)
  {
    assert Apply(s, Deliver(b)).chans[ch] == Sent(s.chans[ch], s.broadcasts[b].snapshot);
  }

  /** Oldest first, and nothing newer than what was offered last. */
  predicate InOrder(c: Channel) {
    && (forall i, j :: 0 <= i < j < |c.queue| ==> c.queue[i] <= c.queue[j])
    && (forall i :: 0 <= i < |c.queue| ==> c.queue[i] <= c.offered)
  }

  ghost predicate AllInOrder(s: State) {
    forall ch :: ch in s.chans ==> InOrder(s.chans[ch])
  }

  /** No subscriber has been offered anything newer than what this broadcast holds. */
  predicate Timely(s: State, b: nat)
    requires b in s.broadcasts && s.broadcasts[b].Prepared?
  {
    forall ch :: ch in s.subscribers && ch in s.chans ==> s.chans[ch].offered <= s.broadcasts[b].snapshot
  }

  /** A run in which every broadcast delivers a snapshot that nothing has overtaken. */
  predicate TimelyRun(s: State, events: seq<Event>)
    decreases |events|
  {
    events == [] ||
    (&& Enabled(s, events[0])
     && (events[0].Deliver? ==> Timely(s, events[0].b))
     && TimelyRun(Apply(s, events[0]), events[1..]))
  }

  /** Then every channel holds its snapshots in order, at every point of the run. */
  lemma {:induction false} TimelyRunsStayInOrder(s: State, events: seq<Event>)
    requires Inv(s) && AllInOrder(s) && TimelyRun(s, events)
    ensures IsRun(s, events) && AllInOrder(Reach(s, events))
    decreases |events|
  {
    if events != [] {
      TimelyStepStaysInOrder(s, events[0]);
      StepKeepsInv(s, events[0]);
      TimelyRunsStayInOrder(Apply(s, events[0]), events[1..]);
    }
  }

  lemma TimelyStepStaysInOrder(s: State, e: Event)
    requires Inv(s) && AllInOrder(s) && Enabled(s, e)
    requires e.Deliver? ==> Timely(s, e.b)
    ensures AllInOrder(Apply(s, e))
  {
    var t := Apply(s, e);
    forall ch | ch in t.chans ensures InOrder(t.chans[ch]) {
      if ch in s.chans {
        assert InOrder(s.chans[ch]) && ChannelInv(s, ch);
        if e.Deliver? && ch in s.subscribers { SendingStaysInOrder(s.chans[ch], s.broadcasts[e.b].snapshot); }
        if e.FirstSnapshot? && s.adding == Some(ch) { SendingStaysInOrder(s.chans[ch], s.version); }
      }
    }
  }

  lemma SendingStaysInOrder(c: Channel, v: Version)
    requires InOrder(c) && c.offered <= v
    ensures InOrder(Sent(c, v))
  {}

  /** A run in which nothing is snapshot, for a broadcast or a new subscriber, while another
  snapshot waits to be delivered. */
  ghost predicate SerialRun(s: State, events: seq<Event>)
    decreases |events|
  {
    events == [] ||
    (&& Enabled(s, events[0])
     && (events[0].Prepare? || events[0].FirstSnapshot? ==> NothingWaits(s))
     && SerialRun(Apply(s, events[0]), events[1..]))
  }

  predicate Waits(s: State, b: nat) { b in s.broadcasts && s.broadcasts[b].Prepared? }

  ghost predicate NothingWaits(s: State) {
    forall b: nat :: !Waits(s, b)
  }

  /** At most one snapshot waits, and it is the newest that anybody has seen. */
  ghost predicate OneWaits(s: State) {
    && (forall b: nat, c: nat :: Waits(s, b) && Waits(s, c) ==> b == c)
    && (forall b: nat, ch :: Waits(s, b) && ch in s.chans ==> s.chans[ch].offered <= s.broadcasts[b].snapshot)
  }

  /** Broadcasts that do not overlap never deliver out of order. */
  lemma {:induction false} SerialRunsAreTimely(s: State, events: seq<Event>)
    requires Inv(s) && OneWaits(s) && SerialRun(s, events)
    ensures TimelyRun(s, events)
    decreases |events|
  {
    if events != [] {
      StepKeepsInv(s, events[0]);
      SerialStepKeepsOne(s, events[0]);
      SerialRunsAreTimely(Apply(s, events[0]), events[1..]);
    }
  }

  lemma DeliveryLeavesNone(s: State, b: nat)
    requires OneWaits(s) && Enabled(s, Deliver(b))
    ensures NothingWaits(Apply(s, Deliver(b)))
  {
    var t := Apply(s, Deliver(b));
    assert Waits(s, b);
    forall c: nat ensures !Waits(t, c) {
      assert Waits(t, c) ==> Waits(s, c) && c != b;
    }
  }

  lemma PreparedIsNewest(s: State, b: nat)
    requires Inv(s) && NothingWaits(s) && Enabled(s, Prepare(b))
    ensures OneWaits(Apply(s, Prepare(b)))
  {
    var t := Apply(s, Prepare(b));
    forall c: nat ensures Waits(t, c) ==> c == b && t.broadcasts[c].snapshot == s.version {
      assert !Waits(s, c);
    }
    forall ch | ch in t.chans ensures t.chans[ch].offered <= s.version { assert ChannelInv(s, ch); }
  }

  /** Other steps neither take nor deliver a snapshot, and offer nothing new. */
  lemma OtherStepKeepsOne(s: State, e: Event)
    requires OneWaits(s) && Enabled(s, e) && !e.Prepare? && !e.Deliver? && !e.FirstSnapshot?
    ensures OneWaits(Apply(s, e))
  {
    var t := Apply(s, e);
    assert forall b: nat :: Waits(t, b) ==> Waits(s, b) && t.broadcasts[b] == s.broadcasts[b];
    assert forall ch :: ch in t.chans ==> t.chans[ch].offered == if ch in s.chans then s.chans[ch].offered else 0;
  }

  lemma SerialStepKeepsOne(s: State, e: Event)
    requires Inv(s) && OneWaits(s) && Enabled(s, e)
    requires e.Prepare? || e.FirstSnapshot? ==> NothingWaits(s)
    ensures OneWaits(Apply(s, e))
  {
    if e.Prepare? {
      PreparedIsNewest(s, e.b);
    } else if e.Deliver? {
      DeliveryLeavesNone(s, e.b);
    } else if e.FirstSnapshot? {
      assert forall b: nat :: Waits(Apply(s, e), b) <==> Waits(s, b);
    } else {
      OtherStepKeepsOne(s, e);
    }
  }

  lemma SerialBroadcastsStayInOrder(events: seq<Event>)
    requires SerialRun(Initial(), events)
    ensures IsRun(Initial(), events) && AllInOrder(Reach(Initial(), events))
  {
    SerialRunsAreTimely(Initial(), events);
    TimelyRunsStayInOrder(Initial(), events);
  }

  lemma {:induction false} OneMoreStep(s: State, events: seq<Event>, e: Event)
    requires IsRun(s, events) && Enabled(Reach(s, events), e)
    ensures IsRun(s, events + [e])
    ensures Reach(s, events + [e]) == Apply(Reach(s, events), e)
    decreases |events|
  {
    if events == [] {
      assert events + [e] == [e] && [e][1..] == [];
    } else {
      OneMoreStep(Apply(s, events[0]), events[1..], e);
      assert (events + [e])[1..] == events[1..] + [e];
    }
  }

  ghost predicate Leads(events: seq<Event>, s: State) {
    IsRun(Initial(), events) && Reach(Initial(), events) == s
  }

  lemma Then(events: seq<Event>, s: State, e: Event, t: State) returns (more: seq<Event>)
    requires Leads(events, s) && Enabled(s, e) && Apply(s, e) == t
    ensures Leads(more, t)
  {
    OneMoreStep(Initial(), events, e);
    more := events + [e];
  }

  /** One subscription whose channel holds `queue`, and some broadcasts. */
  function Subscribed(version: Version, queue: seq<Version>, offered: Version, broadcasts: map<nat, Broadcast>): State
  {
    var channel := Channel(SUBSCRIPTION_BUFFER, queue, false, Some(Watching), offered, offered, false, queue, []);
    State(version, map[0 := channel], {0}, None, broadcasts, false, {})
  }

  lemma OneSubscription() returns (events: seq<Event>)
    ensures Leads(events, Subscribed(0, [0], 0, map[]))
  {
    events := [];
    var s := ApplyRegister(Initial(), 0, None);
    assert s.chans == map[0 := NewChannel(SUBSCRIPTION_BUFFER, Some(Watching))];
    assert s.subscribers == {0};
    events := Then(events, Initial(), Register(0, None), s);
    var t := ApplyFirstSnapshot(s);
    assert t.chans == Subscribed(0, [0], 0, map[]).chans by { assert [] + [0] == [0]; }
    events := Then(events, s, FirstSnapshot, t);
  }

  /** A runnable changes its state and a broadcast takes its snapshot. */
  lemma OneMorePrepared(events: seq<Event>, v: Version, broadcasts: map<nat, Broadcast>, b: nat)
    returns (more: seq<Event>)
    requires Leads(events, Subscribed(v, [0], 0, broadcasts)) && b !in broadcasts
    ensures Leads(more, Subscribed(v + 1, [0], 0, broadcasts[b := Prepared(v + 1, v + 1)]))
  {
    more := Then(events, Subscribed(v, [0], 0, broadcasts), Change, Subscribed(v + 1, [0], 0, broadcasts));
    var called := Subscribed(v + 1, [0], 0, broadcasts[b := Called(v + 1)]);
    more := Then(more, Subscribed(v + 1, [0], 0, broadcasts), Call(b, v + 1), called);
    assert called.broadcasts[b := Prepared(v + 1, v + 1)] == broadcasts[b := Prepared(v + 1, v + 1)];
    more := Then(more, called, Prepare(b), Subscribed(v + 1, [0], 0, broadcasts[b := Prepared(v + 1, v + 1)]));
  }

  lemma Delivered(v: Version, queue: seq<Version>, offered: Version, broadcasts: map<nat, Broadcast>, b: nat)
    requires b in broadcasts && broadcasts[b].Prepared? && |queue| < SUBSCRIPTION_BUFFER
    ensures var Prepared(cause, snapshot) := broadcasts[b];
      ApplyDeliver(Subscribed(v, queue, offered, broadcasts), b) ==
        Subscribed(v, queue + [snapshot], Later(offered, snapshot), broadcasts[b := Finished(cause)])
  {
    var s := Subscribed(v, queue, offered, broadcasts);
    assert ClosedSubscribers(s) == {};
    assert ApplyDeliver(s, b).chans == s.chans[0 := Sent(s.chans[0], broadcasts[b].snapshot)];
  }

  /** Yet the last snapshot in the channel need not be the newest: a snapshot is taken before
  the mutex, so two broadcasts can deliver in the opposite order. Here nothing is under way
  any more and the subscriber's last word on the states is out of date. */
  lemma LastSnapshotCanBeStale() returns (events: seq<Event>)
    ensures Leads(events, Subscribed(2, [0, 2, 1], 2, map[0 := Finished(1), 1 := Finished(2)]))
  {
    events := OneSubscription();
    events := OneMorePrepared(events, 0, map[], 0);
    events := OneMorePrepared(events, 1, map[0 := Prepared(1, 1)], 1);
    var both := map[0 := Prepared(1, 1), 1 := Prepared(2, 2)];
    var second := map[0 := Prepared(1, 1), 1 := Finished(2)];
    assert both[1 := Finished(2)] == second && [0] + [2] == [0, 2];
    Delivered(2, [0], 0, both, 1);
    events := Then(events, Subscribed(2, [0], 0, both), Deliver(1), Subscribed(2, [0, 2], 2, second));
    assert second[0 := Finished(1)] == map[0 := Finished(1), 1 := Finished(2)] && [0, 2] + [1] == [0, 2, 1];
    Delivered(2, [0, 2], 2, second, 0);
    events := Then(events, Subscribed(2, [0, 2], 2, second), Deliver(0),
                   Subscribed(2, [0, 2, 1], 2, map[0 := Finished(1), 1 := Finished(2)]));
  }

  // ---------------------------------------------------------------- the code

  class StateChan {
    const cap: nat
    var queue: seq<Version>
    var closed: bool

    constructor (cap: nat)
      ensures this.cap == cap && queue == [] && !closed
    {
      this.cap, queue, closed := cap, [], false;
    }

    /** The select with a default case. Sending to a closed channel panics. */
    method TrySend(v: Version)
      requires !closed
      modifies this`queue
      ensures queue == if |old(queue)| < cap then old(queue) + [v] else old(queue)
    {
      if |queue| < cap { queue := queue + [v]; }
    }

    /** Closing a closed channel panics. */
    method Close()
      requires !closed
      modifies this`closed
      ensures closed
    {
      closed := true;
    }
  }

  class PIDZero {
    var stateSubscribers: set<StateChan>
    var version: Version    // what GetStateMap returns

    ghost predicate Valid()
      reads this, stateSubscribers
    {
      forall ch :: ch in stateSubscribers ==> !ch.closed
    }

    constructor ()
      ensures Valid() && stateSubscribers == {} && version == 0
    {
      stateSubscribers, version := {}, 0;
    }

    method AddStateSubscriber(ch: StateChan)
      requires Valid() && !ch.closed
      modifies this`stateSubscribers, ch`queue
      ensures Valid() && stateSubscribers == old(stateSubscribers) + {ch}
      ensures ch.queue == if |old(ch.queue)| < ch.cap then old(ch.queue) + [version] else old(ch.queue)
    {
      stateSubscribers := stateSubscribers + {ch};
      ch.TrySend(version);
    }

    method SubscribeStateChanges() returns (ch: StateChan)
      requires Valid()
      modifies this`stateSubscribers
      ensures Valid() && fresh(ch) && !ch.closed && ch.cap == SUBSCRIPTION_BUFFER
      ensures stateSubscribers == old(stateSubscribers) + {ch} && ch.queue == [version]
    {
      ch := new StateChan(SUBSCRIPTION_BUFFER);
      AddStateSubscriber(ch);
    }

    method UnsubscribeState(ch: StateChan)
      requires Valid()
      modifies this`stateSubscribers
      ensures Valid() && stateSubscribers == old(stateSubscribers) - {ch}
    {
      stateSubscribers := stateSubscribers - {ch};
    }

    /** What the goroutine of a subscription does when a context is cancelled. In the other
    order the subscribers would include a closed channel. */
    method EndSubscription(ch: StateChan)
      requires Valid() && !ch.closed
      modifies this`stateSubscribers, ch`closed
      ensures Valid() && ch.closed && stateSubscribers == old(stateSubscribers) - {ch}
    {
      UnsubscribeState(ch);
      ch.Close();
    }

    /** broadcastState before it takes the mutex: without subscribers there is no snapshot. */
    method PrepareBroadcast() returns (snapshot: Option<Version>)
      ensures snapshot == if stateSubscribers == {} then None else Some(version)
    {
      if stateSubscribers == {} { return None; }
      return Some(version);
    }

    /** The rest of broadcastState. Subscribers and states may have changed since the snapshot
    was taken; everybody who is subscribed now is offered it. */
    method DeliverBroadcast(snapshot: Version)
      requires Valid()
      modifies stateSubscribers
      ensures Valid()
      ensures forall ch :: ch in stateSubscribers ==>
        ch.queue == if |old(ch.queue)| < ch.cap then old(ch.queue) + [snapshot] else old(ch.queue)
    {
      var todo := stateSubscribers;
      while todo != {}
        invariant todo <= stateSubscribers
        invariant Valid()
        invariant forall ch :: ch in stateSubscribers ==>
          ch.queue == if ch in todo then old(ch.queue) else Offer(old(ch.queue), ch.cap, snapshot)
        decreases |todo|
      {
        var ch :| ch in todo;
        ch.TrySend(snapshot);
        todo := todo - {ch};
      }
    }
  }

  // ---------------------------------------------------------------- monitoring

  /** The states that differ from the one before. */
  function Transitions(last: string, states: seq<string>): seq<string>
    decreases |states|
  {
    if states == [] then []
    else if states[0] == last then Transitions(last, states[1..])
    else [states[0]] + Transitions(states[0], states[1..])
  }

  lemma {:induction false} TransitionsOfMore(last: string, states: seq<string>, next: string)
    ensures var path := [last] + Transitions(last, states);
      Transitions(last, states + [next]) ==
        Transitions(last, states) + if path[|path| - 1] == next then [] else [next]
    decreases |states|
  {
    if states == [] {
      assert states + [next] == [next] && [next][1..] == [];
    } else {
      assert (states + [next])[1..] == states[1..] + [next];
      TransitionsOfMore(states[0], states[1..], next);
    }
  }

  /** The announced states never repeat, and the last one is the current one. */
  lemma {:induction false} TransitionsFollowTheState(last: string, states: seq<string>)
    ensures var path := [last] + Transitions(last, states);
      && (forall i :: 0 < i < |path| ==> path[i] != path[i - 1])
      && path[|path| - 1] == ([last] + states)[|states|]
    decreases |states|
  {
    if states != [] {
      TransitionsFollowTheState(states[0], states[1..]);
      assert [states[0]] + states[1..] == states;
      if states[0] != last {
        assert [last] + Transitions(last, states) == [last] + ([states[0]] + Transitions(states[0], states[1..]));
      }
    }
  }

  /** monitorStateable: `received` starts with the state sent on subscription, which is only
  the baseline; a broadcast follows each later state that differs from its predecessor. */
  method MonitorStateable(received: seq<string>) returns (broadcasts: seq<string>)
    ensures broadcasts == if received == [] then [] else Transitions(received[0], received[1..])
  {
    broadcasts := [];
    if |received| == 0 { return; }
    var lastState := received[0];
    for i := 1 to |received|
      invariant broadcasts == Transitions(received[0], received[1..i])
      invariant var path := [received[0]] + broadcasts; lastState == path[|path| - 1]
    {
      assert received[1..i + 1] == received[1..i] + [received[i]];
      TransitionsOfMore(received[0], received[1..i], received[i]);
      if received[i] != lastState {
        lastState := received[i];
        broadcasts := broadcasts + [received[i]];
      }
    }
    assert received[1..|received|] == received[1..];
  }
}
