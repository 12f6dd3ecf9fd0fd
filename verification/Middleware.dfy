/** The middleware chain of the HTTP server: a re-entrant interpreter driven by one index,
with Abort, panics, the recovery middleware and the response writer. A handler is the
finite list of things it does during one request. */
module Middleware {
  import opened Wrappers

  // ---------------------------------------------------------------- the response writer

  /** The wrapper's fields, followed by what the underlying writer was asked to do: the
  WriteHeader calls it received and the number of body bytes it accepted. */
  datatype Response = Response(status: int, written: bool, size: nat, headerCalls: seq<int>, accepted: nat)
  {
    function Header(code: int): Response {
      if written then this
      else this.(status := code, written := true, headerCalls := headerCalls + [code])
    }

    function Body(n: nat): Response {
      var w := Header(200);
      w.(size := w.size + n, accepted := w.accepted + n)
    }

    /** http.Error: a header, then a body of which the underlying writer takes `n` bytes. */
    function ServerError(n: nat): Response { Header(500).Body(n) }

    /** At most one WriteHeader reaches the underlying writer; its code is the status, and
    the size is what the underlying writer accepted. */
    ghost predicate Consistent() {
      && headerCalls == (if written then [status] else [])
      && (!written ==> status == 0 && size == 0)
      && size == accepted
    }
  }

  const NO_RESPONSE := Response(0, false, 0, [], 0)

  // ---------------------------------------------------------------- the interpreter

  datatype Action = CallNext | CallAbort | WriteHeader(code: int) | Write(accepted: nat) | Panic

  /** Recovery is the recovery middleware; `accepted` is what the underlying writer takes
  of its error message. */
  datatype Handler = Plain(actions: seq<Action>) | Recovery(accepted: nat)

  /** What happens during a request, in order: a handler starts, it does something, or the
  recovery middleware deals with a panic. */
  datatype Entry = Start(handler: nat) | Did(handler: nat, action: Action) | Rescue(handler: nat, accepted: nat)

  /** `index` is the processor's only control state; `log` only records. */
  datatype Chain = Chain(index: int, response: Response, panicked: bool, log: seq<Entry>)
  {
    function Logging(e: Entry): Chain { this.(log := log + [e]) }
  }

  function Left(n: nat, c: Chain): nat { if c.index < n then n - c.index else 0 }

  /** The deferred function of the recovery middleware, when there is a panic. */
  function Recovered(n: nat, i: nat, accepted: nat, c: Chain): Chain {
    var response := if c.response.written then c.response else c.response.ServerError(accepted);
    c.Logging(Rescue(i, accepted)).(index := n, panicked := false, response := response)
  }

  function RunNext(hs: seq<Handler>, c: Chain): (r: Chain)
    ensures r.index >= c.index || r.index >= |hs|
    decreases Left(|hs|, c), 0, 0
  {
    var c := c.(index := c.index + 1);
    if 0 <= c.index < |hs| then RunLoop(hs, c) else c
  }

  function RunLoop(hs: seq<Handler>, c: Chain): (r: Chain)
    requires 0 <= c.index < |hs|
    ensures r.index >= c.index || r.index >= |hs|
    decreases Left(|hs|, c), 3, 0
  {
    var c1 := RunHandler(hs, c.index, c.Logging(Start(c.index)));
    if c1.panicked then c1
    else
      var c2 := c1.(index := c1.index + 1);
      if c2.index < |hs| then RunLoop(hs, c2) else c2
  }

  function RunHandler(hs: seq<Handler>, i: nat, c: Chain): (r: Chain)
    requires i < |hs|
    ensures r.index >= c.index || r.index >= |hs|
    decreases Left(|hs|, c), 2, 0
  {
    match hs[i]
    case Plain(actions) => RunActions(hs, i, actions, c)
    case Recovery(accepted) =>
      var c1 := RunNext(hs, c);
      if c1.panicked then Recovered(|hs|, i, accepted, c1) else c1
  }

  function RunActions(hs: seq<Handler>, i: nat, actions: seq<Action>, c: Chain): (r: Chain)
    ensures r.index >= c.index || r.index >= |hs|
    decreases Left(|hs|, c), 1, |actions|
  {
    if actions == [] then c
    else
      var c := c.Logging(Did(i, actions[0]));
      match actions[0]
      case CallNext =>
        var c1 := RunNext(hs, c);
        if c1.panicked then c1 else RunActions(hs, i, actions[1..], c1)
      case CallAbort => RunActions(hs, i, actions[1..], c.(index := |hs|))
      case WriteHeader(code) => RunActions(hs, i, actions[1..], c.(response := c.response.Header(code)))
      case Write(n) => RunActions(hs, i, actions[1..], c.(response := c.response.Body(n)))
      case Panic => c.(panicked := true)
  }

  const FIRST := Chain(-1, NO_RESPONSE, false, [])

  /** Route.ServeHTTP. */
  function Serve(hs: seq<Handler>): Chain {
    RunNext(hs, FIRST)
  }

  // ---------------------------------------------------------------- reading the log

  function Starts(log: seq<Entry>): nat {
    if log == [] then 0 else Starts(log[..|log| - 1]) + if log[|log| - 1].Start? then 1 else 0
  }

  predicate Cuts(e: Entry) { e.Did? && (e.action.CallAbort? || e.action.Panic?) }

  predicate IsCut(log: seq<Entry>) { exists k :: 0 <= k < |log| && Cuts(log[k]) }

  /** Each handler that starts is the next of the list, and none starts after an Abort or a
  panic. */
  ghost predicate InOrder(log: seq<Entry>) {
    forall k :: 0 <= k < |log| && log[k].Start? ==> log[k].handler == Starts(log[..k]) && !IsCut(log[..k])
  }

  /** The status code that goes out with the entry if nothing was sent before it. */
  function CodeOf(e: Entry): Option<int> {
    match e
    case Did(_, WriteHeader(code)) => Some(code)
    case Did(_, Write(_)) => Some(200)
    case Rescue(_, _) => Some(500)
    case _ => None
  }

  function FirstCode(log: seq<Entry>): Option<int> {
    if log == [] then None
    else
      var code := FirstCode(log[..|log| - 1]);
      if code.Some? then code else CodeOf(log[|log| - 1])
  }

  /** The bytes of all writes, and of the error message of a recovery that finds nothing sent. */
  function Bytes(log: seq<Entry>): nat {
    if log == [] then 0
    else
      var front := log[..|log| - 1];
      Bytes(front) + match log[|log| - 1]
                     case Did(_, Write(n)) => n
                     case Rescue(_, n) => if FirstCode(front).Some? then 0 else n
                     case _ => 0
  }

  function Panics(log: seq<Entry>): nat {
    if log == [] then 0
    else Panics(log[..|log| - 1]) + if log[|log| - 1].Did? && log[|log| - 1].action.Panic? then 1 else 0
  }

  function Rescues(log: seq<Entry>): nat {
    if log == [] then 0 else Rescues(log[..|log| - 1]) + if log[|log| - 1].Rescue? then 1 else 0
  }

  lemma Appended(log: seq<Entry>, e: Entry)
    ensures Starts(log + [e]) == Starts(log) + if e.Start? then 1 else 0
    ensures IsCut(log + [e]) <==> IsCut(log) || Cuts(e)
    ensures FirstCode(log + [e]) == if FirstCode(log).Some? then FirstCode(log) else CodeOf(e)
    ensures Panics(log + [e]) == Panics(log) + if e.Did? && e.action.Panic? then 1 else 0
    ensures Rescues(log + [e]) == Rescues(log) + if e.Rescue? then 1 else 0
  {
    var longer := log + [e];
    assert longer[..|longer| - 1] == log;
    if IsCut(log) {
      var k :| 0 <= k < |log| && Cuts(log[k]);
      assert Cuts(longer[k]);
    }
    if Cuts(e) { assert Cuts(longer[|log|]); }
  }

  lemma AppendedBytes(log: seq<Entry>, e: Entry)
    ensures Bytes(log + [e]) == Bytes(log) + match e
                                             case Did(_, Write(n)) => n
                                             case Rescue(_, n) => if FirstCode(log).Some? then 0 else n
                                             case _ => 0
  {
    assert (log + [e])[..|log|] == log;
  }

  lemma AppendedInOrder(log: seq<Entry>, e: Entry)
    requires InOrder(log) && (e.Start? ==> e.handler == Starts(log) && !IsCut(log))
    ensures InOrder(log + [e])
  {
    var longer := log + [e];
    forall k | 0 <= k < |longer| && longer[k].Start?
      ensures longer[k].handler == Starts(longer[..k]) && !IsCut(longer[..k])
    {
      assert longer[..k] == log[..k];
    }
    assert log[..|log|] == log;
  }

  // ---------------------------------------------------------------- the invariant

  /** The response is what the log says: one header, the first code, and all the bytes. */
  predicate Reported(log: seq<Entry>, w: Response) {
    && (w.written <==> FirstCode(log).Some?)
    && w.headerCalls == (if w.written then [FirstCode(log).value] else [])
    && w.status == (if w.written then FirstCode(log).value else 0)
    && w.size == w.accepted == Bytes(log)
  }

  /** What holds everywhere, `ahead` handlers having been counted by the index beyond
  those started: 1 inside a handler, 0 between two handlers. */
  ghost predicate Inv(hs: seq<Handler>, ahead: nat, c: Chain) {
    && -1 <= c.index
    && InOrder(c.log) && Starts(c.log) <= |hs|
    && (c.index < |hs| ==> Starts(c.log) == c.index + ahead)
    && (if IsCut(c.log) then c.panicked || c.index >= |hs| else c.index >= |hs| ==> Starts(c.log) == |hs|)
    && (c.panicked ==> IsCut(c.log))
    && Reported(c.log, c.response)
    && Panics(c.log) == Rescues(c.log) + if c.panicked then 1 else 0
  }

  lemma {:induction false} NextKeepsInv(hs: seq<Handler>, c: Chain)
    requires Inv(hs, 1, c) && !c.panicked
    ensures Inv(hs, 1, RunNext(hs, c))
    ensures RunNext(hs, c).panicked || RunNext(hs, c).index >= |hs|
    decreases Left(|hs|, c), 0, 0
  {
    var c1 := c.(index := c.index + 1);
    if 0 <= c1.index < |hs| { LoopKeepsInv(hs, c1); }
  }

  lemma {:induction false} LoopKeepsInv(hs: seq<Handler>, c: Chain)
    requires Inv(hs, 0, c) && !c.panicked && 0 <= c.index < |hs|
    ensures Inv(hs, 1, RunLoop(hs, c))
    ensures RunLoop(hs, c).panicked || RunLoop(hs, c).index >= |hs|
    decreases Left(|hs|, c), 3, 0
  {
    var c0 := c.Logging(Start(c.index));
    StartKeepsInv(hs, c);
    HandlerKeepsInv(hs, c.index, c0);
    var c1 := RunHandler(hs, c.index, c0);
    if !c1.panicked {
      var c2 := c1.(index := c1.index + 1);
      if c2.index < |hs| { LoopKeepsInv(hs, c2); }
    }
  }

  lemma StartKeepsInv(hs: seq<Handler>, c: Chain)
    requires Inv(hs, 0, c) && !c.panicked && 0 <= c.index < |hs|
    ensures Inv(hs, 1, c.Logging(Start(c.index)))
  {
    Appended(c.log, Start(c.index));
    AppendedBytes(c.log, Start(c.index));
    AppendedInOrder(c.log, Start(c.index));
  }

  lemma {:induction false} HandlerKeepsInv(hs: seq<Handler>, i: nat, c: Chain)
    requires Inv(hs, 1, c) && !c.panicked && i < |hs|
    ensures Inv(hs, 1, RunHandler(hs, i, c))
    decreases Left(|hs|, c), 2, 0
  {
    match hs[i]
    case Plain(actions) => ActionsKeepInv(hs, i, actions, c);
    case Recovery(accepted) =>
      NextKeepsInv(hs, c);
      var c1 := RunNext(hs, c);
      if c1.panicked { RescueKeepsInv(hs, i, accepted, c1); }
  }

  lemma RescueKeepsInv(hs: seq<Handler>, i: nat, accepted: nat, c: Chain)
    requires Inv(hs, 1, c) && c.panicked
    ensures Inv(hs, 1, Recovered(|hs|, i, accepted, c))
  {
    Appended(c.log, Rescue(i, accepted));
    AppendedBytes(c.log, Rescue(i, accepted));
    AppendedInOrder(c.log, Rescue(i, accepted));
  }

  /** What one action other than calling Next does. */
  function Acted(n: nat, i: nat, action: Action, c: Chain): Chain {
    var c := c.Logging(Did(i, action));
    match action
    case CallNext => c
    case CallAbort => c.(index := n)
    case WriteHeader(code) => c.(response := c.response.Header(code))
    case Write(accepted) => c.(response := c.response.Body(accepted))
    case Panic => c.(panicked := true)
  }

  lemma ActionKeepsInv(hs: seq<Handler>, i: nat, action: Action, c: Chain)
    requires Inv(hs, 1, c) && !c.panicked
    ensures Inv(hs, 1, Acted(|hs|, i, action, c))
  {
    Appended(c.log, Did(i, action));
    AppendedBytes(c.log, Did(i, action));
    AppendedInOrder(c.log, Did(i, action));
  }

  lemma {:induction false} ActionsKeepInv(hs: seq<Handler>, i: nat, actions: seq<Action>, c: Chain)
    requires Inv(hs, 1, c) && !c.panicked
    ensures Inv(hs, 1, RunActions(hs, i, actions, c))
    decreases Left(|hs|, c), 1, |actions|
  {
    if actions != [] {
      ActionKeepsInv(hs, i, actions[0], c);
      var c1 := Acted(|hs|, i, actions[0], c);
      if actions[0].CallNext? {
        NextKeepsInv(hs, c1);
        var c2 := RunNext(hs, c1);
        if !c2.panicked { ActionsKeepInv(hs, i, actions[1..], c2); }
      } else if !actions[0].Panic? {
        ActionsKeepInv(hs, i, actions[1..], c1);
      }
    }
  }

  // ---------------------------------------------------------------- the promises

  /** Whatever the handlers do, they start in the order of the list, each at most once;
  none starts after the first Abort or panic, and all start if there was neither. */
  lemma HandlersStartInOrder(hs: seq<Handler>)
    ensures var r := Serve(hs);
      && (forall k :: 0 <= k < |r.log| && r.log[k].Start? ==>
            r.log[k].handler == Starts(r.log[..k]) && !IsCut(r.log[..k]))
      && Starts(r.log) <= |hs|
      && (!IsCut(r.log) ==> Starts(r.log) == |hs| && !r.panicked)
  {
    NextKeepsInv(hs, FIRST);
  }

  /** The entry is the first that sends something. */
  predicate SendsFirst(log: seq<Entry>, k: nat) {
    k < |log| && CodeOf(log[k]).Some? && forall j :: 0 <= j < k ==> CodeOf(log[j]).None?
  }

  lemma {:induction false} FirstCodeAt(log: seq<Entry>, k: nat)
    requires SendsFirst(log, k)
    ensures FirstCode(log) == CodeOf(log[k])
  {
    var front := log[..|log| - 1];
    if k < |front| { FirstCodeAt(front, k); } else { NothingSent(front); }
  }

  lemma {:induction false} NothingSent(log: seq<Entry>)
    requires forall j :: 0 <= j < |log| ==> CodeOf(log[j]).None?
    ensures FirstCode(log).None?
  {
    if log != [] { NothingSent(log[..|log| - 1]); }
  }

  /** The client gets one header: the code of the first WriteHeader, or 200 if a Write came
  before it, or 500 if a recovered panic did; and the size is that of all that was written. */
  lemma ResponseFollowsTheLog(hs: seq<Handler>)
    ensures var r := Serve(hs);
      && (forall k: nat :: SendsFirst(r.log, k) ==> r.response.headerCalls == [CodeOf(r.log[k]).value])
      && ((forall k :: 0 <= k < |r.log| ==> CodeOf(r.log[k]).None?) ==> r.response.headerCalls == [])
      && r.response.size == r.response.accepted == Bytes(r.log)
  {
    NextKeepsInv(hs, FIRST);
    var r := Serve(hs);
    forall k: nat | SendsFirst(r.log, k) ensures FirstCode(r.log) == CodeOf(r.log[k]) { FirstCodeAt(r.log, k); }
    if forall k :: 0 <= k < |r.log| ==> CodeOf(r.log[k]).None? { NothingSent(r.log); }
  }

  lemma {:induction false} FirstCodeStays(log: seq<Entry>, k: nat)
    requires k < |log|
    ensures FirstCode(log[..k]).Some? ==> FirstCode(log) == FirstCode(log[..k])
    ensures FirstCode(log[..k]).None? && CodeOf(log[k]).Some? ==> FirstCode(log) == CodeOf(log[k])
  {
    var front := log[..|log| - 1];
    if k < |front| {
      FirstCodeStays(front, k);
      assert front[..k] == log[..k];
    } else {
      assert front == log[..k];
    }
  }

  /** Every panic is recovered, each once, or one leaves the chain. When one is recovered the
  client gets the header sent before, and a 500 if there was none. */
  lemma PanicsAreReported(hs: seq<Handler>)
    ensures var r := Serve(hs);
      && Panics(r.log) == Rescues(r.log) + (if r.panicked then 1 else 0)
      && (forall k :: 0 <= k < |r.log| && r.log[k].Rescue? ==>
            var sent := FirstCode(r.log[..k]);
            r.response.headerCalls == [if sent.Some? then sent.value else 500])
  {
    NextKeepsInv(hs, FIRST);
    var r := Serve(hs);
    forall k | 0 <= k < |r.log| && r.log[k].Rescue?
      ensures FirstCode(r.log) == if FirstCode(r.log[..k]).Some? then FirstCode(r.log[..k]) else Some(500)
    {
      FirstCodeStays(r.log, k);
    }
  }

  /** Recovery shields exactly what comes after it: wherever it stands in the chain, a panic
  leaves the chain if and only if one leaves the chain of the handlers before it. */
  lemma RecoveryShieldsTheRest(hs: seq<Handler>, p: nat)
    requires p < |hs| && hs[p].Recovery?
    ensures Serve(hs).panicked <==> Serve(hs[..p]).panicked
  {
    NextAgrees(hs, p, FIRST, FIRST);
  }

  /** Two chains that stand at the same handler before `p`, or are both past their ends. */
  predicate Alike(hs: seq<Handler>, p: nat, c: Chain, d: Chain) {
    && -1 <= d.index && c.panicked == d.panicked
    && if d.index < p then c.index == d.index else c.index >= |hs|
  }

  lemma {:induction false} NextAgrees(hs: seq<Handler>, p: nat, c: Chain, d: Chain)
    requires p < |hs| && hs[p].Recovery? && Alike(hs, p, c, d) && !c.panicked
    ensures Alike(hs, p, RunNext(hs, c), RunNext(hs[..p], d))
    decreases Left(|hs|, c), 0, 0
  {
    var c1, d1 := c.(index := c.index + 1), d.(index := d.index + 1);
    if c1.index == p {
      LoopFromRecovery(hs, c1);
    } else if c1.index < p {
      LoopAgrees(hs, p, c1, d1);
    }
  }

  lemma {:induction false} LoopAgrees(hs: seq<Handler>, p: nat, c: Chain, d: Chain)
    requires p < |hs| && hs[p].Recovery? && Alike(hs, p, c, d) && !c.panicked && 0 <= d.index < p
    ensures Alike(hs, p, RunLoop(hs, c), RunLoop(hs[..p], d))
    decreases Left(|hs|, c), 3, 0
  {
    var i := d.index;
    var c0, d0 := c.Logging(Start(i)), d.Logging(Start(i));
    HandlerAgrees(hs, p, i, c0, d0);
    var c1, d1 := RunHandler(hs, i, c0), RunHandler(hs[..p], i, d0);
    if !c1.panicked {
      var c2, d2 := c1.(index := c1.index + 1), d1.(index := d1.index + 1);
      if c2.index == p {
        LoopFromRecovery(hs, c2);
      } else if c2.index < p {
        LoopAgrees(hs, p, c2, d2);
      }
    }
  }

  lemma {:induction false} HandlerAgrees(hs: seq<Handler>, p: nat, i: nat, c: Chain, d: Chain)
    requires p < |hs| && hs[p].Recovery? && Alike(hs, p, c, d) && !c.panicked && i < p
    ensures Alike(hs, p, RunHandler(hs, i, c), RunHandler(hs[..p], i, d))
    decreases Left(|hs|, c), 2, 0
  {
    match hs[i]
    case Plain(actions) => ActionsAgree(hs, p, i, actions, c, d);
    case Recovery(_) => NextAgrees(hs, p, c, d);
  }

  lemma {:induction false} ActionsAgree(hs: seq<Handler>, p: nat, i: nat, actions: seq<Action>, c: Chain, d: Chain)
    requires p < |hs| && hs[p].Recovery? && Alike(hs, p, c, d) && !c.panicked
    ensures Alike(hs, p, RunActions(hs, i, actions, c), RunActions(hs[..p], i, actions, d))
    decreases Left(|hs|, c), 1, |actions|
  {
    if actions != [] {
      var rest := actions[1..];
      var c1, d1 := Acted(|hs|, i, actions[0], c), Acted(p, i, actions[0], d);
      if actions[0].CallNext? {
        NextAgrees(hs, p, c1, d1);
        if !RunNext(hs, c1).panicked { ActionsAgree(hs, p, i, rest, RunNext(hs, c1), RunNext(hs[..p], d1)); }
      } else if !actions[0].Panic? {
        ActionsAgree(hs, p, i, rest, c1, d1);
      }
    }
  }

  /** The loop that reaches the recovery middleware ends there, without a panic. */
  lemma LoopFromRecovery(hs: seq<Handler>, c: Chain)
    requires 0 <= c.index < |hs| && hs[c.index].Recovery? && !c.panicked
    ensures !RunLoop(hs, c).panicked && RunLoop(hs, c).index >= |hs|
  {
    NextRunsOut(hs, c.Logging(Start(c.index)));
  }

  /** Next returns only when no handler is left, unless it panics. */
  lemma {:induction false} NextRunsOut(hs: seq<Handler>, c: Chain)
    requires -1 <= c.index && !c.panicked
    ensures RunNext(hs, c).panicked || RunNext(hs, c).index >= |hs|
    decreases Left(|hs|, c), 0, 0
  {
    var c1 := c.(index := c.index + 1);
    if c1.index < |hs| { LoopRunsOut(hs, c1); }
  }

  lemma {:induction false} LoopRunsOut(hs: seq<Handler>, c: Chain)
    requires 0 <= c.index < |hs|
    ensures RunLoop(hs, c).panicked || RunLoop(hs, c).index >= |hs|
    decreases Left(|hs|, c), 3, 0
  {
    var c1 := RunHandler(hs, c.index, c.Logging(Start(c.index)));
    if !c1.panicked && c1.index + 1 < |hs| { LoopRunsOut(hs, c1.(index := c1.index + 1)); }
  }

  /** With recovery first, no panic ever leaves the chain. */
  lemma RecoveryFirstContainsAll(hs: seq<Handler>)
    requires hs != [] && hs[0].Recovery?
    ensures !Serve(hs).panicked
  {
    RecoveryShieldsTheRest(hs, 0);
  }

  // ---------------------------------------------------------------- the objects

  /** responseWriter, with the underlying writer's log in the last two fields. */
  class ResponseWriter {
    var status: int
    var written: bool
    var size: nat
    var headerCalls: seq<int>
    var accepted: nat

    ghost function Abs(): Response
      reads this
    {
      Response(status, written, size, headerCalls, accepted)
    }

    constructor ()
      ensures Abs() == NO_RESPONSE
    {
      status, written, size, headerCalls, accepted := 0, false, 0, [], 0;
    }

    method WriteHeader(code: int)
      modifies this
      ensures Abs() == old(Abs()).Header(code)
      ensures written && status == (if old(written) then old(status) else code)
      ensures headerCalls == if old(written) then old(headerCalls) else old(headerCalls) + [code]
      ensures size == old(size) && accepted == old(accepted)
    {
      if !written {
        status := code;
        written := true;
        headerCalls := headerCalls + [code];
      }
    }

    /** `n` is how many bytes the underlying writer takes. */
    method Write(n: nat)
      modifies this
      ensures Abs() == old(Abs()).Body(n)
      ensures written && status == (if old(written) then old(status) else 200)
      ensures headerCalls == if old(written) then old(headerCalls) else old(headerCalls) + [200]
      ensures size == old(size) + n && accepted == old(accepted) + n
    {
      if !written { WriteHeader(200); }
      accepted := accepted + n;
      size := size + n;
    }

    /** The code that reached the client; a zero code is reported as 200. */
    method Status() returns (code: int)
      requires Abs().Consistent()
      ensures headerCalls == [] ==> code == 0
      ensures headerCalls != [] ==> code == if headerCalls[0] == 0 then 200 else headerCalls[0]
    {
      code := if status == 0 && written then 200 else status;
    }

    method Size() returns (n: nat)
      requires Abs().Consistent()
      ensures n == accepted
    {
      n := size;
    }
  }

  class RequestProcessor {
    const writer: ResponseWriter
    const handlers: seq<Handler>
    var index: int
    ghost var log: seq<Entry>

    ghost function Abs(panicked: bool): Chain
      reads this, writer
    {
      Chain(index, writer.Abs(), panicked, log)
    }

    constructor (w: ResponseWriter, hs: seq<Handler>)
      requires w.Abs() == NO_RESPONSE
      ensures writer == w && handlers == hs && Abs(false) == FIRST
    {
      writer, handlers, index, log := w, hs, -1, [];
    }

    predicate IsAborted()
      reads this
    {
      index >= |handlers|
    }

    /** A panic is an early return with `panicked` set. Otherwise the chain counts as aborted
    afterwards, whether or not anybody called Abort. */
    method Next() returns (panicked: bool)
      requires -1 <= index
      modifies this, writer
      ensures Abs(panicked) == RunNext(handlers, old(Abs(false)))
      ensures -1 <= index && (!panicked ==> IsAborted())
      ensures old(IsAborted()) ==> !panicked && log == old(log)
      decreases Left(|handlers|, Abs(false)), 0, 0
    {
      index := index + 1;
      ghost var whole := RunNext(handlers, old(Abs(false)));
      while index < |handlers|
        invariant 0 <= index
        invariant whole == if index < |handlers| then RunLoop(handlers, Abs(false)) else Abs(false)
        invariant Left(|handlers|, Abs(false)) < old(Left(|handlers|, Abs(false)))
          || index >= |handlers|
        decreases Left(|handlers|, Abs(false))
      {
        log := log + [Start(index)];
        panicked := Handle(index);
        if panicked { return; }
        index := index + 1;
      }
      panicked := false;
    }

    method Handle(i: nat) returns (panicked: bool)
      requires i < |handlers| && 0 <= index
      modifies this, writer
      ensures Abs(panicked) == RunHandler(handlers, i, old(Abs(false)))
      ensures 0 <= index
      decreases Left(|handlers|, Abs(false)), 2, 0
    {
      match handlers[i]
      case Plain(actions) => panicked := Perform(i, actions);
      case Recovery(accepted) =>
        panicked := Next();
        if panicked { panicked := Recover(i, accepted); }
    }

    method Perform(ghost i: nat, actions: seq<Action>) returns (panicked: bool)
      requires 0 <= index
      modifies this, writer
      ensures Abs(panicked) == RunActions(handlers, i, actions, old(Abs(false)))
      ensures 0 <= index
      decreases Left(|handlers|, Abs(false)), 1, |actions|
    {
      if actions == [] { return false; }
      log := log + [Did(i, actions[0])];
      match actions[0] {
        case CallNext =>
          panicked := Next();
          if panicked { return; }
        case CallAbort => Abort();
        case WriteHeader(code) => writer.WriteHeader(code);
        case Write(n) => writer.Write(n);
        case Panic => return true;
      }
      panicked := Perform(i, actions[1..]);
    }

    method Abort()
      modifies this`index
      ensures IsAborted() && index == |handlers|
    {
      index := |handlers|;
    }

    /** `accepted` is what the underlying writer takes of the error message, if one is sent. */
    method Recover(ghost i: nat, accepted: nat) returns (panicked: bool)
      modifies this`index, this`log, writer
      ensures !panicked && Abs(false) == Recovered(|handlers|, i, accepted, old(Abs(true)))
      ensures IsAborted() && writer.written
      ensures writer.headerCalls == old(writer.headerCalls) + if old(writer.written) then [] else [500]
      ensures writer.size == old(writer.size) + if old(writer.written) then 0 else accepted
    {
      log := log + [Rescue(i, accepted)];
      if !writer.written {
        writer.WriteHeader(500);
        writer.Write(accepted);
      }
      Abort();
      panicked := false;
    }
  }

  /** Route.ServeHTTP on the objects: the interpreter's result, hence all of the above. */
  method ServeHTTP(handlers: seq<Handler>) returns (w: ResponseWriter, panicked: bool)
    ensures w.Abs() == Serve(handlers).response && panicked == Serve(handlers).panicked
  {
    w := new ResponseWriter();
    var rp := new RequestProcessor(w, handlers);
    panicked := rp.Next();
  }
}
