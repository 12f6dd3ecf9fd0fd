# Verification of go-supervisor

A Dafny model of the parts of go-supervisor where goroutines, mutexes and channels meet, with
proofs of what they promise. `dafny verify dfyconfig.toml` checks everything.

| part | files |
|---|---|
| HTTP cluster: reconciliation and crash supervision | `Cluster`, `ClusterSafety`, `ClusterResults`, `ClusterRamp`, `ClusterPipeline`, `ClusterRunner`, `StaleRestart`, `Entries`, `CrashTracker`, `HttpConfig` |
| Composite runner: single-flight reload and child generations | `Composite`, `CompositeSafety`, `CompositeResults`, `CompositeRunner`, `Membership` |
| `lifecycle.StartStop` | `Lifecycle` |
| HTTP middleware chain, recovery, response writer | `Middleware`, `MiddlewareDeeds` |
| Supervisor: shutdown and state subscribers | `Shutdown`, `Subscribers` |
| Shared | `Fsm`, `Names`, `Wrappers` |

Each concurrent component appears twice. Once as a transition system on values, whose steps
are the atomic actions of the goroutines (a critical section, a channel operation, a status
transition); a sequence of steps is an interleaving, and the theorems hold after every one.
And once as a class whose methods assign the fields and run the loops of the source; their
contracts tie the new state to the same step functions. The classes of the cluster and of
`StartStop` perform one critical section per method. The composite runner's class records the
run it has taken so far and is proved to be in the state the transition system reaches by it;
between any two steps of a method the other goroutines may take any of theirs, following a
schedule about which nothing is assumed.

The status machine's table belongs to a library. It is a parameter about which `Fsm.ShownEdges`
assumes only the edges the repository relies on: New, Booting, Running; Running to Reloading and
back; Running, Stopping, Stopped; and that Reloading to Stopped, Error to Running and Error to
Reloading are illegal.

Environment: which servers start, fail or crash, how long Stop calls take, what callbacks
return, when contexts are cancelled and how the clock advances are parameters or steps that may
happen at any time. Assumed are a server factory that returns a new instance on each call, a
clock that does not run backwards, and one Run call per composite runner.

Where the code differs from what is said about it, the model follows the code:

- `runnables/httpcluster/runner.go:416-420` says that a crash sets Error without the mutex. The
  escalations at lines 701-709 and 765-771 hold it.
- `runnables/httpcluster/runner.go:748-751` says that a stale generation aborts. Escalation
  deletes the record and with it the generation count, so a supervisor left over from before
  can pass (`StaleRestart.StaleSupervisorPasses`); `ClusterResults.OnlyTheNewestCrashRestarts`
  says exactly when the passing one is the newest.
- `runnables/composite/reload.go:33-36` says that shutdown no longer observes Reloading. It
  does when a caller is admitted and has not sent yet (`CompositeResults.ShutdownCanEndInError`).
- `runnables/composite/runner.go:61-65` says that a caller always unblocks. A send after the
  last drain is never answered (`CompositeResults.RequestCanComeTooLate`).
- `runnables/composite/reload.go:217` speaks of sets of runnables. Lengths are compared too, and
  a new list that repeats a name can be reported unchanged (`Membership`).
- `runnables/composite/reload.go:187-190` says that caller and status machine see the errors of all
  children as one. One cancelled child makes the whole reload count as cancelled, and the runner
  is Running again whatever else failed (`CompositeRunner.ReloadEntries`).
- `runnables/httpcluster/runner.go:774-775` speaks of a healthy server. The attempts are reset as well
  when the start was cut short by a cancellation (`ClusterResults.RestartSettlesTheRecord`).
- `runnables/httpcluster/runner.go:799` describes a capped doubling. It reaches the cap one
  doubling early when doubling would land on max - 1 (`CrashTracker.BackoffIsIdealExactlyWhen`).
- `supervisor/lifecycle/startstop.go:65-66` says that Stop signals the runnable and waits for its
  Run. A restart between its two critical sections makes it wait for a run that was not signalled
  (`Lifecycle.StopCanWaitForAnUntoldRun`).

## Model

| member | source | states |
|---|---|---|
| ClusterSafety.StepKeepsInv | runnables/httpcluster/runner.go:404-778 | Every atomic step, from every state that satisfies the invariant, keeps it: ownership of servers, supervision of crashed ones, the crash windows and the admissible states. |
| ClusterSafety.RunKeepsInv | runnables/httpcluster/runner.go:404-778 | The same for every interleaving of updates, crashes, backoff expiries, cancellation, clock ticks and shutdown. |
| ClusterResults.EveryServerIsOwned | runnables/httpcluster/runner.go:404-482 | After every run a live server is the runner of exactly one entry, its own id's; no id has two live servers; no entry refers to a server that was told to stop. |
| ClusterPipeline.MidwayNothingLeaks | runnables/httpcluster/runner.go:487-632 | At every point inside an update, in every order of its stops and starts, a live server is held by exactly one working entry (its own or its stop key) and no id has two. The loops of stopServers and startServers are proved to pass only through such points. |
| ClusterResults.NoCrashIsForgotten | runnables/httpcluster/runner.go:693-772 | While the context lives and the mutex is free, an entry without a runner has a waiting supervisor that passes all three guards. |
| ClusterResults.OnlyTheNewestCrashRestarts | runnables/httpcluster/runner.go:752-756 | Of the supervisors scheduled in one crash record at most one passes the guards; a passing one is the latest crash's exactly when its record is the live one. |
| StaleRestart.StaleSupervisorPasses | runnables/httpcluster/runner.go:748-756 | A run after which a supervisor of a deleted record passes every guard together with the newest one: generations restart at zero when escalation deletes the record. |
| ClusterResults.ShutdownIsFinal | runnables/httpcluster/runner.go:367-401 | After shutdown no run creates a server, records a failure, schedules a restart or changes the status. |
| ClusterResults.ShutdownStopsEverything | runnables/httpcluster/runner.go:386-398 | Shutdown leaves no entry and no live server, and keeps the crash records; a Running cluster ends Stopped. |
| ClusterResults.StoppedServersDoNotCrash | runnables/httpcluster/runner.go:662-698 | The error of a server that had been told to stop changes nothing but the list of reports. |
| ClusterResults.SupersededServersDoNotCrash | runnables/httpcluster/runner.go:693-699 | So does the error of a server that another one replaced or whose entry is gone. |
| ClusterResults.CrashIsReported | runnables/httpcluster/runner.go:662-671 | A crash with a live context stays reported, over every run, until a supervisor takes the mutex for it. |
| ClusterResults.EscalatesExactlyOnCrashLoop | runnables/httpcluster/runner.go:701-709 | A crash escalates exactly when more than maxRestarts crashes of the record, this one included, lie in the window ending now; then entry and record go, the status becomes Error and nothing is scheduled. The window never holds more than maxRestarts + 1. |
| ClusterResults.FailuresAreTheWindow | runnables/httpcluster/runner.go:782-797 | The incrementally pruned list equals the window over everything the record ever recorded. |
| ClusterResults.CrashSchedulesOneRestart | runnables/httpcluster/runner.go:711-720 | A crash that does not escalate schedules exactly one new restart, which passes the guards and waits the capped doubling for the attempt (one unit more where it lands just below the cap). |
| ClusterResults.CrashClearsTheRuntime | runnables/httpcluster/runner.go:711-720 | Such a crash clears the runtime of its own entry only, keeps status and servers, and counts one attempt, one generation and one crash in the live record, or in a new one. |
| ClusterRamp.AttemptsAreTheStreak | runnables/httpcluster/runner.go:711-776 | Over every run the attempts of the live record are the crashes in a row: counted since the record was created or since the last restart of that record that did not fail. |
| ClusterRamp.CrashWaitsTheRamp | runnables/httpcluster/runner.go:711-735 | Over every run a crash that leads to a restart waits the capped doubling for that count. |
| ClusterRamp.FirstCrashWaitsTheInitialBackoff | runnables/httpcluster/runner.go:711-715 | The first crash of a record waits exactly the initial backoff. |
| ClusterRamp.NextCrashDoublesTheWait | runnables/httpcluster/runner.go:711-715 | The next one of the record, with no successful restart in between, waits twice as long, or the maximum if that is not below it. |
| ClusterRamp.CrashAfterRestartStartsOver | runnables/httpcluster/runner.go:774-776 | A crash after a restart that did not fail, with no other in between, waits the initial backoff again. |
| ClusterRamp.GenerationsCountCrashes | runnables/httpcluster/runner.go:711-714 | Over every run the generation of a live record is the number of crashes in it. |
| ClusterResults.StaleRestartChangesNothing | runnables/httpcluster/runner.go:739-756 | Without an idle entry and a record of the same generation, a supervisor only ends. |
| ClusterResults.RestartServes | runnables/httpcluster/runner.go:758-772 | A restarted server that becomes ready is the runner of its entry; otherwise the entry goes and the server, if created, is told to stop. |
| ClusterResults.RestartSettlesTheRecord | runnables/httpcluster/runner.go:758-776 | With a live context a failed restart removes the record and sets Error; with a cancelled one record and status stay. A restart that did not fail sets the attempts of its record to zero if that record is live. |
| ClusterResults.UpdateIsExact | runnables/httpcluster/runner.go:451-481 | Without failures the entries are exactly the wanted ids without pending action, each with the wanted configuration up to the order of its routes; a server that already had it is kept, all others are newly created. |
| ClusterResults.SettledIsExact | runnables/httpcluster/entries.go:122-141 | The same about the committed collection, for every set of starts that succeed. |
| ClusterResults.ReapplyingChangesNothing | runnables/httpcluster/runner.go:451-481 | Applying the same validated configurations again starts nothing, stops nothing and leaves the whole state as it is. |
| ClusterResults.UpdateFailsExactlyWhen | runnables/httpcluster/runner.go:466-481 | For any outcomes, an admitted update ends in Error exactly when a start it makes fails: the server is not created, or does not become ready without being cancelled. It touches no crash record. |
| ClusterResults.UpdateKeepsExactly | runnables/httpcluster/runner.go:494-514 | Every wanted server has an entry except those whose start did not work; when the update is cancelled in the pause after its stops, nothing is created and those to be started wait without a runner. |
| ClusterResults.UpdateCreatesExactly | runnables/httpcluster/runner.go:568-632 | Which servers an update creates, for any outcomes. |
| ClusterResults.UpdateStopsExactly | runnables/httpcluster/runner.go:520-632 | Which servers it stops: running ones that are dropped or replaced, and created ones that do not become ready. |
| ClusterResults.FailuresAreIsolated | runnables/httpcluster/runner.go:588-626 | For any two outcome assignments an id with the same own outcome ends the same; a failed one is removed. |
| ClusterResults.ErrorMeansAServerIsMissing | runnables/httpcluster/runner.go:470-481 | While the context lives, the status after any update of any run is Running if every wanted server has an entry and Error if one is missing. |
| ClusterResults.ErrorMeansAServerIsGivenUp | runnables/httpcluster/runner.go:701-709 | In the same way a supervisor step turns Running into Error exactly when an entry is given up, and adds none. |
| ClusterResults.NoUpdateIsDropped | runnables/httpcluster/runner.go:422-449 | Over every run, an update before shutdown takes effect whatever failed before: no unwanted entry is left, unchanged servers keep their runner, and the next update will be admitted too. |
| ClusterPipeline.PipelineSettles | runnables/httpcluster/runner.go:487-517 | Diff, stops, starts and commit together produce the settled collection: stop keys disappear, actions are cleared, nothing else is lost or left. |
| ClusterPipeline.PendingActions | runnables/httpcluster/entries.go:84-96 | The ids marked for starting and stopping are exactly those that the difference between running and wanted configurations calls for. |
| ClusterPipeline.StoppedRunners | runnables/httpcluster/runner.go:520-550 | The servers stopped are exactly the running ones that are dropped or replaced. |
| ClusterPipeline.ExecutedIsResults | runnables/httpcluster/runner.go:494-514 | Which starts an execution makes, and that none is made when the wait for released ports is cut short. |
| ClusterPipeline.UpdateToNothing | runnables/httpcluster/runner.go:386-394 | Shutdown's update to no servers stops every running server, keeps no entry and cannot fail. |
| ClusterRunner.Runner.ProcessConfigUpdate | runnables/httpcluster/runner.go:404-482 | An update outside Running and Error changes nothing. An admitted one carries out a possible pending collection and ends in Error, with an error returned, exactly when a start failed; unless a stop key collides with an id that is the update step of the transition system. |
| ClusterRunner.Runner.Admit | runnables/httpcluster/runner.go:434-449 | The guarded transition first, then the look at the state: exactly Running and Error are let in, and end up Reloading. |
| ClusterRunner.Runner.Reconcile | runnables/httpcluster/runner.go:451-465 | The two phases and the commit turn some possible pending collection into entries, stops and starts; without a collision of keys, into the settled entries. |
| ClusterRunner.Runner.ExecuteActions | runnables/httpcluster/runner.go:487-517 | Stops, port wait and starts: working collection, servers stopped and created, failure flag. |
| ClusterRunner.Runner.StopServers | runnables/httpcluster/runner.go:520-563 | Stops each running server on the list, then clears their runtimes. |
| ClusterRunner.Runner.StartServers | runnables/httpcluster/runner.go:568-632 | Starts each listed server that has an entry; failed and aborted ones lose theirs; the flag tells failures from aborts. |
| ClusterRunner.Runner.StartServer | runnables/httpcluster/runner.go:588-626 | One round of that loop, for all outcomes. |
| ClusterRunner.Runner.RecordFailureLocked | runnables/httpcluster/runner.go:782-797 | Records the crash in the live record, creating one if needed, and changes nothing else. |
| ClusterRunner.Runner.BeginSupervision | runnables/httpcluster/runner.go:693-722 | The first critical section of superviseRestart is the first step of the transition system. |
| ClusterRunner.Runner.Schedule | runnables/httpcluster/runner.go:711-722 | Attempt and generation grow by one, the runtime is cleared, and the restart waits the capped doubling for the new attempt. |
| ClusterRunner.Runner.Escalate | runnables/httpcluster/runner.go:705-707 | Entry and record go, and the status becomes Error. |
| ClusterRunner.Runner.FinishSupervision | runnables/httpcluster/runner.go:737-778 | The second critical section is the second step: guards, start, then reset of the ramp, escalation or silent return. |
| ClusterRunner.Runner.MayGoOn | runnables/httpcluster/runner.go:739-756 | The code's three early returns are the three guards. |
| ClusterRunner.Runner.ResetAttempts | runnables/httpcluster/runner.go:774-776 | The attempts of the record the supervisor holds are zero, which matters only if that record is still live. |
| ClusterRunner.Runner.ShutDown | runnables/httpcluster/runner.go:367-401 | The code performs the shutdown step. |
| CrashTracker.BackoffFor | runnables/httpcluster/runner.go:801-813 | The loop computes the specified backoff, within [initial, max], and no value formed on the way exceeds max. |
| CrashTracker.BackoffBoundedAndMonotone | runnables/httpcluster/runner.go:801-813 | The backoff lies in [initial, max] and never decreases as attempts grow. |
| CrashTracker.BackoffIsIdealExactlyWhen | runnables/httpcluster/runner.go:799-813 | It equals min(initial * 2^(attempt-1), max) exactly unless doubling would land on max - 1, where it is one larger; in particular always for even max. |
| CrashTracker.AfterAppend | runnables/httpcluster/runner.go:788-794 | A crash is kept exactly when it is strictly after the cutoff. |
| CrashTracker.RecordingKeepsWindow | runnables/httpcluster/runner.go:788-795 | With a clock that does not run backwards, pruning step by step equals filtering the whole history. |
| CrashTracker.PruneInPlace | runnables/httpcluster/runner.go:788-794 | Pruning into the array being read keeps exactly the crashes after the cutoff, in order. |
| CrashTracker.RestartState.RecordFailure | runnables/httpcluster/runner.go:788-795 | The list becomes the surviving crashes followed by the new one. |
| Entries.BuildPendingEntries | runnables/httpcluster/entries.go:268-303 | For every iteration order each key that is meant to have an entry has one, and one that was meant; without a colliding stop key the result is determined; it keeps every wanted and every running server exactly when no key collides. |
| Entries.PendingIsDetermined | runnables/httpcluster/entries.go:268-303 | Without a collision there is only one possible pending collection. |
| Entries.StopFreeNeverCollides | runnables/httpcluster/entries.go:243 | No id being another id plus ":stop" rules collisions out. |
| Entries.CollisionLosesAServer | runnables/httpcluster/entries.go:243-262 | With a collision every outcome of the loops loses a wanted or a running server. |
| Entries.PendingIsFaithful | runnables/httpcluster/entries.go:208-303 | The intended collection loses no server. |
| Entries.ProcessExisting | runnables/httpcluster/entries.go:280-285 | After the first loop, in any order, every entry is one that was meant and every key an existing server yields is there. |
| Entries.ProcessNew | runnables/httpcluster/entries.go:287-302 | The second loop completes a possible pending collection. |
| Entries.NewEntries | runnables/httpcluster/entries.go:49-64 | Nil configurations are skipped; every other id gets a fresh entry to be started. |
| Entries.RemoveEntry | runnables/httpcluster/entries.go:67-81 | A copy without that id. |
| Entries.ReplaceRuntime | runnables/httpcluster/entries.go:146-204 | A copy in which only that entry's runtime differs; nil when there is no entry. |
| Entries.GetPendingActions | runnables/httpcluster/entries.go:84-96 | Two lists without repetition holding exactly the ids to start and to stop. |
| Entries.Commit | runnables/httpcluster/entries.go:122-141 | Entries to be stopped are dropped, the actions of the others cleared. |
| HttpConfig.EqualIsPermutation | runnables/httpserver/routes.go:85-122 | For a new list with distinct paths the comparison is true exactly when one list is a permutation of the other. |
| HttpConfig.EqualInGeneral | runnables/httpserver/routes.go:85-122 | For all lists, repeated paths included: as many routes, the same names as a multiset, and every new route is the last old one under its path. |
| HttpConfig.RepeatedPathMisleads | runnables/httpserver/routes.go:85-122 | For every list that repeats a path some list makes the comparison wrong: the condition is exact. |
| HttpConfig.CompareRoutes | runnables/httpserver/routes.go:85-122 | The loops over sorted names and paths decide exactly that. |
| HttpConfig.EqualIsEquivalence | runnables/httpserver/config.go:228-261 | On configurations that NewConfig accepts, Equal is an equivalence relation. |
| HttpConfig.EqualMeansSameUpToOrder | runnables/httpserver/config.go:228-261 | Against a configuration that NewConfig accepts, Equal is true exactly when the two are identical but for the order of their routes. |
| HttpConfig.RepeatedPaths | runnables/httpserver/config.go:179-192 | The duplicate loop reports every repeated path once, and nothing exactly when the paths are distinct. |
| CompositeSafety.StepKeepsInv | runnables/composite/runner.go:128-429 | Every step of a Reload call, a child or Run keeps the invariant: one gate, one answer per request, one generation of children, a status that fits where Run stands. |
| CompositeSafety.RunKeepsInv | runnables/composite/runner.go:128-429 | The same for every interleaving. |
| CompositeResults.OneReloadAtATime | runnables/composite/reload.go:48-116 | At most one reload is admitted, queued or worked on; meanwhile the status is not Running; the send on the capacity-one channel never waits. |
| CompositeResults.GateIsReleasedForItsTaker | runnables/composite/reload.go:124-131 | Reloading is ended only by a step on behalf of the caller that holds the gate, or by declaring Error. |
| CompositeResults.FailedCallbackIsFinal | runnables/composite/reload.go:75-84 | After a callback without a configuration, from any reachable state, the status is Error with the gate free, and over every continuation nobody reloads and every later call is turned away. |
| CompositeResults.ErrorAdmitsNobody | runnables/composite/reload.go:60-73 | The same from any state in Error with the gate free. |
| CompositeResults.CallKeepsItsConfiguration | runnables/composite/reload.go:75-108 | Over every run the configuration that a callback returned is the one that is sent and the one Run works on for that call. |
| CompositeResults.OneAnswerPerRequest | runnables/composite/runner.go:194-301 | Every received request is answered once and every answer finds room; an unanswered request is still in the channel or in Run's hands, never both. |
| CompositeResults.AnswerReachesItsCaller | runnables/composite/runner.go:208-210 | The answer Run is about to give is the one its caller gets, and it stays, over every continuation. |
| CompositeResults.LastDrainAnswersAll | runnables/composite/runner.go:283-301 | When the last drain ends every sent request has its answer; afterwards one lacks it exactly when it is buffered. |
| CompositeResults.RequestCanComeTooLate | runnables/composite/reload.go:102-115 | A run in which a caller sends after the last drain, although DoneCh is closed. |
| CompositeResults.LateRequestWaitsForever | runnables/composite/reload.go:102-108 | Such a request is never answered, whatever happens afterwards. |
| CompositeResults.ShutdownCanEndInError | runnables/composite/runner.go:160-178 | A run with a graceful stop and no failure that ends in Error: the gate is held through the shutdown. |
| CompositeResults.ShutdownEndsStoppedExactlyWhen | runnables/composite/runner.go:164-182 | Over everything callers do after the attempt to reach Stopping: the runner ends Stopped exactly when the last transition is legal; surely if the gate was free and nothing had failed; and exactly then if neither Running nor Error leads to Stopped directly. |
| CompositeResults.LastTransitionDecides | runnables/composite/runner.go:175-182 | The status found by the transition to Stopped decides how Run ends, whatever happens around it. |
| CompositeResults.StoppingEndsStopped | runnables/composite/runner.go:164-182 | Once Stopping is reached the runner ends Stopped in every continuation. |
| CompositeResults.FinalStatusStays | runnables/composite/runner.go:128-183 | Past Run's last transition the status is Error or Stopped and no step changes it. |
| CompositeResults.NoChildOutlivesRun | runnables/composite/runner.go:389-429 | When Run is over no child is running. |
| CompositeResults.GenerationsAreIsolated | runnables/composite/runner.go:307-429 | All running children, any queued error and any error that ended Run belong to the current generation; children stand for configured entries. |
| CompositeResults.ReplacedChildNeverEndsRun | runnables/composite/reload.go:141-154 | Over any further sequence of steps, a child of a replaced generation neither runs, nor has its error queued, nor ends Run. |
| CompositeResults.FailureIsNotLost | runnables/composite/runner.go:369-384 | When a child fails, its error or the one queued before it stays queued, over every continuation, until it ends Run or its generation is replaced. |
| CompositeResults.ReplacesExactlyWhen | runnables/composite/runner.go:235-245 | The children are replaced exactly when the new list has another length or a name the current one lacks. |
| CompositeResults.ReplacementIsComplete | runnables/composite/reload.go:156-167 | A replacing reload leaves one child per new entry, all of a new generation, the new configuration stored and no old error. |
| CompositeResults.InPlaceKeepsMembership | runnables/composite/reload.go:176-215 | A reload in place starts and stops nobody, and with distinct names the entries are a permutation of the old ones. |
| CompositeResults.ReloadConcludes | runnables/composite/runner.go:247-270 | Every reload frees the gate and is answered with its own result; the status is Error exactly when it failed, else Running; the transition is never refused. |
| CompositeRunner.Runner.TryAdmit | runnables/composite/reload.go:48-73 | Admitted exactly from Running with a live context, which takes the gate; otherwise only the call's result is set. |
| CompositeRunner.Runner.FinishCallback | runnables/composite/reload.go:75-87 | Without a configuration the runner is in Error, the gate is free and the call returns; with one, only the call moves on to the select. |
| CompositeRunner.Runner.SendRequest | runnables/composite/reload.go:101-108 | The channel is empty, and the send places this call with its configuration there. |
| CompositeRunner.Runner.AbortDispatch | runnables/composite/reload.go:109-131 | From Reloading the gate is given back and the runner is Running again; otherwise Run has ended and the runner stays in Error, whatever others do between the refused transition and the escalation. |
| CompositeRunner.Runner.ServeRequest | runnables/composite/runner.go:208-210 | One turn of the event loop, whatever others do meanwhile: the caller gets the outcome and the configuration is the caller's; if nobody interferes also status, gate and all other calls. |
| CompositeRunner.Runner.HandleReload | runnables/composite/runner.go:229-270 | Replaces the children exactly when membership changed, else reloads in place; status, configuration, generation, gate and answer afterwards, for any interference between its steps. |
| CompositeRunner.ReloadEntries | runnables/composite/reload.go:191-214 | Each child that takes settings gets those of its own new entry. The reload succeeds exactly when no child reports an error, and counts as cancelled exactly when one reports a cancellation. |
| CompositeRunner.Runner.ReloadWithRestart | runnables/composite/reload.go:134-169 | For any interference: exactly one child per new entry of a new generation, no error queued, the configuration stored, and the request still waiting. |
| CompositeRunner.Runner.Conclude | runnables/composite/runner.go:247-270 | The gate is free and the status is Error exactly after a failure; the transition to Running is never refused. |
| CompositeRunner.Runner.SendResult | runnables/composite/runner.go:208-210 | The result channel is empty, and exactly that call's answer is set. |
| CompositeRunner.Runner.DrainReloadCh | runnables/composite/runner.go:283-301 | For any interference the channel is empty at the end, a request buffered at the start has got the abandonment answer, and answers given before stay; if nobody interferes nothing else changes but Reloading, which is undone. |
| CompositeRunner.Runner.Boot | runnables/composite/runner.go:320-346 | An empty configuration launches nothing and keeps the generation; otherwise one child per entry of a new one. |
| CompositeRunner.Runner.ChildReturns | runnables/composite/runner.go:354-384 | The child is gone; its failure is forwarded exactly when the channel holds none. |
| CompositeRunner.Runner.StopAllRunnables | runnables/composite/runner.go:389-429 | All children are gone and Run is otherwise undisturbed; if nobody interferes, an error is queued exactly if one was or a child failed. |
| CompositeRunner.Runner.Start | runnables/composite/runner.go:128-156 | Up to the event loop: Running with one child per entry, some of which may have returned, or Error when there is no configuration. |
| CompositeRunner.Runner.ShutDown | runnables/composite/runner.go:160-182 | For any interference: all children gone, every sent request answered, Stopped if the attempt to reach Stopping found Running; if nobody interferes, Stopped if the runner was Running or the ongoing reload had been sent, and Error if a reload was admitted but not sent. |
| CompositeRunner.Runner.FailOn | runnables/composite/runner.go:202-206 | For any interference a current child's error ends Run in Error with all children stopped and every sent request answered. |
| CompositeRunner.Runner.OthersAct | runnables/composite/runner.go:194-212 | What Run, or a call that gives up, can rely on while other goroutines take any of their steps. |
| Membership.HasMembershipChanged | runnables/composite/reload.go:218-238 | The loops decide the specified test. |
| Membership.ChangedInGeneral | runnables/composite/reload.go:218-238 | For all lists: unchanged exactly when the lengths agree and no new name is missing from the old list. |
| Membership.UnchangedExactlyWhenPermuted | runnables/composite/reload.go:217-238 | For distinct new names: unchanged exactly when the lists are permutations of each other by name, although one inclusion is tested. |
| Membership.ChangedExactlyWhenSetsDiffer | runnables/composite/reload.go:217-238 | As a comparison of sets it errs exactly when the sets are equal and the old list repeats a name. |
| Membership.RepeatedNameMisleads | runnables/composite/reload.go:231-237 | For every new list that repeats a name some old list with other names is reported unchanged. |
| Lifecycle.RunKeepsInv | supervisor/lifecycle/startstop.go:39-84 | Every interleaving of runs, done calls and Stops keeps the protocol invariant. |
| Lifecycle.EveryInterleavingIsSafe | supervisor/lifecycle/startstop.go:39-84 | No channel is closed twice, stopped says whether the stop channel is closed, no Stop waits on a nil channel, and a Stop returns only after the run whose done channel it read has ended. |
| Lifecycle.StopWaitsForAToldRun | supervisor/lifecycle/startstop.go:68-84 | The run a Stop waits for has been told to stop exactly when some Stop signalled in the current cycle, in particular when no reset fell between its two sections. |
| Lifecycle.StopCanWaitForAnUntoldRun | supervisor/lifecycle/startstop.go:68-84 | When a reset does fall in between, a Stop can wait for a run nobody told to stop. |
| Lifecycle.StartedRenewsExactlyWhen | supervisor/lifecycle/startstop.go:39-58 | A new run listens on a new, open stop channel exactly when the run before it had ended; otherwise on the current one, signalled or not. |
| Lifecycle.StopGoesOn | supervisor/lifecycle/startstop.go:77-84 | After every run a Stop that signalled can go on exactly when some run has started, and one that waits can return exactly when its run has ended. |
| Lifecycle.StartStop.MarkStarted | supervisor/lifecycle/startstop.go:39-58 | Started performs its step; the started channel is closed afterwards, and the stop channel is a new, open one exactly when the previous done channel was closed. |
| Lifecycle.StartStop.MarkDone | supervisor/lifecycle/startstop.go:60-63 | The done function closes its channel once, however often it is called. |
| Lifecycle.StartStop.SignalStop | supervisor/lifecycle/startstop.go:69-75 | First section of Stop: the stop channel is closed afterwards, and was not closed twice. |
| Lifecycle.StartStop.ReadDone | supervisor/lifecycle/startstop.go:79-81 | Second section: the done channel it reads is not nil. |
| Middleware.HandlersStartInOrder | runnables/httpserver/request_processor.go:33-44 | For all handlers: they start in list order, each at most once; none after the first Abort or panic, all if there is neither. |
| Middleware.RecoveryShieldsTheRest | runnables/httpserver/middleware/recovery/recovery.go:22-56 | Wherever recovery stands, a panic leaves the chain if and only if one leaves the chain of the handlers before it. |
| Middleware.PanicsAreReported | runnables/httpserver/middleware/recovery/recovery.go:24-51 | Every panic is recovered, each once, or one leaves the chain; when one is recovered the client gets the header sent before it, or 500 if there was none. |
| Middleware.ResponseFollowsTheLog | runnables/httpserver/response_writer.go:59-76 | For all handlers the client gets one header: the code of the first WriteHeader performed, 200 if a Write came first, 500 if a recovered panic did; the size is that of all writes. |
| MiddlewareDeeds.HandlersDoTheirActions | runnables/httpserver/request_processor.go:33-39 | Every handler that starts does all its actions in order, however calls of Next nest, unless it panics or a panic comes through its call of Next; one that does not start does nothing. |
| Middleware.NextKeepsInv | runnables/httpserver/request_processor.go:33-39 | The index accounts for the started handlers at every point, and Next returns only when no handler is left. |
| Middleware.RequestProcessor.Next | runnables/httpserver/request_processor.go:33-49 | The loop over the mutable index, re-entered by the handlers, computes the interpreter's result and terminates. Unless it panics the processor counts as aborted afterwards, and on an aborted one it starts nothing. |
| Middleware.RequestProcessor.Abort | runnables/httpserver/request_processor.go:42-49 | The processor counts as aborted. |
| Middleware.RequestProcessor.Recover | runnables/httpserver/middleware/recovery/recovery.go:24-51 | Without a committed header a 500 is written, otherwise the response is kept; then the chain is aborted. |
| Middleware.ResponseWriter.WriteHeader | runnables/httpserver/response_writer.go:59-65 | Only the first header is recorded and passed on. |
| Middleware.ResponseWriter.Write | runnables/httpserver/response_writer.go:68-76 | An uncommitted response sends 200 first, a committed one sends no header; accepted bytes are added to the size. |
| Middleware.ResponseWriter.Status | runnables/httpserver/response_writer.go:79-85 | The code the underlying writer received, 200 for a zero code, 0 if none. |
| Middleware.ServeHTTP | runnables/httpserver/routes.go:56-65 | A request's response and panic are those of the interpreter. |
| Shutdown.PIDZero.Shutdown | supervisor/supervisor.go:373-419 | Context cancelled first; each Stop launched once, in reverse, when the wait for its predecessor ended; back at the moment the last Stop and the goroutines have finished, or at the deadline if that comes first; without one it returns exactly when everything finishes; a second call does nothing. |
| Shutdown.PIDZero.StopAll | supervisor/supervisor.go:390-412 | The loop over the runnables. |
| Shutdown.PIDZero.StopRunnableBounded | supervisor/supervisor.go:424-455 | The wait ended because Stop returned in time, or because the deadline was reached while it had not. |
| Shutdown.PIDZero.WaitForGoroutines | supervisor/supervisor.go:459-489 | Back exactly when the tracked goroutines have finished, at once if they have, or at the deadline if they have not by then; without end only if there is neither. |
| Shutdown.EachStoppedOnce | supervisor/supervisor.go:390-412 | Every runnable's Stop is launched exactly once. |
| Shutdown.WithinBudget | supervisor/supervisor.go:383-412 | No wait goes beyond the deadline. |
| Shutdown.LargeBudgetStopsAll | supervisor/supervisor.go:383-412 | A budget larger than the total of all Stop calls waits for every one of them. |
| Shutdown.NoBudgetNoWait | supervisor/supervisor.go:436-441 | Once a Stop used up the budget, all later ones are launched and abandoned at the deadline. |
| Shutdown.WaitsAreDetermined | supervisor/supervisor.go:424-455 | How long each wait lasts is determined by the durations of the Stop calls and the budget. |
| Subscribers.RunKeepsInv | supervisor/state.go:85-192 | Every interleaving of registrations, broadcasts, cancellations and receives keeps the invariant. |
| Subscribers.SubscriptionsAreSafe | supervisor/state.go:120-192 | A subscription's channel is closed at most once, only after it left the subscribers, nothing is sent to it when closed, and no channel exceeds its buffer. |
| Subscribers.EveryChangeIsOffered | supervisor/state.go:78-107 | When the broadcast caused by a change is over, every registered subscriber was offered a snapshot that includes the change, and one whose buffer always had room was sent one. |
| Subscribers.AcceptedIsReceivedInOrder | supervisor/state.go:179-191 | Over every run what a subscriber received, followed by what is buffered, is what was accepted: nothing is evicted, repeated or reordered. |
| Subscribers.SnapshotIsDelivered | supervisor/state.go:171-191 | Whatever happens in between, a delivery appends the states as they were when its broadcast took the snapshot to each subscribed channel with room, and changes no other buffer. |
| Subscribers.FirstSnapshotIsCurrent | supervisor/state.go:91-101 | A new subscriber is sent the current states at once, if there is room. |
| Subscribers.LastIsNewestExactlyWhen | supervisor/state.go:171-191 | A delivery leaves the newest offered snapshot last in a channel exactly when nothing newer was offered there since the broadcast took its snapshot. |
| Subscribers.TimelyRunsStayInOrder | supervisor/state.go:171-191 | Over every run whose deliveries satisfy that, every channel holds its snapshots in order and none newer than offered. |
| Subscribers.SerialBroadcastsStayInOrder | supervisor/state.go:171-191 | In particular over every run in which no snapshot is taken while another waits to be delivered. |
| Subscribers.LastSnapshotCanBeStale | supervisor/state.go:159-192 | A run after which nothing is under way and the last snapshot in a channel is older than the one before it. |
| Subscribers.PIDZero.AddStateSubscriber | supervisor/state.go:85-107 | The channel is registered and offered the current snapshot. |
| Subscribers.PIDZero.SubscribeStateChanges | supervisor/state.go:120-140 | A new registered channel of capacity ten that holds the current snapshot. |
| Subscribers.PIDZero.EndSubscription | supervisor/state.go:128-137 | Unsubscribed, then closed; no subscriber is ever closed. |
| Subscribers.PIDZero.DeliverBroadcast | supervisor/state.go:177-191 | Everybody subscribed at the delivery who has room gets the snapshot, the others are left alone, none is closed, whatever changed since the snapshot was taken. |
| Subscribers.MonitorStateable | supervisor/state.go:233-284 | Broadcasts follow exactly the received states that differ from their predecessor, the first being only the baseline. |
| Subscribers.TransitionsOfMore | supervisor/state.go:246-262 | One more state is announced exactly when it differs from the latest one. |
| Subscribers.TransitionsFollowTheState | supervisor/state.go:246-262 | The announced states never repeat and the last one is the current state. |

## Left out

- ClusterRunner.Runner.ProcessConfigUpdate: which of two entries survives when a stop key equals another server's id depends on the map iteration order; the contract allows either, and `Entries.BuildPendingEntries` proves that a server is lost in both cases.
- ClusterResults.ReapplyingChangesNothing: is stated for configurations without repeated paths, which NewConfig guarantees, because Equal is not reflexive otherwise.
- Middleware.RecoveryShieldsTheRest: the response writer is not replaced (SetWriter), and handlers use Next, Abort and the writer but do not recover panics themselves.
- CompositeRunner.ReloadEntries: storing the configuration and reloading the children is one step of Run, so others cannot act between two children.
- CompositeRunner.Runner.DrainReloadCh: others interfere only finitely often; that a drain ends under endless interference is not claimed.
- Shutdown.PIDZero.Shutdown: computation between the waits takes no time.
- Subscribers.EveryChangeIsOffered: a snapshot is taken at one moment, while the source reads one runnable after the other.
- Cluster: creating a server, recording its runner and waiting for it happen inside one critical section; the midway theorem covers the points between servers.
- Cluster: the runner and its cancel function are one field, and crash records are told apart by a serial number instead of their address.
- Cluster: the event loop with its configuration channel, and the polling that decides whether a server is ready, which is an outcome here.
- Cluster: two Run calls on one cluster runner that overlap.
- Composite: a second Run call on the same runner, and per-child context cancellation.
- Lifecycle: channels are numbered in the order of their creation; closing one twice or waiting on nil is recorded or disabled instead of panicking.
- Liveness: that timers fire, goroutines are scheduled and children react to Stop.
- runnables/httpserver/runner.go and reload.go: the same reload protocol tied to a listener, with a weaker drain.
- Sockets, readiness probes, net/http internals, signals and logging: I/O.
- internal/finitestate: a wrapper around the library whose table is a parameter here.
- ServeMux pattern conflicts and address parsing: library behaviour.
- Header, logger, state and wildcard middleware, functional options, String methods, startup of the supervisor: no property beyond their bodies.
