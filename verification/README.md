# maxgram: verified models of its unattended decisions

maxgram bridges MAX chats into Telegram and keeps itself connected without an operator. This project models
the parts of it that decide on their own, and proves what they promise over every environment, every
interleaving and every crash point. All files verify together: `dafny verify dfyconfig.toml`.

| files | what they model |
|---|---|
| `EgressModel`, `EgressInvariants`, `EgressSteps`, `EgressTicks`, `EgressFiles`, `EgressRuns`, `EgressTheorems` | the MAX egress failover policy as functions on values, its invariants, and its promises over whole runs with crashes |
| `EgressInheritance`, `EgressThresholds`, `EgressContinuations`, `EgressScripts`, `EgressLostReturn`, `EgressLostRecovery` | what a process makes of the failure timer its predecessor left: the exact conditions for failing over on it, at once and later, and two runs in which that happens |
| `EgressSwitching`, `EgressDecisions` | what every switch and every tick does, for every environment: which route it tries and when, what it leaves behind, what it tells and hands over |
| `EgressResidence`, `EgressLostArrival` | the minimum residence on the fallback over whole runs, and the run that cuts it short |
| `MaxEgressController` | the same policy as the object the program runs, each method proved to follow its function |
| `AdapterProtocol` | start loop, lifecycle task, switcher and guarded operations of the MAX adapter, interleaved |
| `WatchdogModel`, `WatchdogFindings`, `WatchdogRules`, `WatchdogRuns`, `WatchdogDelivery`, `Watchdog` | the external watchdog: which observation makes each rule fire, cascade suppression, hysteresis, recoveries and deduplicated delivery |
| `TelegramText` | the lossless text splitter and the senders built on it |
| `AlertOutbox`, `TelegramNotifier` | the persistent alert outbox, its flush, and the path for egress events |
| `MessageIds`, `MediaLedger`, `MediaEffects`, `MediaBridge` | canonical message ids, the ledger of delivered media parts, and the three operations that send parts: what they must not send, and what they do send, record and settle |
| `VoiceRetry` | durable retries for voice messages that arrived empty |
| `Rates`, `Wrappers` | counting what keeps a distance in time; an optional value |

How the models are built:

- What the program cannot decide for itself (clock, probes, readiness, whether a notification or a send is
  accepted, whether the process survives an interaction) is an oracle or an argument. A statement for every
  oracle is a statement for every environment. In `EgressModel` each interaction reads one `Answer`; an answer
  that does not survive ends the process there, and the next step of a `Run` boots from the state file.
- Code that updates an object in place is a class whose methods have loops and invariants; each method is
  proved equal to a specification function, and the lemmas are about those functions.
- Interleavings are sequences of atomic actions, each enabled in some states. Histories (samples, attempts,
  sends, deliveries) are kept beside the state, only to state what happened.
- Histories let a statement demand an effect as well as forbid one: for each main operation there is a lemma that says, for
  every environment, exactly when it acts and what it then leaves behind.
- Five places where the code does less than one would like are stated as they are:
  - A failover follows an unbroken outage unless a lost process left a failure timer in its file that nothing backs
    and that its successor trusts. The file is harmless if it has no timer, if the process was on the fallback, or if
    its latest sample was failing. It is also harmless if the next sample comes so late that it resets the timer, if
    the cooldown outlasts the threshold from any sample that does not, or if a switch was under way and the retry
    cooldown is at least the failover threshold, as it is by default (`Harmless`). If every loss of a run is harmless,
    every failover is backed (`FailoversBacked`). If one is not, some environment leads the successor to a failover
    that is not (`SparedIffNoHarm`, an equivalence; only a threshold no longer than the probe interval confines the
    harm to the first tick, for which `RestartFailsOverUnbackedIffRipe` is exact). Two runs show it: a process lost in
    the middle of a return, with a cooldown below the threshold (`EgressLostReturn.FailureWindowCanBeStale`), and,
    with the default intervals, one lost while it tells of a short recovery
    (`EgressLostRecovery.FailureWindowCanBeStale`).
  - A return to the primary comes after the minimum residence on the fallback if the retry cooldown is no shorter than the
    residence, as by default, or if every lost process had stamped its arrival (`ReturnsAfterResidence`). A process lost between
    saving the route and stamping the arrival leaves nothing to measure the residence by, and with a shorter cooldown its
    successor can return too soon (`ResidenceCanBeCutShort`).
  - A queued message is sent again exactly if it has no receipt (`RequeuedIsSentIffNoReceipt`). Egress events have
    one for 30 days, other messages never (`WhoHasReceipts`).
  - A part posted by a recovery of late media is posted again by a repeat if and only if not every part was posted,
    or the part has no key to be recorded under (`RepeatSendsAgainIff`).
  - A voice retry keeps its schedule if its entry was not added while the worker was about to take its key or was at
    the first or second attempt under it, and none of its attempts raised an error (`UndisturbedOnSchedule`). Each of
    these breaks it in some run (`ReplacementIsTriedAtOnce`, `ReplacementInAttempt`, `RaisedIsTriedAtOnce`); the
    bounds of `RetriesArePaced` and `AttemptsInFirst` hold for every entry.

## Model

| member | source | states |
|---|---|---|
| EgressTheorems.RunKeeps | src/runtime/max_egress.py:178-253 | After any number of ticks, crashes and restarts the state file, the attempt history and the notification history satisfy all invariants, and a live process is ready for its next tick |
| EgressTheorems.CompletedTickAgrees | src/runtime/max_egress.py:121-200 | At the end of every tick the process survives, memory, file and the adapter's actual route agree on `active`, through switches, rollbacks and restores; no deadline is set and the phase fits the route |
| EgressTheorems.FileAlwaysCoherent | src/runtime/max_egress.py:121-165 | At every crash point the file has a deadline exactly in switching, returning and rollback, the phase fits the route, and the failure timer runs exactly if there are failures |
| EgressTheorems.AttemptRate | src/runtime/max_egress.py:121-129 | Cooldown stamps of attempts that call the adapter, whether or not the process lives to see the outcome, are a cooldown apart, across crashes, so a span T holds at most T / cooldown + 1 of them |
| EgressTheorems.ReturnsBacked | src/runtime/max_egress.py:237-248 | Every return to the primary follows an unbroken window of good probes in the deciding process, at least `recovery_stable` long and at least 1 + ceil(stable / (3 * interval)) samples many, crashes or not |
| EgressTheorems.FailoversBacked | src/runtime/max_egress.py:201-236 | If every lost process left a harmless file, every failover follows an unbroken window of samples with primary failing and MAX not ready, long and numerous enough |
| EgressTheorems.RunWatched | src/runtime/max_egress.py:203-236 | In such a run every failure timer in use is backed by a window of failing samples up to the latest, or will be reset or outlasted by the cooldown; by exactly `failures` samples if no process was lost with a timer in use |
| EgressTheorems.TimerCountsSamples | src/runtime/max_egress.py:203-236 | In that last case last_probe_at - failed_since is at most 3 * interval * (failures - 1) on the primary |
| EgressTheorems.InheritedTimer | src/runtime/max_egress.py:30-41 | The timer a lost process leaves on the primary is backed by a window up to the latest sample if and only if that sample was failing, unless a gap or the cooldown disarms it |
| EgressInheritance.RestartFailsOverUnbackedIffRipe | src/runtime/max_egress.py:178-236 | After a run with harmless losses so far, the first tick after a loss can fail over unbacked in some environment if and only if the file has an old enough timer in use outside a switch and out of cooldown, and the latest sample was not failing |
| EgressContinuations.SparedIffNoHarm | src/runtime/max_egress.py:178-253 | After a run with harmless losses so far, no environment leads the successor of a lost process, up to a further loss, to an unbacked failover if and only if the file is harmless, or the threshold is no longer than the probe interval and the first tick cannot act on the timer |
| EgressContinuations.HarmfulOnward | src/runtime/max_egress.py:182-236 | For every other file there is such an environment: an outage that begins with the successor and lasts until the old timer and the cooldown let it fail over, too soon |
| EgressContinuations.HarmlessOnward | src/runtime/max_egress.py:178-253 | From a harmless file every tick of the successor stays backed |
| EgressThresholds.TickProves | src/runtime/max_egress.py:201-236 | With a threshold no longer than the probe interval, every failover after the first tick of a process is backed |
| EgressThresholds.TickFeeds | src/runtime/max_egress.py:206-226 | After every completed tick a failure timer in use was fed by the latest sample |
| EgressInheritance.FirstTickFailsOverUnbackedIffRipe | src/runtime/max_egress.py:178-236 | The same for any state a lost process can leave |
| EgressInheritance.RipeFailsOver | src/runtime/max_egress.py:182-236 | For every ripe file there is an environment in which one failing sample fails over |
| EgressInheritance.UnripeIsSafe | src/runtime/max_egress.py:182-236 | For every other file no environment makes the first tick fail over unbacked |
| EgressLostReturn.FailureWindowCanBeStale | src/runtime/max_egress.py:134-149 | A run in which a return is lost after the route is saved and before the failure timer is cleared, and a later failover follows one second of outage instead of two |
| EgressLostRecovery.FailureWindowCanBeStale | src/runtime/max_egress.py:215-219 | A run with the default intervals in which the process is lost while it tells of a recovery, before the failure timer is cleared, and its successor fails over on one failing sample |
| EgressFiles.SwitchCarries | src/runtime/max_egress.py:121-165 | A failover, wherever it is cut off, leaves the failure timer as it is in memory and in the file, and never lowers the cooldown |
| EgressFiles.RestoreCarries | src/runtime/max_egress.py:182-200 | So does the restore of the first tick |
| EgressTheorems.WindowNeedsSamples | src/runtime/max_egress.py:203-205 | A window of n samples spans at most 3 * interval * (n - 1) seconds |
| EgressTheorems.EventIdsNameOneEvent | src/runtime/max_egress.py:79-108 | An (incident, sequence) id once handed to the notifier never names another event, and new ids only grow, across crashes |
| EgressTheorems.EventsAreFifo | src/runtime/max_egress.py:95-108 | Within one process accepted events followed by pending ones are the emitted ones, in order |
| EgressDecisions.ReauthorisationStopsTheTick | src/runtime/max_egress.py:207-213 | Whatever else a tick sees, if MAX requires reauthorisation when the sample is read, it tries no route, changes none, tells nothing, and ends blocked with its timers cleared and saved; a tick that took a sample ends blocked only then |
| EgressDecisions.SampleReached | src/runtime/max_egress.py:178-206 | A tick that gets to its sample, after flushing and restoring, has tried nothing before it and goes on from the route, timers and failures it began with |
| EgressDecisions.SampleNotReached | src/runtime/max_egress.py:178-203 | A tick before its next sample is due only hands over what is pending |
| EgressDecisions.RestoreDecides | src/runtime/max_egress.py:182-200 | The first tick of a process brings the adapter to the route of the file, or gives up if the adapter refuses; exactly if a switch was broken off it starts a cooldown, leaves the transit phase and says so |
| EgressDecisions.UpDecides | src/runtime/max_egress.py:214-220 | If the primary answers or MAX is ready, the timer and the failures are cleared, nothing is tried, and an announced outage is called over exactly when MAX is ready |
| EgressDecisions.DownDecides | src/runtime/max_egress.py:221-236 | If the primary fails and MAX is not ready, the failure is counted, told at the second in a row, and the fallback tried exactly if the outage is old enough, the cooldown over and the fallback answers; if it does not answer, a cooldown starts and operators are told |
| EgressDecisions.FallbackDecides | src/runtime/max_egress.py:237-252 | On the fallback the primary is tried exactly if it answers and stability, residence and cooldown are over; otherwise only the recovery timer moves; a reminder is told every four hours |
| EgressSwitching.SwitchDecides | src/runtime/max_egress.py:121-165 | A switch that keeps its process ends on the target exactly if MAX comes up there in time, and what it leaves and tells in both cases; the time on the fallback it reports is right |
| EgressSwitching.ConfirmDecides | src/runtime/max_egress.py:134-165 | The same from the adapter's success on, with the polls that decide it |
| EgressSwitching.SwitchAnnounces | src/runtime/max_egress.py:121-129 | A switch announces itself with its deadline and its cooldown and then calls the adapter, once |
| EgressSwitching.ReconnectDecides | src/runtime/max_egress.py:158-165 | A rollback leaves the previous route with a new cooldown, and tells of its end |
| EgressSwitching.WaitReadyIff | src/runtime/max_egress.py:167-176 | Waiting succeeds if and only if some poll in time finds MAX ready before one that asks for reauthorisation |
| EgressSwitching.FlushHandsOver | src/runtime/max_egress.py:95-108 | Pending events are offered in order until one is refused; exactly the accepted ones leave memory and file |
| EgressSwitching.EmitHandsOver | src/runtime/max_egress.py:79-93 | A new event carries the next number, the time, the route and whether MAX is online, is queued behind the others and offered with them |
| EgressResidence.ReturnsAfterResidence | src/runtime/max_egress.py:240-246 | In every run, every attempt on the primary comes at least the minimum residence after the last arrival on the fallback, if the cooldown is no shorter than the residence or every lost process had stamped its arrival |
| EgressResidence.TickResident | src/runtime/max_egress.py:178-253 | One tick keeps this, wherever it is cut off |
| EgressLostArrival.ResidenceCanBeCutShort | src/runtime/max_egress.py:134-141 | A run in which a process is lost after the route is saved and before the arrival is stamped, and its successor tries the primary after one second of a hundred |
| EgressSteps.SwitchKeeps | src/runtime/max_egress.py:121-165 | A switch leaves a consistent file wherever it is cut off, logs at most one attempt, and if it returns lands on the target or back on the old route with the failure timer untouched |
| EgressSteps.ReconnectKeeps | src/runtime/max_egress.py:158-165 | A rollback ends on the previous route, saved, with a new cooldown no earlier than the old one |
| EgressSteps.RestoreKeeps | src/runtime/max_egress.py:182-200 | The first tick of a process leaves a broken-off switch and brings the adapter to the durable route, or ends the process |
| EgressInvariants.FlushKeeps | src/runtime/max_egress.py:95-108 | Flushing hands over events in order, drops only accepted ones, and keeps the file consistent at every cut-off |
| EgressInvariants.EmitKeeps | src/runtime/max_egress.py:79-93 | A new event is saved before it is handed over, with a later id than everything before |
| EgressTicks.TryFailOverTracks | src/runtime/max_egress.py:231-236 | A failover decided on a supported timer is itself backed |
| EgressTicks.GroundedGrows | src/runtime/max_egress.py:203-226 | A failing sample leaves a grounded timer grounded: it continues the window, opens one under the cooldown, or comes too late for the timer |
| EgressTicks.TimeRecoveryKeeps | src/runtime/max_egress.py:239-246 | Starting, continuing and acting on the recovery timer keeps it backed by good probes |
| EgressRuns.TickTracks | src/runtime/max_egress.py:178-253 | One tick keeps only backed failovers in the history and the timer grounded, in memory and in the file of a process lost in it |
| EgressRuns.BootTracks | src/runtime/max_egress.py:30-41 | A harmless file starts a process whose failovers will be backed |
| EgressRuns.TickKeeps | src/runtime/max_egress.py:178-253 | One tick keeps everything that must hold between ticks, for every environment |
| EgressRuns.BootKeeps | src/runtime/max_egress.py:30-41 | A process that starts over from its file is ready, with no recovery timer running |
| MaxEgress.MaxEgressController.constructor | src/runtime/max_egress.py:16-41 | Loads the state file, clears the recovery timer, and replaces an unknown active route by the primary |
| MaxEgress.MaxEgressController.FlushEvents | src/runtime/max_egress.py:95-108 | The loop over pending events computes the specified flush |
| MaxEgress.MaxEgressController.Emit | src/runtime/max_egress.py:79-93 | Numbering, queueing, saving and flushing an event, as specified |
| MaxEgress.MaxEgressController.WaitReady | src/runtime/max_egress.py:167-176 | The polling loop: ready, refused by a reauthorisation issue, or timed out |
| MaxEgress.MaxEgressController.Switch | src/runtime/max_egress.py:121-133 | The switch up to the adapter call: the cooldown is stamped and saved before it, a failed close ends the process |
| MaxEgress.MaxEgressController.Confirm | src/runtime/max_egress.py:134-152 | Commits the route, waits for MAX, and connects or rolls back |
| MaxEgress.MaxEgressController.Connected | src/runtime/max_egress.py:137-149 | What a confirmed switch writes and announces on either route |
| MaxEgress.MaxEgressController.RollBack | src/runtime/max_egress.py:150-157 | Announces the rollback and switches back, or ends the process |
| MaxEgress.MaxEgressController.Reconnect | src/runtime/max_egress.py:158-165 | What a finished rollback writes and announces |
| MaxEgress.MaxEgressController.Restore | src/runtime/max_egress.py:182-200 | The restore of the first tick |
| MaxEgress.MaxEgressController.WatchPrimary | src/runtime/max_egress.py:214-230 | The tick on the primary: recovery, incident numbering, failure count, outage message |
| MaxEgress.MaxEgressController.WatchOutage | src/runtime/max_egress.py:228-236 | The outage message, the failover guards and the probe of the fallback |
| MaxEgress.MaxEgressController.WatchFallback | src/runtime/max_egress.py:237-252 | The tick on the fallback: recovery timer, return, reminder |
| MaxEgress.MaxEgressController.TimeRecovery | src/runtime/max_egress.py:240-246 | The stability, residence and cooldown guards of a return |
| MaxEgress.MaxEgressController.Tick | src/runtime/max_egress.py:178-253 | A whole tick follows the specified one in state, file, route and history |
| AdapterProtocol.AlwaysSafe | src/adapters/max/adapter.py:253-303 | Every interleaving of start loop, lifecycle task, switcher and guarded operations keeps the adapter safe |
| AdapterProtocol.OneLiveClientOnOneRoute | src/adapters/max/adapter.py:268-294 | At most one unclosed client exists; it is the connected one, on the one route backend, selection and egress share, of the current generation |
| AdapterProtocol.CreatedAlone | src/adapters/max/lifecycle.py:184-191 | A client is created only when every earlier one has been closed |
| AdapterProtocol.SwitchIsAllOrNothing | src/adapters/max/adapter.py:268-294 | However others interleave, a switch that returns has moved all three routes, closed every old client and drained every operation; one that raises moved nothing and leaves the gate shut |
| AdapterProtocol.SwitchRefinesCall | src/adapters/max/adapter.py:268-294 | To the controller the interleaved switch is the atomic call its policy makes |
| AdapterProtocol.OperationsNeverSpanSwitches | src/adapters/max/network/switching.py:11-60 | No guarded operation runs across a change of generation, and a waiting one of an old generation is refused |
| AdapterProtocol.CalledOperationRunsIff | src/adapters/max/network/switching.py:17-24 | An operation that is called runs if and only if the gate is open and its client is of the current generation, as every live client is; it waits if the gate is closed and is refused otherwise |
| AdapterProtocol.ReleasedOperationIsRefused | src/adapters/max/network/switching.py:17-21 | An operation that waited at the gate until it opened again is refused, because opening means a new generation |
| AdapterProtocol.OperationsStayUntilTheyEnd | src/adapters/max/network/switching.py:22-31 | Nothing but its own end stops a running operation, and a switch that lands releases every waiting one |
| AdapterProtocol.SwitchCanLand | src/adapters/max/adapter.py:268-294 | From every reachable state without a switch under way there is a switch to any route in which nothing fails and which lands |
| AdapterProtocol.ReconnectNeverStuck | src/adapters/max/adapter.py:253-266 | While the gate is open and the start loop lives, at most three steps of the loop and its task lead to a live client on the current route, unless the task has failed, which ends the loop |
| WatchdogFindings.PathFindings | src/watchdog_external/rules.py:401-474 | An unreachable host, a failing SSH probe and a stale push are reported exactly on their observations, the SSH probe as critical exactly if no usable push bridges it |
| WatchdogFindings.ContainerFindings | src/watchdog_external/rules.py:226-258 | With a probe, from SSH or a usable push, a container that is missing or not running is reported as critical, one that runs unhealthily and a full disk as warnings, and none of them otherwise |
| WatchdogFindings.RunningFindings | src/watchdog_external/rules.py:482-535 | Stale heartbeat, restart storm and unreachable status API are reported exactly on their observations of a running container |
| WatchdogFindings.BacklogFindings | src/watchdog_external/rules.py:261-371 | Degradation, alert outbox, queues and unexpected egress are reported exactly on the fields of the status of a running container |
| WatchdogFindings.StatusRules | src/watchdog_external/rules.py:261-371 | The same for the status alone |
| WatchdogFindings.SubsystemReported | src/watchdog_external/rules.py:289-327 | Which subsystem issue is reported, how severe, of which failure class: the first critical one that counts, or else the first, unless the controller itself is overdue |
| WatchdogFindings.SkippedExactly | src/watchdog_external/rules.py:384-550 | Which rules lack data, by the fields of the observation |
| WatchdogFindings.Thresholds | src/watchdog_external/rules.py:201-207 | How many rounds in a row each rule must fire before it alerts |
| WatchdogFindings.BaselineRenewed | src/watchdog_external/rules.py:490-499 | The restart baseline is renewed exactly if a running container reports restarts and it is missing or out of the window |
| WatchdogRules.FindingsAndSkippedDisjoint | src/watchdog_external/rules.py:374-550 | No rule both fires and lacks data, and each finding stands under its own rule |
| WatchdogRules.UnreachableFreezesDependents | src/watchdog_external/rules.py:419-429 | An unreachable host leaves counters, flags and start times of all twelve dependent rules unchanged and emits nothing for them |
| WatchdogRules.SkippedUntouched | src/watchdog_external/rules.py:563-566 | A rule without data keeps its counter, flag and start and is not mentioned |
| WatchdogRules.DecideRuleOther | src/watchdog_external/rules.py:563-581 | Deciding one rule changes nothing about another |
| WatchdogRules.WorstIsSubsystemIssue | src/watchdog_external/rules.py:289-318 | The reported subsystem issue exists exactly if one counts, and is critical exactly if a counting one is critical or requires reauthorisation |
| WatchdogRules.ManagedSuppressionIsSound | src/watchdog_external/rules.py:261-327 | With a fresh controller inside its deadline the subsystem finding and its severity are decided by exactly the issues that are not its own; otherwise it is a warning |
| WatchdogRules.ForeignIssuesAlwaysReported | src/watchdog_external/rules.py:263-295 | An issue outside the MAX link, or one that requires reauthorisation, is always reported |
| WatchdogRuns.CountIsStreak | src/watchdog_external/rules.py:564-581 | The fail count is the current streak of firing rounds with rounds without data left out; the rule is alerting exactly if the streak has reached its threshold |
| WatchdogRuns.DecisionsFollowStreaks | src/watchdog_external/rules.py:568-581 | Alerts follow streaks over the threshold; a broken one yields one recovery, whose duration counts from the first alert of its episode |
| WatchdogRuns.OneRecoveryPerEpisode | src/watchdog_external/rules.py:577-581 | Episodes opened equal recoveries decided plus the one still open |
| WatchdogRuns.StartIsEpisodeStart | src/watchdog_external/state.py:54-65 | While a rule is alerting, its recorded start is the time its streak reached the threshold |
| WatchdogRuns.RoundView | src/watchdog_external/__main__.py:165-191 | One round as one rule sees it: evaluation, counters, alerts and recoveries |
| WatchdogDelivery.AlertRate | src/watchdog_external/notify.py:218-226 | Delivered alerts for one rule are a TTL apart, so a span T holds at most T / TTL + 1 of them |
| WatchdogDelivery.WithheldIffDeliveredRecently | src/watchdog_external/notify.py:207-226 | An alert a round decides is held back in that round exactly if one for the rule was delivered less than a TTL before; otherwise some message of the round is that alert; and no alert goes out that the round did not decide |
| WatchdogDelivery.RecoverySentUnlessJustSent | src/watchdog_external/notify.py:207-216 | A recovery a round decides is tried in that round unless one for the rule was delivered within the poll interval, at least 30 seconds; one that is not decided is not sent |
| WatchdogDelivery.LastSentIsLast | src/watchdog_external/state.py:72-78 | The state's record for a message is the time of its last delivery |
| WatchdogDelivery.BaselineWasObserved | src/watchdog_external/rules.py:492-499 | The stored restart baseline is a genuine observation of an earlier round |
| WatchdogDelivery.StormHasWitness | src/watchdog_external/rules.py:494-502 | A restart storm is witnessed by an earlier observation inside the window with fewer restarts by at least the delta |
| Watchdog.WatchdogState.BumpFail | src/watchdog_external/state.py:41-44 | Counts one more failure and returns the count |
| Watchdog.WatchdogState.SetAlerting | src/watchdog_external/state.py:54-62 | Sets the flag and keeps the first start, or clears both |
| Watchdog.Decide | src/watchdog_external/rules.py:553-583 | The loop over the known rules computes the specified decision and state |
| Watchdog.Dispatch | src/watchdog_external/notify.py:195-228 | The two loops send, mark and count as specified |
| Watchdog.WorstIssue | src/watchdog_external/rules.py:289-318 | The loop over subsystems finds the specified issue |
| Watchdog.HasStaleQueue | src/watchdog_external/rules.py:343-347 | Whether some queue holds an entry that is too old |
| Watchdog.EvaluateStatus | src/watchdog_external/rules.py:261-371 | The rules about the status API |
| Watchdog.Evaluate | src/watchdog_external/rules.py:374-550 | The whole evaluation, its early exits, and the baseline it may store |
| Watchdog.RunOnce | src/watchdog_external/__main__.py:165-191 | One round: evaluate, decide, dispatch |
| TelegramText.SplitIsLossless | src/adapters/tg/adapter.py:53-67 | The parts concatenate to the text, none exceeds the limit, none is needlessly empty |
| TelegramText.NeighboursExceedLimit | src/adapters/tg/adapter.py:60-65 | Two neighbouring parts together exceed the limit |
| TelegramText.PartsBound | src/adapters/tg/adapter.py:53-67 | At most 2 * floor(len / (limit + 1)) + 1 parts |
| TelegramText.WordsAreKept | src/adapters/tg/adapter.py:61-64 | A part ends in a break unless its window has none after its first character |
| TelegramText.SplitTelegramText | src/adapters/tg/adapter.py:53-67 | The loop terminates and computes the specified parts |
| TelegramText.SendText | src/adapters/tg/adapter.py:411-447 | The parts go out in order up to the first send Telegram refuses; the result is the first id, or none after a failure; only the first part is a reply |
| TelegramText.SendContinuation | src/adapters/tg/adapter.py:449-455 | The rest of a long caption goes out as texts, losing nothing unless a send is refused |
| TelegramText.SendPhoto | src/adapters/tg/adapter.py:457-485 | A photo with a long caption and its continuation together carry the caption exactly, unless a send is refused |
| AlertOutbox.AlwaysSafe | src/adapters/tg/notifier.py:101-149 | Every interleaving of producers with the steps of flushes keeps queue, receipts and deliveries consistent |
| AlertOutbox.DeliveriesInQueueOrder | src/adapters/tg/notifier.py:112-143 | However sends fail, deliveries to one target follow the order of queueing |
| AlertOutbox.DeliveredOnceIn30Days | src/runtime/health/outbox.py:84-93 | An egress event is delivered to a target again, if ever, only 30 days later, when its receipt has expired |
| AlertOutbox.RequeuedIsSentIffNoReceipt | src/adapters/tg/notifier.py:125-138 | A message queued again, alone, is delivered again if and only if it has no receipt |
| AlertOutbox.WhoHasReceipts | src/runtime/health/outbox.py:80-93 | A delivered egress event has a receipt for 30 days; any other message never has one |
| AlertOutbox.NothingIsLost | src/runtime/health/outbox.py:66-99 | Whatever was accepted is still queued or was delivered with its own id, text and target, unless it is an egress event that was delivered before |
| AlertOutbox.QueueHoldsWhatWasAccepted | src/runtime/health/outbox.py:66-72 | Every queued and every delivered message is one that was accepted, unchanged, and none is both |
| AlertOutbox.StepDecides | src/adapters/tg/notifier.py:112-143 | A message is sent exactly if it is among the first 100, its target has not failed in this flush and it has no receipt; a delivered one leaves the queue, a failed one stays with its attempt and error and blocks its target; all others stay as they are |
| AlertOutbox.ReceiptsExpire | src/runtime/health/outbox.py:84-93 | An egress event that leaves the queue has a receipt of that moment; of the other receipts exactly those younger than 30 days stay |
| AlertOutbox.FlushPartitions | src/adapters/tg/notifier.py:109-149 | A flush splits its messages into delivered, known and remaining, and the remaining ones head the queue |
| AlertOutbox.HealthyFlushEmptiesQueue | src/adapters/tg/notifier.py:101-149 | If every send succeeds, one flush empties a queue of at most 100 messages |
| AlertOutbox.EventIsAccountedFor | src/adapters/tg/notifier.py:46-56 | After an event was sent, it is queued or delivered for the owner, if the audience is owner or both or no topic is configured, and for the topic, if the audience is ops or both and one is |
| AlertOutbox.EventIsAccepted | src/adapters/tg/notifier.py:160-165 | Exactly what a notification hands over: the text to the owner's chat and to the topic of the group, each unless it is queued or has a receipt |
| AlertOutbox.HealthyNotifyDelivers | src/adapters/tg/notifier.py:39-56 | If every send succeeds, a notification delivers up to 100 waiting messages and then its own event to every target |
| AlertOutbox.FlushIsRun | src/adapters/tg/notifier.py:101-149 | An uninterrupted flush is one of the interleaved runs |
| AlertOutbox.QueueEventIsRun | src/adapters/tg/notifier.py:47-54 | Queueing an event adds each of its messages unless it is queued or has a receipt |
| Notifier.TelegramNotifier.QueueMessage | src/runtime/health/outbox.py:66-72 | Appends a message unless its id is queued |
| Notifier.TelegramNotifier.AcknowledgeMessage | src/runtime/health/outbox.py:84-93 | Removes the message, writes the receipt of an egress event and drops old receipts |
| Notifier.TelegramNotifier.FlushOutbox | src/adapters/tg/notifier.py:101-149 | The flush loop with its limit and blocked targets computes the specified outbox and counts deliveries |
| Notifier.TelegramNotifier.SendEvent | src/adapters/tg/notifier.py:39-56 | Flush, refuse an unknown audience, queue for each target, flush again |
| MessageIds.StatusIsIrrelevant | src/bridge/media_retry.py:179-194 | The canonical id does not depend on the status |
| MessageIds.EditedOf | src/bridge/media_retry.py:179-194 | The canonical id of an edited variant, written in letters of either size, is the id it was made from |
| MessageIds.StatusMarksEdits | src/bridge/media_retry.py:183-190 | An id without a suffix counts as edited if and only if the status is the word "edited" or ends with it after a dot |
| MessageIds.KindsAgreeIff | src/bridge/media_retry.py:197-198 | Two kinds are one if and only if they differ in surrounding white space and the size of letters only |
| MessageIds.EditedSharesBase | src/bridge/media_retry.py:179-194 | A message and its edited variant share a canonical id if and only if the message is not itself a variant |
| MediaLedger.NothingKnownIsSent | src/bridge/media_retry.py:290-329 | No call sends a part that was in the ledger, by key or by reference, when the call began |
| MediaLedger.RecordedIsNeverSentAgain | src/bridge/forwarding.py:438-497 | Once a send is recorded no later call sends that part, over all runs of forwards, recoveries and downloads, deaths of the process included |
| MediaLedger.LedgerIsWhatWasRecorded | src/db/repos/delivered_media.py:14-64 | The ledger holds exactly the keys of recorded sends, each with the Telegram message of such a send |
| MediaEffects.RecordedRow | src/db/repos/delivered_media.py:14-64 | Recording a part that has a row keeps its message and reference and takes the reference it lacks; other rows stay |
| MediaEffects.ReferencesAreWhole | src/bridge/media_retry.py:209-214 | Over all runs no row keeps half a reference |
| MediaLedger.EditedVariantSendsNothing | src/bridge/forwarding.py:255-262 | A message whose parts are all recorded is not sent again as an edited variant, by either path |
| MediaLedger.RecoverAllOrNothing | src/bridge/forwarding.py:283-356 | A recovery records every undelivered part if all were posted, and otherwise none |
| MediaLedger.IncompleteRecoverySendsAgain | src/bridge/forwarding.py:311-327 | An incomplete recovery, repeated, sends every part it had posted a second time |
| MediaLedger.RepeatSendsAgainIff | src/bridge/forwarding.py:255-356 | A part that a recovery posted is sent again by a repeat if and only if not all parts were posted or the part has no key |
| MediaLedger.RecoverReaches | src/bridge/forwarding.py:283-309 | A recovery sends every part it reaches |
| MediaLedger.ApplyKeeps | src/bridge/media_retry.py:972-1335 | Each operation only adds to history and ledger, sends nothing known, and records only what it sent |
| MediaLedger.FinishJobKeeps | src/bridge/media_retry.py:1252-1335 | After a download the worker asks the ledger again, so it sends nothing another call delivered meanwhile |
| MediaEffects.KnownByKeyOrReference | src/bridge/media_retry.py:234-309 | A part counts as delivered if and only if its key is in the ledger, or a row of the same message and kind has its reference |
| MediaEffects.UndeliveredExactly | src/bridge/media_retry.py:312-329 | Every attachment that is not delivered is up for sending, with its part index |
| MediaEffects.ForwardReaches | src/bridge/forwarding.py:443-497 | Forwarding sends every undelivered part whose file is there, unless the process dies before it, and records it exactly if it was posted, has a key and is the media itself |
| MediaEffects.ForwardSendsAttachments | src/bridge/forwarding.py:438-497 | In a call that is not cut short every undelivered attachment whose file is there is sent |
| MediaEffects.RecoversIff | src/bridge/forwarding.py:229-282 | A recovery goes ahead if and only if parts are undelivered, there is a topic, and the log shows a failed download or one of the parts is still awaited |
| MediaEffects.RecoverSettles | src/bridge/forwarding.py:357-371 | A complete recovery leaves no download of its parts unfinished under either id, counts one attempt for each it settles and touches no other |
| MediaEffects.DueJobTakenUp | src/bridge/media_retry.py:985-1057 | What becomes of a job the worker looks at: left alone unless due and the worker free, settled with the message the ledger names, failed, or taken up |
| MediaEffects.DownloadIsSent | src/bridge/media_retry.py:1252-1335 | A downloaded part is sent exactly if it is not resolved by then, recorded if posted, and retried if not |
| MediaEffects.TooLargeIsNotSent | src/bridge/media_retry.py:1209-1335 | A file that is too large ends its job without a send |
| MediaEffects.NothingDownloaded | src/bridge/media_retry.py:1209-1250 | A download that brought nothing or failed is retried, unless it needed the cache and the cache has lost it |
| MediaEffects.RetriedRetries | src/bridge/media_retry.py:835-883 | A retry waits three minutes for a video, which fails the sixth time, and otherwise a minute, doubled eight times at most |
| MediaEffects.ResolvedIff | src/bridge/media_retry.py:464-559 | A job is resolved if and only if the ledger knows its part, or knows nothing of its message while the log calls it delivered |
| MediaBridges.MediaBridge.UndeliveredAttachments | src/bridge/media_retry.py:312-329 | The loop keeps exactly the undelivered attachments with their part indexes |
| MediaBridges.MediaBridge.ForwardToTelegram | src/bridge/forwarding.py:438-497 | The loop over undelivered parts, recording each as it is sent |
| MediaBridges.MediaBridge.RecoverLateMedia | src/bridge/forwarding.py:243-394 | The guards, the sending loop and the recording loop of a recovery, and when it reports success |
| MediaBridges.MediaBridge.SendParts | src/bridge/forwarding.py:283-309 | Which parts of a recovery were posted |
| MediaBridges.MediaBridge.RecordPart | src/bridge/forwarding.py:335-371 | Writes one recovered part and settles its pending download under either id |
| MediaBridges.MediaBridge.TakeUpJob | src/bridge/media_retry.py:985-1057 | The worker's checks before a download and the terminal cases |
| MediaBridges.MediaBridge.CompleteJob | src/bridge/media_retry.py:1209-1335 | What follows a download: retry, terminal cases, second check, send, record |
| MediaBridges.MediaBridge.RetryJob | src/bridge/media_retry.py:835-883 | Schedules the next attempt, or gives up on the sixth of a video |
| VoiceRetry.RetriesArePaced | src/adapters/max/voice_recovery.py:574-748 | For every entry, with m the number of earlier attempts that raised no error at the least: a retry comes no earlier than its first wait + 60 * (2^m - 1) seconds for m up to 9, and every 21600 seconds from there; the first wait is 180 unless the worker was at the key |
| VoiceRetry.AttemptsInFirst | src/adapters/max/voice_recovery.py:670-748 | At most 10 + T / 21600 retries in the first T seconds of any entry, plus one for each that raised an error |
| VoiceRetry.RecoveredLeaves | src/adapters/max/voice_recovery.py:725-738 | A recovered message leaves the queue with its attempts final, before it is handled; every other entry stays |
| VoiceRetry.NotTriedAfterRecovery | src/adapters/max/voice_recovery.py:725-738 | However a run goes on, no attempt is made under that key until it is remembered again |
| VoiceRetry.BeginningDecides | src/adapters/max/voice_recovery.py:673-709 | A round takes its keys in order, and each that still has an entry is attempted at once, counted first |
| VoiceRetry.EndingDecides | src/adapters/max/voice_recovery.py:739-748 | After an attempt that found nothing the entry is due after a minute, doubled each time up to six hours; an error leaves its time and ends the round |
| VoiceRetry.SpanClosedForm | src/adapters/max/voice_recovery.py:574-579 | The sum of the capped doubling delays in closed form |
| VoiceRetry.UndisturbedOnSchedule | src/adapters/max/voice_recovery.py:581-748 | An entry added while the worker was elsewhere, or at a third or later attempt under its key, and without errors, is tried no earlier than 180 seconds plus the delays |
| VoiceRetry.ReplacementIsTriedAtOnce | src/adapters/max/voice_recovery.py:674-707 | A run in which an entry added while the worker was about to take its key is tried at once |
| VoiceRetry.ReplacementInAttempt | src/adapters/max/voice_recovery.py:725-747 | For every k a run in which an entry added during the k-th attempt is first tried after that attempt's delay; it keeps the schedule if and only if k is at least 3 |
| VoiceRetry.RaisedIsTriedAtOnce | src/adapters/max/voice_recovery.py:681-692 | For every number of errors a run in which attempts that raise them, and the next, all come at the same time |
| VoiceRetry.VoiceRecovery.RememberPending | src/adapters/max/voice_recovery.py:581-624 | Adds an entry due in 180 seconds; an entry that exists keeps its schedule |
| VoiceRetry.VoiceRecovery.LoadDue | src/adapters/max/voice_recovery.py:673-678 | Reads exactly the entries that are due, each once |
| VoiceRetry.VoiceRecovery.StartAttempt | src/adapters/max/voice_recovery.py:694-709 | Counts the attempt before it is made, and passes over an entry that is gone |
| VoiceRetry.VoiceRecovery.FinishAttempt | src/adapters/max/voice_recovery.py:725-747 | Forgets a recovered entry, or reschedules the one found under the key; an error, of the attempt or of the handler of a recovered message, abandons the round |
| Rates.RateBound | src/runtime/max_egress.py:126 | What keeps a distance of `gap` happens at most span / gap + 1 times in a span |

## Left out

- EgressTheorems.FailoversBacked: needs harmless losses, without which it is false. `SparedIffNoHarm` takes the clock of the successor to be no earlier than the latest sample, which is all that the file and the history tell of it.
- EgressResidence.ReturnsAfterResidence: needs its condition, without which it is false; the condition is sufficient and not claimed to be necessary, since a successor's stability window can outlast the residence too.
- WatchdogDelivery.AlertRate: rounds at time 0 are excluded, because the watchdog's state file takes a last delivery at 0 for none.
- AlertOutbox.DeliveredOnceIn30Days: holds for ids with the egress prefix only; the store leaves no receipts for other ids.
- VoiceRetry.RetriesArePaced: within one process; loading the file after a restart may bring an attempt forward, as the code intends. The exact condition of `UndisturbedOnSchedule` is by kind of disturbance: an entry of a disturbed kind may still happen to keep the schedule.
- MediaLedger.RecordedIsNeverSentAgain: handlers are assumed to run one at a time, which nothing in the source enforces, but they interleave with downloads. Two parts of one message with the same key are not told apart.
- The adapter and the lifecycle task are one value advanced by interleaved atomic steps, not objects; an object with methods cannot show the interleaving. Creating a client is one step, so a client lost by an error between its creation and its registration is not captured, and neither are operations without a generation.
- `restart()` is the end of the process (src/bridge/background.py:28-37), so nothing after it in the same tick is modelled.
- Times are integers. Waiting for readiness makes at most four polls per second of its timeout.
- Probe diagnostics, the snapshot and next-action texts, notification texts, log events and status reports.
- The texts and hints of watchdog findings, the daily summary, and the parsing of observations: they are typed records of what the rules read.
- Outbox: a crash between a delivery and its acknowledgement, notifications without an event id, malformed lines of the file, health reports of the notifier.
- Ledger: texts and buttons of forwarded messages, reply mappings, queueing of failed attachments (any job may appear at any time), leases and the recovery cache, which only decide what a download brings.
- Ids are stripped of ASCII white space and upper-cased by ASCII rules only.
- The manual egress mode, SSH probing, HTTP handlers, signatures and encryption, SQL, session store, links, joining chats, direct messages, supervisor, push receiver.
