/**
 The watchdog as the source runs it: a mutable state object, and loops over rules, subsystems and
 messages, proved to compute what `WatchdogModel` specifies.
 */
module Watchdog {
  import opened Wrappers
  import opened WatchdogModel

  class WatchdogState {
    var fails: map<Rule, nat>
    var alerting: set<Rule>
    var started: map<Rule, int>
    var lastSent: map<Key, int>
    var baseline: Option<Baseline>

    ghost function View(): State
      reads this
    {
      State(fails, alerting, started, lastSent, baseline)
    }

    /** A missing or unreadable file starts empty. */
    constructor ()
      ensures View() == NEW_STATE
    {
      fails, alerting, started, lastSent, baseline := map[], {}, map[], map[], None;
    }

    method BumpFail(rule: Rule) returns (count: nat)
      modifies this`fails
      ensures View() == Counted(old(View()), rule) && count == FailCount(View(), rule)
    {
      count := (if rule in fails then fails[rule] else 0) + 1;
      fails := fails[rule := count];
    }

    method ClearFail(rule: Rule)
      modifies this`fails
      ensures View() == Cleared(old(View()), rule)
    {
      fails := fails - {rule};
    }

    method SetAlerting(rule: Rule, value: bool, now: int)
      modifies this`alerting, this`started
      ensures View() == if value then Raise(old(View()), rule, now) else Lower(old(View()), rule)
    {
      if value {
        alerting := alerting + {rule};
        if rule !in started {
          started := started[rule := now];
        }
      } else {
        alerting, started := alerting - {rule}, started - {rule};
      }
    }

    method MarkSent(key: Key, ts: int)
      modifies this`lastSent
      ensures View() == old(View()).(lastSent := old(lastSent)[key := ts])
    {
      lastSent := lastSent[key := ts];
    }
  }

  method Decide(e: Evaluation, state: WatchdogState, cfg: Config, now: int) returns (decision: Decision)
    modifies state
    ensures Decided(state.View(), decision) == WatchdogModel.Decide(e, cfg, now, old(state.View()))
  {
    var alerts: seq<Finding>, recoveries: seq<Recovery> := [], [];
    for i := 0 to |KNOWN|
      invariant Decided(state.View(), Decision(alerts, recoveries))
                == DecideRules(e, cfg, now, old(state.View()), KNOWN[..i])
    {
      hide FailAfter;
      var rule := KNOWN[i];
      assert KNOWN[..i + 1][..i] == KNOWN[..i];
      if rule in e.skipped {
        continue;
      }
      if rule in e.findings {
        var count := state.BumpFail(rule);
        if count >= FailAfter(rule, cfg) {
          state.SetAlerting(rule, true, now);
          alerts := alerts + [e.findings[rule]];
        }
        continue;
      }
      state.ClearFail(rule);
      if rule in state.alerting {
        var began := if rule in state.started then state.started[rule] else 0;
        state.SetAlerting(rule, false, now);
        recoveries := recoveries + [Recovery(rule, if began != 0 then Max(0, now - began) else 0)];
      }
    }
    assert KNOWN[..|KNOWN|] == KNOWN;
    decision := Decision(alerts, recoveries);
  }

  /** Telegram, as far as the watchdog can tell: an attempt gets through or not. */
  class Telegram {
    const net: Network
    var tried: nat
    ghost var sent: seq<(Key, int)>

    constructor (net: Network)
      ensures this.net == net && tried == 0 && sent == []
    {
      this.net, this.tried, this.sent := net, 0, [];
    }

    method Send(key: Key, now: int) returns (delivered: bool)
      modifies this
      ensures delivered == net(old(tried)) && tried == old(tried) + 1
      ensures sent == if delivered then old(sent) + [(key, now)] else old(sent)
    {
      delivered := net(tried);
      tried := tried + 1;
      if delivered {
        sent := sent + [(key, now)];
      }
    }
  }

  /** Recoveries first, then alerts, each unless its twin went out too recently. */
  method Dispatch(cfg: Config, telegram: Telegram, state: WatchdogState, decision: Decision, now: int)
    returns (count: nat)
    modifies state, telegram
    ensures Dispatched(state.View(), telegram.tried, telegram.sent)
            == WatchdogModel.Dispatch(cfg, telegram.net, now,
                                      Dispatched(old(state.View()), old(telegram.tried), old(telegram.sent)), decision)
    ensures count == |telegram.sent| - |old(telegram.sent)|
  {
    ghost var start := Dispatched(state.View(), telegram.tried, telegram.sent);
    var recoveries, alerts := decision.recoveries, decision.alerts;
    count := 0;
    for i := 0 to |recoveries|
      invariant Dispatched(state.View(), telegram.tried, telegram.sent)
                == DispatchRecoveries(cfg, telegram.net, now, start, recoveries[..i])
      invariant |telegram.sent| == |start.sent| + count
    {
      var key := RecoveryKey(recoveries[i].rule);
      assert recoveries[..i + 1][..i] == recoveries[..i];
      if now - (if key in state.lastSent then state.lastSent[key] else 0) < Max(30, cfg.pollInterval) {
        continue;
      }
      var delivered := telegram.Send(key, now);
      if delivered {
        state.MarkSent(key, now);
        count := count + 1;
      }
    }
    assert recoveries[..|recoveries|] == recoveries;
    ghost var recovered := Dispatched(state.View(), telegram.tried, telegram.sent);
    for i := 0 to |alerts|
      invariant Dispatched(state.View(), telegram.tried, telegram.sent)
                == DispatchAlerts(cfg, telegram.net, now, recovered, alerts[..i])
      invariant |telegram.sent| == |start.sent| + count
    {
      var key := AlertKey(alerts[i].rule);
      assert alerts[..i + 1][..i] == alerts[..i];
      var last := if key in state.lastSent then state.lastSent[key] else 0;
      if last != 0 && now - last < cfg.dedupTtl {
        continue;
      }
      var delivered := telegram.Send(key, now);
      if delivered {
        state.MarkSent(key, now);
        count := count + 1;
      }
    }
    assert alerts[..|alerts|] == alerts;
  }

  method WorstIssue(subsystems: seq<Subsystem>, managed: bool) returns (worst: Option<Finding>)
    ensures worst == Worst(subsystems, managed)
  {
    worst := None;
    for i := 0 to |subsystems|
      invariant worst == Worst(subsystems[..i], managed)
    {
      var subsystem := subsystems[i];
      assert subsystems[..i + 1][..i] == subsystems[..i];
      if subsystem.issue.None? {
        continue;
      }
      var issue := subsystem.issue.value;
      if managed && subsystem.maxLink && !issue.requiresReauth {
        continue;
      }
      var candidate := IssueFinding(issue);
      if worst.None? || (worst.value.severity != Crit && candidate.severity == Crit) {
        worst := Some(candidate);
      }
    }
    assert subsystems[..|subsystems|] == subsystems;
  }

  method HasStaleQueue(oldestQueued: seq<int>, cfg: Config, now: int) returns (stale: bool)
    ensures stale <==> exists oldest :: oldest in oldestQueued && Stale(oldest, cfg, now)
  {
    stale := false;
    for i := 0 to |oldestQueued|
      invariant stale <==> exists k :: 0 <= k < i && Stale(oldestQueued[k], cfg, now)
    {
      if Stale(oldestQueued[i], cfg, now) {
        stale := true;
      }
    }
  }

  method EvaluateStatus(status: Status, cfg: Config, now: int) returns (findings: map<Rule, Finding>)
    ensures findings == WatchdogModel.EvaluateStatus(status, cfg, now)
  {
    hide Fresh, Managed, Overdue, UnexpectedEgress, OtherIssue;
    var controller := ControllerOf(status);
    var timely, managed := Fresh(controller, now), Managed(controller, now);
    var overall := map[];
    if status.degraded && (!managed || OtherIssue(status)) {
      overall := Report(OverallDegraded, Warn);
    }
    var subsystem := map[];
    var worst := WorstIssue(status.subsystems, managed);
    if worst.Some? {
      subsystem := map[SubsystemIssue := worst.value];
    }
    if status.controller.Some? && (!timely || Overdue(controller, now)) {
      subsystem := map[SubsystemIssue := Finding(SubsystemIssue, Warn, Egress)];
    }
    findings := overall + subsystem + ReportIf(status.outbox > 0, AlertOutboxBacklog, Warn);
    var stale := HasStaleQueue(status.oldestQueued, cfg, now);
    findings := findings + ReportIf(stale, QueueBacklog, Warn)
                + ReportIf(UnexpectedEgress(status, cfg, now), EgressModeUnexpected, Warn);
  }

  /** Layer by layer, returning early where a layer below cannot be judged any more. */
  method Evaluate(obs: Observation, state: WatchdogState, cfg: Config, now: int) returns (e: Evaluation)
    modifies state`baseline
    ensures e == WatchdogModel.Evaluate(obs, old(state.baseline), cfg, now)
    ensures state.View() == old(state.View()).(baseline := NextBaseline(old(state.baseline), obs, cfg, now))
  {
    hide WatchdogModel.EvaluateStatus, PushUsable;
    var findings, skipped := PushFindings(obs, cfg, now), PushSkipped(cfg);
    if !obs.reachable {
      return Evaluation(findings + Report(HostUnreachable, Crit), skipped + HOST_RULES + STATUS_RULES);
    }
    var probe := obs.probe;
    if obs.sshOk {
      findings := findings + map[];
    } else {
      var usable := PushUsable(obs, cfg, now);
      findings := findings + Report(SshProbeFailed, if usable then Warn else Crit);
      if !usable {
        return Evaluation(findings, skipped + (HOST_RULES - {SshProbeFailed}) + STATUS_RULES);
      }
      probe := PushedProbe(obs, cfg, now);
    }
    assert UsableProbe(obs, cfg, now) == Some(probe);
    var rest := EvaluateProbe(probe, obs, state, cfg, now);
    e := Evaluation(findings + rest.findings, skipped + rest.skipped);
  }

  /** The probe carried by a usable push. */
  function PushedProbe(obs: Observation, cfg: Config, now: int): (probe: Probe)
    requires PushUsable(obs, cfg, now)
    ensures Some(probe) == obs.push.payload
  {
    obs.push.payload.value
  }

  method EvaluateProbe(probe: Probe, obs: Observation, state: WatchdogState, cfg: Config, now: int)
    returns (e: Evaluation)
    requires UsableProbe(obs, cfg, now) == Some(probe)
    modifies state`baseline
    ensures e == ProbeEvaluation(probe, old(state.baseline), obs, cfg, now)
    ensures state.View() == old(state.View()).(baseline := NextBaseline(old(state.baseline), obs, cfg, now))
  {
    hide WatchdogModel.EvaluateStatus, UsableProbe, PushUsable;
    var findings := EvaluateContainer(probe);
    var down := Down(probe);
    findings := findings + ReportIf(!down && HeartbeatLate(probe, cfg), HeartbeatStale, Crit);
    var storm := map[];
    if probe.restartCount.Some? && !down {
      var baseline := state.baseline;
      if baseline.None? || baseline.value.ts == 0 || now - baseline.value.ts > cfg.restartWindow {
        state.baseline := Some(Baseline(now, probe.restartCount.value));
      } else if probe.restartCount.value - baseline.value.count >= cfg.restartDelta {
        storm := Report(RestartStorm, Warn);
      }
    }
    findings := findings + storm
                + ReportIf(probe.freePercent.Some? && probe.freePercent.value < cfg.diskMinFree, DiskLow, Warn);
    if down {
      return Evaluation(findings + map[], {ContainerUnhealthy, HeartbeatStale, StatusApiUnreachable} + STATUS_RULES);
    }
    if probe.status.None? {
      if obs.statusRequested {
        return Evaluation(findings + Report(StatusApiUnreachable, Warn), STATUS_RULES);
      }
      return Evaluation(findings + map[], STATUS_RULES + {StatusApiUnreachable});
    }
    var status := EvaluateStatus(probe.status.value, cfg, now);
    e := Evaluation(findings + status, {});
  }

  /** One round: `run_once` without the daily summary. */
  method RunOnce(obs: Observation, state: WatchdogState, telegram: Telegram, cfg: Config, now: int,
                 ghost before: History)
    returns (decision: Decision, ghost after: History)
    requires before.state == state.View() && before.tried == telegram.tried && before.sent == telegram.sent
    modifies state, telegram
    ensures after == WatchdogModel.RunOnce(cfg, telegram.net, before, Round(obs, now))
    ensures after.state == state.View()
            && after.tried == telegram.tried
            && after.sent == telegram.sent
    ensures decision == after.entries[|after.entries| - 1].decision
  {
    hide WatchdogModel.Evaluate, WatchdogModel.Decide, WatchdogModel.Dispatch, NextBaseline;
    var evaluation := Evaluate(obs, state, cfg, now);
    decision := Decide(evaluation, state, cfg, now);
    var _ := Dispatch(cfg, telegram, state, decision, now);
    after := History(state.View(), telegram.tried, telegram.sent,
                     before.entries + [Entry(evaluation, decision, now)]);
  }
}
