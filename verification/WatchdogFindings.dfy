/**
 Which observations make a rule fire, for every rule, in terms of what was observed.
 */
module WatchdogFindings {
  import opened Wrappers
  import opened WatchdogModel
  import opened WatchdogRules

  predicate Fires(findings: map<Rule, Finding>, rule: Rule, severity: Severity) {
    rule in findings && findings[rule].severity == severity
  }

  // --- where the data comes from ---

  /** A push that came recently and carries an undamaged probe. */
  predicate PushHelps(obs: Observation, cfg: Config, now: int) {
    && obs.push.receivedAt != 0
    && now - obs.push.receivedAt <= cfg.pushMaxAge
    && 0 <= cfg.pushMaxAge
    && obs.push.payload.Some? && !obs.push.payload.value.failed
  }

  predicate HasProbe(obs: Observation, cfg: Config, now: int) {
    obs.reachable && (obs.sshOk || PushHelps(obs, cfg, now))
  }

  /** The SSH probe if it worked, or else the pushed one. */
  function ProbeOf(obs: Observation, cfg: Config, now: int): Probe
    requires HasProbe(obs, cfg, now)
  {
    if obs.sshOk then obs.probe else obs.push.payload.value
  }

  /** The probe shows a running container. */
  predicate Runs(obs: Observation, cfg: Config, now: int) {
    HasProbe(obs, cfg, now)
    && ProbeOf(obs, cfg, now).found
    && ProbeOf(obs, cfg, now).running
  }

  predicate HasStatus(obs: Observation, cfg: Config, now: int) {
    Runs(obs, cfg, now) && ProbeOf(obs, cfg, now).status.Some?
  }

  function StatusOf(obs: Observation, cfg: Config, now: int): Status
    requires HasStatus(obs, cfg, now)
  {
    ProbeOf(obs, cfg, now).status.value
  }

  lemma ProbeIsUsable(obs: Observation, cfg: Config, now: int)
    ensures UsableProbe(obs, cfg, now) == if HasProbe(obs, cfg, now) then Some(ProbeOf(obs, cfg, now)) else None
    ensures PushUsable(obs, cfg, now) == PushHelps(obs, cfg, now)
  {
  }

  // --- the parts of an evaluation ---

  function OwnFindings(obs: Observation, cfg: Config, now: int): map<Rule, Finding> {
    if !obs.reachable then Report(HostUnreachable, Crit)
    else if obs.sshOk then map[]
    else Report(SshProbeFailed, if PushHelps(obs, cfg, now) then Warn else Crit)
  }

  function ProbeFindings(obs: Observation, baseline: Option<Baseline>, cfg: Config, now: int): map<Rule, Finding> {
    if HasProbe(obs, cfg, now) then ProbeEvaluation(ProbeOf(obs, cfg, now), baseline, obs, cfg, now).findings else map[]
  }

  lemma Parts(obs: Observation, baseline: Option<Baseline>, cfg: Config, now: int)
    ensures Evaluate(obs, baseline, cfg, now).findings
         == PushFindings(obs, cfg, now) + OwnFindings(obs, cfg, now) + ProbeFindings(obs, baseline, cfg, now)
  {
    hide ProbeEvaluation, PushFindings;
    ProbeIsUsable(obs, cfg, now);
  }

  /** Each part speaks of its own rules. */
  lemma PartsDisjoint(obs: Observation, baseline: Option<Baseline>, cfg: Config, now: int)
    ensures PushFindings(obs, cfg, now).Keys <= {PushStale}
            && OwnFindings(obs, cfg, now).Keys <= {HostUnreachable, SshProbeFailed}
    ensures ProbeFindings(obs, baseline, cfg, now).Keys <= (HOST_RULES + STATUS_RULES) - {SshProbeFailed}
  {
    hide PushHelps, ProbeEvaluation;
    if HasProbe(obs, cfg, now) {
      ProbeIsUsable(obs, cfg, now);
      ProbeFiled(ProbeOf(obs, cfg, now), baseline, obs, cfg, now);
    }
  }

  /** For a rule about the container or the status, only the probe counts. */
  lemma FromProbe(obs: Observation, baseline: Option<Baseline>, cfg: Config, now: int, r: Rule)
    requires r !in {PushStale, HostUnreachable, SshProbeFailed}
    ensures var f, g := Evaluate(obs, baseline, cfg, now).findings, ProbeFindings(obs, baseline, cfg, now);
            (r in f <==> r in g) && (r in f ==> f[r] == g[r])
  {
    hide Evaluate, PushFindings, OwnFindings, ProbeFindings;
    Parts(obs, baseline, cfg, now);
    PartsDisjoint(obs, baseline, cfg, now);
  }

  // --- host and path ---

  /** The rules about the host, the path to it and the push. */
  lemma PathFindings(obs: Observation, baseline: Option<Baseline>, cfg: Config, now: int)
    ensures var f := Evaluate(obs, baseline, cfg, now).findings;
            && (HostUnreachable in f <==> !obs.reachable)
            && (HostUnreachable in f ==> Fires(f, HostUnreachable, Crit))
            && (SshProbeFailed in f <==> obs.reachable && !obs.sshOk)
            && (SshProbeFailed in f ==> Fires(f, SshProbeFailed, if PushHelps(obs, cfg, now) then Warn else Crit))
            && (PushStale in f <==>
                  cfg.pushSecret && (obs.push.receivedAt == 0 || now - obs.push.receivedAt > cfg.pushMaxAge || 0 > cfg.pushMaxAge))
            && (PushStale in f ==> Fires(f, PushStale, Crit))
  {
    hide Evaluate, ProbeFindings, PushHelps;
    Parts(obs, baseline, cfg, now);
    PartsDisjoint(obs, baseline, cfg, now);
  }

  // --- container ---

  lemma StatusOnlyStatus(probe: Probe, obs: Observation, cfg: Config, now: int)
    ensures StatusEvaluation(probe, obs, cfg, now).findings.Keys <= STATUS_RULES + {StatusApiUnreachable}
  {
    StatusSkips(probe, obs, cfg, now);
  }

  lemma ContainerParts(probe: Probe, baseline: Option<Baseline>, obs: Observation, cfg: Config, now: int)
    ensures var f := ProbeEvaluation(probe, baseline, obs, cfg, now).findings;
            && (ContainerDown in f <==> !probe.found || !probe.running)
            && (ContainerDown in f ==> Fires(f, ContainerDown, Crit))
            && (ContainerUnhealthy in f <==> probe.found && probe.running && probe.unhealthy)
            && (ContainerUnhealthy in f ==> Fires(f, ContainerUnhealthy, Warn))
            && (DiskLow in f <==> probe.freePercent.Some? && probe.freePercent.value < cfg.diskMinFree)
            && (DiskLow in f ==> Fires(f, DiskLow, Warn))
  {
    hide StatusEvaluation, HeartbeatLate, Storming;
    StatusOnlyStatus(probe, obs, cfg, now);
  }

  /** A container that is missing or not running is critical; one that runs but is unhealthy, or whose disk is full, a warning. */
  lemma ContainerFindings(obs: Observation, baseline: Option<Baseline>, cfg: Config, now: int)
    ensures var f := Evaluate(obs, baseline, cfg, now).findings;
            && (ContainerDown in f <==> HasProbe(obs, cfg, now) && !Runs(obs, cfg, now))
            && (ContainerDown in f ==> Fires(f, ContainerDown, Crit))
            && (ContainerUnhealthy in f <==> Runs(obs, cfg, now) && ProbeOf(obs, cfg, now).unhealthy)
            && (ContainerUnhealthy in f ==> Fires(f, ContainerUnhealthy, Warn))
            && (DiskLow in f <==>
                  HasProbe(obs, cfg, now)
                  && ProbeOf(obs, cfg, now).freePercent.Some?
                  && ProbeOf(obs, cfg, now).freePercent.value < cfg.diskMinFree)
            && (DiskLow in f ==> Fires(f, DiskLow, Warn))
  {
    hide Evaluate, ProbeEvaluation, PushHelps;
    FromProbe(obs, baseline, cfg, now, ContainerDown);
    FromProbe(obs, baseline, cfg, now, ContainerUnhealthy);
    FromProbe(obs, baseline, cfg, now, DiskLow);
    if HasProbe(obs, cfg, now) {
      ContainerParts(ProbeOf(obs, cfg, now), baseline, obs, cfg, now);
    }
  }

  lemma RunningParts(probe: Probe, baseline: Option<Baseline>, obs: Observation, cfg: Config, now: int)
    ensures var f := ProbeEvaluation(probe, baseline, obs, cfg, now).findings;
            && (HeartbeatStale in f <==>
                  && probe.found && probe.running
                  && (!probe.heartbeatPresent || probe.heartbeatAge.None? || probe.heartbeatAge.value > cfg.heartbeatMaxAge))
            && (HeartbeatStale in f ==> Fires(f, HeartbeatStale, Crit))
            && (RestartStorm in f <==> Storming(baseline, obs, cfg, now))
            && (RestartStorm in f ==> Fires(f, RestartStorm, Warn))
  {
    hide StatusEvaluation, Storming;
    StatusOnlyStatus(probe, obs, cfg, now);
  }

  lemma StatusApiPart(probe: Probe, baseline: Option<Baseline>, obs: Observation, cfg: Config, now: int)
    ensures var f := ProbeEvaluation(probe, baseline, obs, cfg, now).findings;
            && (StatusApiUnreachable in f <==> probe.found && probe.running && probe.status.None? && obs.statusRequested)
            && (StatusApiUnreachable in f ==> Fires(f, StatusApiUnreachable, Warn))
  {
    hide Storming, HeartbeatLate, WatchdogModel.EvaluateStatus;
    if probe.status.Some? {
      StatusFindings(probe.status.value, cfg, now);
    }
  }

  lemma RestartsCounted(obs: Observation, cfg: Config, now: int)
    ensures RestartsSeen(obs, cfg, now) == if Runs(obs, cfg, now) then ProbeOf(obs, cfg, now).restartCount else None
  {
    ProbeIsUsable(obs, cfg, now);
  }

  /** The heartbeat, restarts and the status API count only while the container runs. */
  lemma RunningFindings(obs: Observation, baseline: Option<Baseline>, cfg: Config, now: int)
    ensures var f := Evaluate(obs, baseline, cfg, now).findings;
            && (HeartbeatStale in f <==>
                  && Runs(obs, cfg, now)
                  && var p := ProbeOf(obs, cfg, now);
                     !p.heartbeatPresent || p.heartbeatAge.None? || p.heartbeatAge.value > cfg.heartbeatMaxAge)
            && (HeartbeatStale in f ==> Fires(f, HeartbeatStale, Crit))
            && (RestartStorm in f <==>
                  && Runs(obs, cfg, now)
                  && ProbeOf(obs, cfg, now).restartCount.Some?
                  && baseline.Some?
                  && baseline.value.ts != 0
                  && now - baseline.value.ts <= cfg.restartWindow
                  && ProbeOf(obs, cfg, now).restartCount.value - baseline.value.count >= cfg.restartDelta)
            && (RestartStorm in f ==> Fires(f, RestartStorm, Warn))
            && (StatusApiUnreachable in f <==>
                  Runs(obs, cfg, now) && ProbeOf(obs, cfg, now).status.None? && obs.statusRequested)
            && (StatusApiUnreachable in f ==> Fires(f, StatusApiUnreachable, Warn))
  {
    hide Evaluate, ProbeEvaluation, PushHelps, RestartsSeen;
    FromProbe(obs, baseline, cfg, now, HeartbeatStale);
    FromProbe(obs, baseline, cfg, now, RestartStorm);
    FromProbe(obs, baseline, cfg, now, StatusApiUnreachable);
    RestartsCounted(obs, cfg, now);
    if HasProbe(obs, cfg, now) {
      RunningParts(ProbeOf(obs, cfg, now), baseline, obs, cfg, now);
      StatusApiPart(ProbeOf(obs, cfg, now), baseline, obs, cfg, now);
    }
  }

  // --- status ---

  /** The controller is fresh, automatic, and ready or busy within its own limits: it handles the MAX link itself. */
  predicate Handles(status: Status, now: int) {
    && status.controller.Some?
    && var c := status.controller.value;
       var moving := c.phase.Transit? && c.deadline.Some? && now <= c.deadline.value;
       && (now - c.lastProbeAt <= 90 || moving) && c.auto
       && (c.ready || (c.phase.AwaitingThreshold? && now < c.waitUntil) || moving)
  }

  lemma HandlesIsManaged(status: Status, now: int)
    ensures Managed(ControllerOf(status), now) == Handles(status, now)
            && (Handles(status, now) ==> status.controller.Some?)
  {
  }

  lemma StatusPart(probe: Probe, baseline: Option<Baseline>, obs: Observation, cfg: Config, now: int, r: Rule)
    requires r in STATUS_RULES
    ensures var f := ProbeEvaluation(probe, baseline, obs, cfg, now).findings;
            if probe.found && probe.running && probe.status.Some? then
              var g := EvaluateStatus(probe.status.value, cfg, now);
              (r in f <==> r in g) && (r in f ==> f[r] == g[r])
            else r !in f
  {
    hide StatusEvaluation;
    HostPart(probe, baseline, obs, cfg, now);
    StatusSource(probe, obs, cfg, now);
  }

  /** All but the status findings of a probe are about the host. */
  lemma HostPart(probe: Probe, baseline: Option<Baseline>, obs: Observation, cfg: Config, now: int)
    ensures var f, g := ProbeEvaluation(probe, baseline, obs, cfg, now).findings, StatusEvaluation(probe, obs, cfg, now).findings;
            forall r :: r in STATUS_RULES ==> (r in f <==> r in g) && (r in f ==> f[r] == g[r])
  {
    hide StatusEvaluation, Storming, HeartbeatLate, EvaluateContainer, ReportIf;
    var container := EvaluateContainer(probe);
    var heartbeat := ReportIf(!Down(probe) && HeartbeatLate(probe, cfg), HeartbeatStale, Crit);
    var storm := ReportIf(Storming(baseline, obs, cfg, now), RestartStorm, Warn);
    var disk := ReportIf(probe.freePercent.Some? && probe.freePercent.value < cfg.diskMinFree, DiskLow, Warn);
    ContainerFiled(probe, HOST_RULES);
    FiledIf(!Down(probe) && HeartbeatLate(probe, cfg), HeartbeatStale, Crit, HOST_RULES);
    FiledIf(Storming(baseline, obs, cfg, now), RestartStorm, Warn, HOST_RULES);
    FiledIf(probe.freePercent.Some? && probe.freePercent.value < cfg.diskMinFree, DiskLow, Warn, HOST_RULES);
    AllFiled(container, heartbeat, storm, disk, map[], HOST_RULES);
    assert container + heartbeat + storm + disk + map[] == container + heartbeat + storm + disk;
    StatusWins(container + heartbeat + storm + disk, StatusEvaluation(probe, obs, cfg, now).findings);
    hide Filed, Down;
  }

  lemma StatusWins(others: map<Rule, Finding>, status: map<Rule, Finding>)
    requires Filed(others, HOST_RULES)
    ensures forall r :: r in STATUS_RULES ==>
              (r in others + status <==> r in status)
              && (r in others + status ==> (others + status)[r] == status[r])
  {
  }

  lemma StatusSource(probe: Probe, obs: Observation, cfg: Config, now: int)
    ensures var f := StatusEvaluation(probe, obs, cfg, now).findings;
            if probe.found && probe.running && probe.status.Some? then f == EvaluateStatus(probe.status.value, cfg, now)
            else f.Keys !! STATUS_RULES
  {
    hide EvaluateStatus;
  }

  /** A rule about the status fires exactly if it does for the status of a running container. */
  lemma FromStatus(obs: Observation, baseline: Option<Baseline>, cfg: Config, now: int, r: Rule)
    requires r in STATUS_RULES
    ensures var f := Evaluate(obs, baseline, cfg, now).findings;
            if HasStatus(obs, cfg, now) then
              var g := EvaluateStatus(StatusOf(obs, cfg, now), cfg, now);
              (r in f <==> r in g) && (r in f ==> f[r] == g[r])
            else r !in f
  {
    hide Evaluate, ProbeEvaluation, EvaluateStatus, PushHelps;
    FromProbe(obs, baseline, cfg, now, r);
    if HasProbe(obs, cfg, now) {
      StatusPart(ProbeOf(obs, cfg, now), baseline, obs, cfg, now, r);
    }
  }

  /** What the status of a running container makes fire. */
  lemma StatusRules(status: Status, cfg: Config, now: int)
    ensures var f := EvaluateStatus(status, cfg, now);
            && (OverallDegraded in f <==>
                  status.degraded &&
                  (!Handles(status, now) || exists s :: s in status.subsystems && s.issue.Some? && !s.maxLink))
            && (OverallDegraded in f ==> Fires(f, OverallDegraded, Warn))
            && (AlertOutboxBacklog in f <==> status.outbox > 0)
            && (AlertOutboxBacklog in f ==> Fires(f, AlertOutboxBacklog, Warn))
            && (QueueBacklog in f <==> exists t :: t in status.oldestQueued && t != 0 && now - t > cfg.queueMaxAge)
            && (QueueBacklog in f ==> Fires(f, QueueBacklog, Warn))
            && (EgressModeUnexpected in f <==>
                  && status.activeEgress.Some?
                  && cfg.expectedEgress.Some?
                  && status.activeEgress != cfg.expectedEgress
                  && !(Handles(status, now) && status.controller.value.primary == cfg.expectedEgress
                       && status.activeEgress == status.controller.value.fallback))
            && (EgressModeUnexpected in f ==> Fires(f, EgressModeUnexpected, Warn))
  {
    HandlesIsManaged(status, now);
    hide Managed, Handles, SubsystemFinding;
    SubsystemOnly(status, now);
  }

  lemma SubsystemOnly(status: Status, now: int)
    ensures SubsystemFinding(status, now).Some? ==> SubsystemFinding(status, now).value.rule == SubsystemIssue
  {
    WorstIsSubsystemIssue(status.subsystems, Managed(ControllerOf(status), now));
  }

  /** The same for the whole evaluation. */
  lemma BacklogFindings(obs: Observation, baseline: Option<Baseline>, cfg: Config, now: int)
    ensures var f := Evaluate(obs, baseline, cfg, now).findings;
            if HasStatus(obs, cfg, now) then
              var status := StatusOf(obs, cfg, now);
              && (OverallDegraded in f <==>
                    status.degraded &&
                    (!Handles(status, now) || exists s :: s in status.subsystems && s.issue.Some? && !s.maxLink))
              && (AlertOutboxBacklog in f <==> status.outbox > 0)
              && (QueueBacklog in f <==> exists t :: t in status.oldestQueued && t != 0 && now - t > cfg.queueMaxAge)
              && (EgressModeUnexpected in f <==>
                    && status.activeEgress.Some?
                    && cfg.expectedEgress.Some?
                    && status.activeEgress != cfg.expectedEgress
                    && !(Handles(status, now) && status.controller.value.primary == cfg.expectedEgress
                         && status.activeEgress == status.controller.value.fallback))
              && forall r :: r in f && r in {OverallDegraded, AlertOutboxBacklog, QueueBacklog, EgressModeUnexpected} ==>
                   f[r].severity == Warn
            else f.Keys !! STATUS_RULES
  {
    hide Evaluate, EvaluateStatus, PushHelps;
    FromStatus(obs, baseline, cfg, now, OverallDegraded);
    FromStatus(obs, baseline, cfg, now, AlertOutboxBacklog);
    FromStatus(obs, baseline, cfg, now, QueueBacklog);
    FromStatus(obs, baseline, cfg, now, EgressModeUnexpected);
    FromStatus(obs, baseline, cfg, now, SubsystemIssue);
    if HasStatus(obs, cfg, now) {
      StatusRules(StatusOf(obs, cfg, now), cfg, now);
    }
  }

  // --- issues of subsystems ---

  /** The issue of the i-th subsystem counts: it is no business of a controller that handles the MAX link. */
  predicate Bothers(status: Status, now: int, i: int)
    requires 0 <= i < |status.subsystems|
  {
    var s := status.subsystems[i];
    s.issue.Some? && !(Handles(status, now) && s.maxLink && !s.issue.value.requiresReauth)
  }

  predicate Critical(s: Subsystem) {
    s.issue.Some?
    && (s.issue.value.requiresReauth || s.issue.value.critical)
  }

  /** How the issue of a subsystem is reported. */
  predicate ReportedAs(s: Subsystem, f: Finding) {
    && s.issue.Some?
    && f.rule == SubsystemIssue
    && (f.severity == Crit <==> Critical(s))
    && f.class_ == (if s.issue.value.requiresReauth then Reauth else if s.issue.value.egressUnavailable then Egress else MaxLink)
  }

  /** The i-th issue is the one to report: the first critical one, or else the first. */
  ghost predicate Prevails(status: Status, now: int, i: int) {
    && 0 <= i < |status.subsystems| && Bothers(status, now, i)
    && forall j :: 0 <= j < |status.subsystems| && Bothers(status, now, j) ==>
         if Critical(status.subsystems[i]) then Critical(status.subsystems[j]) ==> i <= j
         else !Critical(status.subsystems[j]) && i <= j
  }

  lemma {:induction false} WorstPrevails(status: Status, now: int, n: nat) returns (i: int)
    requires n <= |status.subsystems|
    ensures var worst := Worst(status.subsystems[..n], Handles(status, now));
            if worst.None? then forall j :: 0 <= j < n ==> !Bothers(status, now, j)
            else
              && 0 <= i < n
              && Bothers(status, now, i)
              && ReportedAs(status.subsystems[i], worst.value)
              && forall j :: 0 <= j < n && Bothers(status, now, j) ==>
                   if Critical(status.subsystems[i]) then Critical(status.subsystems[j]) ==> i <= j
                   else !Critical(status.subsystems[j]) && i <= j
  {
    hide Handles;
    i := 0;
    if n > 0 {
      i := WorstPrevails(status, now, n - 1);
      var init, last := Worst(status.subsystems[..n - 1], Handles(status, now)), status.subsystems[n - 1];
      assert status.subsystems[..n][..n - 1] == status.subsystems[..n - 1];
      if Counts(last, Handles(status, now)) && (init.None? || (init.value.severity != Crit && Critical(last))) {
        i := n - 1;
      }
    }
  }

  /**
   The subsystem finding: a warning if the controller is stale or past its deadline, or else the first critical issue, or the first
   issue, of those that bother.
   */
  lemma SubsystemReported(status: Status, cfg: Config, now: int)
    ensures var f := EvaluateStatus(status, cfg, now);
            var c := ControllerOf(status);
            var moving := c.phase.Transit? && c.deadline.Some? && now <= c.deadline.value;
            if status.controller.Some? && ((now - c.lastProbeAt > 90 && !moving) || (c.deadline.Some? && now > c.deadline.value)) then
              SubsystemIssue in f
              && f[SubsystemIssue] == Finding(SubsystemIssue, Warn, Egress)
            else if SubsystemIssue in f then
              exists i :: Prevails(status, now, i) && ReportedAs(status.subsystems[i], f[SubsystemIssue])
            else forall i :: 0 <= i < |status.subsystems| ==> !Bothers(status, now, i)
  {
    HandlesIsManaged(status, now);
    var i := WorstPrevails(status, now, |status.subsystems|);
    assert status.subsystems[..|status.subsystems|] == status.subsystems;
    hide Managed, Handles, StaleQueue, UnexpectedEgress, OtherIssue, Worst, Bothers, ReportedAs, Critical;
    if Worst(status.subsystems, Handles(status, now)).Some? {
      assert Prevails(status, now, i);
    }
  }

  // --- what has no data ---

  /** The rules an observation says nothing about. */
  lemma SkippedExactly(obs: Observation, baseline: Option<Baseline>, cfg: Config, now: int)
    ensures Evaluate(obs, baseline, cfg, now).skipped
         == (if cfg.pushSecret then {} else {PushStale})
            + if !obs.reachable then HOST_RULES + STATUS_RULES
              else if !HasProbe(obs, cfg, now) then HOST_RULES - {SshProbeFailed} + STATUS_RULES
              else if !Runs(obs, cfg, now) then {ContainerUnhealthy, HeartbeatStale, StatusApiUnreachable} + STATUS_RULES
              else if HasStatus(obs, cfg, now) then {}
              else if obs.statusRequested then STATUS_RULES
              else STATUS_RULES + {StatusApiUnreachable}
  {
    ProbeIsUsable(obs, cfg, now);
    hide UsableProbe, PushUsable, PushFindings, WatchdogModel.EvaluateStatus, EvaluateContainer, Storming, HeartbeatLate;
  }

  // --- thresholds ---

  /** In how many rounds in a row a rule must fire before it alerts: at once, after two or three, or after its grace period. */
  lemma Thresholds(cfg: Config, r: Rule)
    ensures r in {ContainerDown, RestartStorm, PushStale} ==> FailAfter(r, cfg) == 1
    ensures r == ContainerUnhealthy ==> FailAfter(r, cfg) == 3
    ensures r !in {ContainerDown, RestartStorm, PushStale, ContainerUnhealthy, OverallDegraded, AlertOutboxBacklog} ==>
              FailAfter(r, cfg) == 2
    ensures r in {OverallDegraded, AlertOutboxBacklog} ==>
              var grace := if r == OverallDegraded then cfg.degradedGrace else cfg.outboxGrace;
              var interval := if cfg.statusInterval < 1 then 1 else cfg.statusInterval;
              && (FailAfter(r, cfg) == 1 || FailAfter(r, cfg) * interval <= grace)
              && grace < (FailAfter(r, cfg) + 1) * interval
  {
  }

  /** The restart baseline is renewed when it is missing or has left the window, and kept otherwise. */
  lemma BaselineRenewed(obs: Observation, baseline: Option<Baseline>, cfg: Config, now: int)
    ensures NextBaseline(baseline, obs, cfg, now)
         == if Runs(obs, cfg, now) && ProbeOf(obs, cfg, now).restartCount.Some?
               && (baseline.None? || baseline.value.ts == 0 || now - baseline.value.ts > cfg.restartWindow)
            then Some(Baseline(now, ProbeOf(obs, cfg, now).restartCount.value)) else baseline
  {
    hide RestartsSeen;
    RestartsCounted(obs, cfg, now);
  }
}
