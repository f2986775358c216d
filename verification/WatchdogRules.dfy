/**
 What `evaluate` promises about a single observation: cascade suppression, and that a managed failover
 hides only its own symptoms.
 */
module WatchdogRules {
  import opened Wrappers
  import opened WatchdogModel

  /** Findings about the rules in `about` only, each filed under its own rule. */
  ghost predicate Filed(findings: map<Rule, Finding>, about: set<Rule>) {
    findings.Keys <= about && forall r :: r in findings ==> findings[r].rule == r
  }

  lemma FiledTogether(a: map<Rule, Finding>, b: map<Rule, Finding>, abouts: set<Rule>)
    requires Filed(a, abouts) && Filed(b, abouts)
    ensures Filed(a + b, abouts)
  {
  }

  lemma FiledIf(condition: bool, rule: Rule, severity: Severity, abouts: set<Rule>)
    requires condition ==> rule in abouts
    ensures Filed(ReportIf(condition, rule, severity), abouts)
  {
  }

  /** A rule never both fires and lacks data; every finding is filed under its own rule. */
  lemma FindingsAndSkippedDisjoint(obs: Observation, baseline: Option<Baseline>, cfg: Config, now: int)
    ensures var e := Evaluate(obs, baseline, cfg, now);
            && e.findings.Keys !! e.skipped
            && (forall r :: r in e.findings ==> e.findings[r].rule == r)
  {
    hide PushUsable, ProbeEvaluation, UsableProbe, PushFindings;
    var probe := UsableProbe(obs, cfg, now);
    PushFiled(obs, cfg, now);
    if probe.Some? {
      ProbeFiled(probe.value, baseline, obs, cfg, now);
    }
  }

  lemma PushFiled(obs: Observation, cfg: Config, now: int)
    ensures Filed(PushFindings(obs, cfg, now), {PushStale} - PushSkipped(cfg))
  {
  }

  lemma ContainerFiled(probe: Probe, abouts: set<Rule>)
    requires if Down(probe) then ContainerDown in abouts else ContainerUnhealthy in abouts
    ensures Filed(EvaluateContainer(probe), abouts)
  {
  }

  lemma AllFiled(a: map<Rule, Finding>, b: map<Rule, Finding>, c: map<Rule, Finding>, d: map<Rule, Finding>,
                 e: map<Rule, Finding>, abouts: set<Rule>)
    requires Filed(a, abouts) && Filed(b, abouts) && Filed(c, abouts) && Filed(d, abouts) && Filed(e, abouts)
    ensures Filed(a + b + c + d + e, abouts)
  {
    hide Filed;
    FiledTogether(a, b, abouts);
    FiledTogether(a + b, c, abouts);
    FiledTogether(a + b + c, d, abouts);
    FiledTogether(a + b + c + d, e, abouts);
  }

  lemma StatusSkips(probe: Probe, obs: Observation, cfg: Config, now: int)
    ensures var e := StatusEvaluation(probe, obs, cfg, now);
            && Filed(e.findings, (STATUS_RULES + {StatusApiUnreachable}) - e.skipped)
            && e.skipped <= STATUS_RULES + {ContainerUnhealthy, HeartbeatStale, StatusApiUnreachable}
            && (!Down(probe) ==> ContainerUnhealthy !in e.skipped && HeartbeatStale !in e.skipped)
  {
    hide EvaluateStatus;
    if probe.status.Some? {
      StatusFindings(probe.status.value, cfg, now);
    }
  }

  lemma ProbeFiled(probe: Probe, baseline: Option<Baseline>, obs: Observation, cfg: Config, now: int)
    requires UsableProbe(obs, cfg, now) == Some(probe)
    ensures var e := ProbeEvaluation(probe, baseline, obs, cfg, now);
            && Filed(e.findings, (HOST_RULES + STATUS_RULES) - {SshProbeFailed} - e.skipped)
            && e.skipped <= (HOST_RULES + STATUS_RULES) - {SshProbeFailed}
  {
    hide StatusEvaluation, BaselineExpired, HeartbeatLate, PushUsable, UsableProbe, ReportIf, EvaluateContainer;
    var status := StatusEvaluation(probe, obs, cfg, now);
    var abouts := (HOST_RULES + STATUS_RULES) - {SshProbeFailed} - status.skipped;
    StatusSkips(probe, obs, cfg, now);
    ContainerFiled(probe, abouts);
    FiledIf(!Down(probe) && HeartbeatLate(probe, cfg), HeartbeatStale, Crit, abouts);
    FiledIf(Storming(baseline, obs, cfg, now), RestartStorm, Warn, abouts);
    FiledIf(probe.freePercent.Some? && probe.freePercent.value < cfg.diskMinFree, DiskLow, Warn, abouts);
    AllFiled(EvaluateContainer(probe),
             ReportIf(!Down(probe) && HeartbeatLate(probe, cfg), HeartbeatStale, Crit),
             ReportIf(Storming(baseline, obs, cfg, now), RestartStorm, Warn),
             ReportIf(probe.freePercent.Some? && probe.freePercent.value < cfg.diskMinFree, DiskLow, Warn),
             status.findings, abouts);
  }

  lemma {:induction false} WorstIsSubsystemIssue(subsystems: seq<Subsystem>, managed: bool)
    ensures var worst := Worst(subsystems, managed);
            && (worst.Some? <==> exists s :: s in subsystems && Counts(s, managed))
            && (worst.Some? ==>
                  && worst.value.rule == SubsystemIssue
                  && (worst.value.severity == Crit <==>
                      exists s :: s in subsystems && Counts(s, managed) && (s.issue.value.critical || s.issue.value.requiresReauth)))
  {
    if subsystems != [] {
      var init, last := subsystems[..|subsystems| - 1], subsystems[|subsystems| - 1];
      WorstIsSubsystemIssue(init, managed);
      assert forall s :: s in subsystems <==> s in init || s == last;
    }
  }

  lemma StatusFindings(status: Status, cfg: Config, now: int)
    ensures Filed(EvaluateStatus(status, cfg, now), STATUS_RULES)
  {
    hide Managed, StaleQueue, UnexpectedEgress, OtherIssue;
    WorstIsSubsystemIssue(status.subsystems, Managed(ControllerOf(status), now));
    var subsystem := SubsystemFinding(status, now);
    var managed := Managed(ControllerOf(status), now);
    var overall := ReportIf(status.degraded && (!managed || OtherIssue(status)), OverallDegraded, Warn);
    var own := if subsystem.Some? then map[SubsystemIssue := subsystem.value] else map[];
    var outbox := ReportIf(status.outbox > 0, AlertOutboxBacklog, Warn);
    var queue := ReportIf(StaleQueue(status, cfg, now), QueueBacklog, Warn);
    AllFiled(overall, own, outbox, queue,
             ReportIf(UnexpectedEgress(status, cfg, now), EgressModeUnexpected, Warn), STATUS_RULES);
  }

  /** With a fresh controller inside its deadline, exactly the issues that are not its own business decide. */
  lemma ManagedSuppressionIsSound(status: Status, cfg: Config, now: int)
    ensures var f := EvaluateStatus(status, cfg, now);
            var c := ControllerOf(status);
            var managed := Managed(c, now);
            var alarmed := status.controller.Some? && (!Fresh(c, now) || Overdue(c, now));
            && (SubsystemIssue in f <==> alarmed || exists s :: s in status.subsystems && Counts(s, managed))
            && (!alarmed && SubsystemIssue in f ==>
                  (f[SubsystemIssue].severity == Crit <==>
                   exists s :: s in status.subsystems && Counts(s, managed)
                               && (s.issue.value.critical || s.issue.value.requiresReauth)))
            && (alarmed ==> f[SubsystemIssue].severity == Warn)
  {
    hide Fresh, Managed, Overdue, StaleQueue, UnexpectedEgress, OtherIssue;
    WorstIsSubsystemIssue(status.subsystems, Managed(ControllerOf(status), now));
  }

  /** No issue outside the MAX link, and no request for reauthorisation, is ever hidden. */
  lemma ForeignIssuesAlwaysReported(status: Status, cfg: Config, now: int, s: Subsystem)
    requires s in status.subsystems && s.issue.Some? && (!s.maxLink || s.issue.value.requiresReauth)
    ensures SubsystemIssue in EvaluateStatus(status, cfg, now)
    ensures status.degraded && !s.maxLink ==> OverallDegraded in EvaluateStatus(status, cfg, now)
  {
    ManagedSuppressionIsSound(status, cfg, now);
    assert Counts(s, Managed(ControllerOf(status), now));
  }

  /** What the state holds about one rule. */
  datatype RuleView = RuleView(count: nat, alerting: bool, started: Option<int>)

  function ViewOf(s: State, r: Rule): RuleView {
    RuleView(FailCount(s, r), r in s.alerting, if r in s.started then Some(s.started[r]) else None)
  }

  function AlertsOf(alerts: seq<Finding>, r: Rule): seq<Finding> {
    if alerts == [] then []
    else
      var last := alerts[|alerts| - 1];
      AlertsOf(alerts[..|alerts| - 1], r) + if last.rule == r then [last] else []
  }

  function RecoveriesOf(recoveries: seq<Recovery>, r: Rule): seq<Recovery> {
    if recoveries == [] then []
    else
      var last := recoveries[|recoveries| - 1];
      RecoveriesOf(recoveries[..|recoveries| - 1], r) + if last.rule == r then [last] else []
  }

  /** Deciding one rule, or a skipped one, changes nothing about another. */
  lemma DecideRuleOther(e: Evaluation, cfg: Config, now: int, d: Decided, rule: Rule, r: Rule)
    requires rule in e.findings ==> e.findings[rule].rule == rule
    requires r != rule || r in e.skipped
    ensures var after := DecideRule(e, cfg, now, d, rule);
            && ViewOf(after.state, r) == ViewOf(d.state, r)
            && AlertsOf(after.decision.alerts, r) == AlertsOf(d.decision.alerts, r)
            && RecoveriesOf(after.decision.recoveries, r) == RecoveriesOf(d.decision.recoveries, r)
  {
    hide FailAfter, ViewOf, Counted, Raise, Cleared, Lower, AlertsOf, RecoveriesOf;
    if r != rule {
      CountedOther(d.state, rule, r);
      RaisedOther(Counted(d.state, rule), rule, r, now);
      RaisedOther(Cleared(d.state, rule), rule, r, now);
    }
    if rule in e.findings {
      AlertsOfAppended(d.decision.alerts, e.findings[rule], r);
    }
    RecoveriesOfAppended(d.decision.recoveries, Lasted(d.state, rule, now), r);
  }

  lemma CountedOther(s: State, rule: Rule, r: Rule)
    requires r != rule
    ensures ViewOf(Counted(s, rule), r) == ViewOf(s, r)
            && ViewOf(Cleared(s, rule), r) == ViewOf(s, r)
  {
  }

  lemma RaisedOther(s: State, rule: Rule, r: Rule, now: int)
    requires r != rule
    ensures ViewOf(Raise(s, rule, now), r) == ViewOf(s, r)
            && ViewOf(Lower(s, rule), r) == ViewOf(s, r)
  {
  }

  lemma AlertsOfAppended(alerts: seq<Finding>, f: Finding, r: Rule)
    ensures AlertsOf(alerts + [f], r) == AlertsOf(alerts, r) + if f.rule == r then [f] else []
  {
    assert (alerts + [f])[..|alerts|] == alerts;
  }

  lemma RecoveriesOfAppended(recoveries: seq<Recovery>, y: Recovery, r: Rule)
    ensures RecoveriesOf(recoveries + [y], r) == RecoveriesOf(recoveries, r) + if y.rule == r then [y] else []
  {
    assert (recoveries + [y])[..|recoveries|] == recoveries;
  }

  /** A rule without data keeps its counter, its flag and its start, and is not mentioned. */
  lemma {:induction false} SkippedUntouched(e: Evaluation, cfg: Config, now: int, s: State, rules: seq<Rule>, r: Rule)
    requires r !in rules || r in e.skipped
    requires forall q :: q in e.findings ==> e.findings[q].rule == q
    ensures var d := DecideRules(e, cfg, now, s, rules);
            && ViewOf(d.state, r) == ViewOf(s, r)
            && AlertsOf(d.decision.alerts, r) == []
            && RecoveriesOf(d.decision.recoveries, r) == []
  {
    hide DecideRule, ViewOf;
    if rules != [] {
      var init := rules[..|rules| - 1];
      SkippedUntouched(e, cfg, now, s, init, r);
      DecideRuleOther(e, cfg, now, DecideRules(e, cfg, now, s, init), rules[|rules| - 1], r);
    }
  }

  /** An unreachable host says nothing about the twelve rules that need it: they stay as they were. */
  lemma UnreachableFreezesDependents(
    obs: Observation, baseline: Option<Baseline>, cfg: Config, now: int, s: State, r: Rule)
    requires !obs.reachable && r in HOST_RULES + STATUS_RULES
    ensures var e := Evaluate(obs, baseline, cfg, now);
            var d := Decide(e, cfg, now, s);
            && r !in e.findings && HostUnreachable in e.findings
            && ViewOf(d.state, r) == ViewOf(s, r)
            && AlertsOf(d.decision.alerts, r) == []
            && RecoveriesOf(d.decision.recoveries, r) == []
            && |HOST_RULES + STATUS_RULES| == 12
            && NextBaseline(baseline, obs, cfg, now) == baseline
  {
    hide DecideRules;
    FindingsAndSkippedDisjoint(obs, baseline, cfg, now);
    SkippedUntouched(Evaluate(obs, baseline, cfg, now), cfg, now, s, KNOWN, r);
    DependentsCount();
  }

  lemma DependentsCount()
    ensures |HOST_RULES + STATUS_RULES| == 12
  {
    assert HOST_RULES + STATUS_RULES == {
      SshProbeFailed, ContainerDown, ContainerUnhealthy, HeartbeatStale, RestartStorm, DiskLow, StatusApiUnreachable,
      OverallDegraded, SubsystemIssue, AlertOutboxBacklog, QueueBacklog, EgressModeUnexpected};
  }
}
