/**
 The decision engine of the external watchdog as functions on values
 (src/watchdog_external/rules.py, state.py, notify.py).
 Observations are typed records of what the rules read; the texts of findings are not modelled.
 */
module WatchdogModel {
  import opened Wrappers

  datatype Rule =
    | AlertOutboxBacklog | ContainerDown | ContainerUnhealthy | DiskLow | EgressModeUnexpected | HeartbeatStale
    | HostUnreachable | OverallDegraded | PushStale | QueueBacklog | RestartStorm | SshProbeFailed
    | StatusApiUnreachable | SubsystemIssue

  /** The known rules in the order `decide` visits them. */
  const KNOWN: seq<Rule> := [
    AlertOutboxBacklog, ContainerDown, ContainerUnhealthy, DiskLow, EgressModeUnexpected, HeartbeatStale,
    HostUnreachable, OverallDegraded, PushStale, QueueBacklog, RestartStorm, SshProbeFailed,
    StatusApiUnreachable, SubsystemIssue]

  const HOST_RULES: set<Rule> := {
    SshProbeFailed, ContainerDown, ContainerUnhealthy, HeartbeatStale, RestartStorm, DiskLow, StatusApiUnreachable}

  const STATUS_RULES: set<Rule> := {
    OverallDegraded, SubsystemIssue, AlertOutboxBacklog, QueueBacklog, EgressModeUnexpected}

  datatype Config = Config(
    pollInterval: int, statusInterval: int, degradedGrace: int, outboxGrace: int,
    pushSecret: bool, pushMaxAge: int, heartbeatMaxAge: int, restartDelta: int, restartWindow: int,
    diskMinFree: int, queueMaxAge: int, dedupTtl: int, expectedEgress: Option<string>)

  datatype Severity = Crit | Warn

  datatype FailureClass = Reauth | Egress | MaxLink | Other

  datatype Finding = Finding(rule: Rule, severity: Severity, class_: FailureClass)

  datatype Recovery = Recovery(rule: Rule, seconds: int)

  datatype Evaluation = Evaluation(findings: map<Rule, Finding>, skipped: set<Rule>)

  datatype Decision = Decision(alerts: seq<Finding>, recoveries: seq<Recovery>)

  // --- observations ---

  datatype Issue = Issue(requiresReauth: bool, critical: bool, egressUnavailable: bool)

  datatype Subsystem = Subsystem(maxLink: bool, issue: Option<Issue>)

  datatype EgressPhase = Transit | AwaitingThreshold | OtherPhase

  /** The controller's snapshot; times that are missing or zero are 0. */
  datatype Controller = Controller(
    auto: bool, ready: bool, phase: EgressPhase, deadline: Option<int>, lastProbeAt: int, waitUntil: int,
    primary: Option<string>, fallback: Option<string>)

  datatype Status = Status(
    degraded: bool, controller: Option<Controller>, subsystems: seq<Subsystem>,
    outbox: int, oldestQueued: seq<int>, activeEgress: Option<string>)

  datatype Probe = Probe(
    failed: bool, found: bool, running: bool, unhealthy: bool, restartCount: Option<int>,
    heartbeatPresent: bool, heartbeatAge: Option<int>, freePercent: Option<int>, status: Option<Status>)

  /** The latest push; `receivedAt` 0 means none, `payload` is its probe when that is a dictionary. */
  datatype Push = Push(receivedAt: int, payload: Option<Probe>)

  datatype Observation = Observation(
    reachable: bool, sshOk: bool, statusRequested: bool, push: Push, probe: Probe)

  // --- persistent state ---

  datatype Baseline = Baseline(ts: int, count: int)

  datatype Key = AlertKey(rule: Rule) | RecoveryKey(rule: Rule)

  datatype State = State(
    fails: map<Rule, nat>, alerting: set<Rule>, started: map<Rule, int>, lastSent: map<Key, int>,
    baseline: Option<Baseline>)

  const NEW_STATE := State(map[], {}, map[], map[], None)

  function FailCount(s: State, rule: Rule): nat {
    if rule in s.fails then s.fails[rule] else 0
  }

  function StartedAt(s: State, rule: Rule): int {
    if rule in s.started then s.started[rule] else 0
  }

  function LastSentAt(s: State, key: Key): int {
    if key in s.lastSent then s.lastSent[key] else 0
  }

  // --- rules ---

  function Max(a: int, b: int): int {
    if a < b then b else a
  }

  function FailAfter(rule: Rule, cfg: Config): (n: nat)
    ensures 1 <= n
  {
    match rule
    case OverallDegraded => Max(1, cfg.degradedGrace / Max(1, cfg.statusInterval))
    case AlertOutboxBacklog => Max(1, cfg.outboxGrace / Max(1, cfg.statusInterval))
    case ContainerUnhealthy => 3
    case ContainerDown => 1
    case RestartStorm => 1
    case PushStale => 1
    case _ => 2
  }

  function PushAge(obs: Observation, now: int): Option<nat> {
    if obs.push.receivedAt == 0 then None else Some(Max(0, now - obs.push.receivedAt))
  }

  function Report(rule: Rule, severity: Severity): map<Rule, Finding> {
    map[rule := Finding(rule, severity, Other)]
  }

  function ReportIf(condition: bool, rule: Rule, severity: Severity): map<Rule, Finding> {
    if condition then Report(rule, severity) else map[]
  }

  function EvaluateContainer(probe: Probe): map<Rule, Finding> {
    if !probe.found || !probe.running then Report(ContainerDown, Crit)
    else ReportIf(probe.unhealthy, ContainerUnhealthy, Warn)
  }

  const NO_CONTROLLER := Controller(false, false, OtherPhase, None, 0, 0, None, None)

  function ControllerOf(status: Status): Controller {
    if status.controller.Some? then status.controller.value else NO_CONTROLLER
  }

  predicate TransitionExpected(c: Controller, now: int) {
    c.phase.Transit?
    && c.deadline.Some?
    && now <= c.deadline.value
  }

  predicate Fresh(c: Controller, now: int) {
    now - c.lastProbeAt <= 90 || TransitionExpected(c, now)
  }

  /** The controller is handling the MAX link, so its own warnings are expected. */
  predicate Managed(c: Controller, now: int) {
    Fresh(c, now) && c.auto
    && (c.ready || (c.phase.AwaitingThreshold? && now < c.waitUntil) || TransitionExpected(c, now))
  }

  predicate Overdue(c: Controller, now: int) {
    c.deadline.Some? && now > c.deadline.value
  }

  /** An issue that counts even while the controller manages the MAX link. */
  predicate Counts(s: Subsystem, managed: bool) {
    s.issue.Some?
    && !(managed && s.maxLink && !s.issue.value.requiresReauth)
  }

  function IssueFinding(issue: Issue): Finding {
    Finding(SubsystemIssue,
            if issue.requiresReauth || issue.critical then Crit else Warn,
            if issue.requiresReauth then Reauth else if issue.egressUnavailable then Egress else MaxLink)
  }

  /** The first critical finding among the subsystems, or else the first one. */
  function Worst(subsystems: seq<Subsystem>, managed: bool): Option<Finding> {
    if subsystems == [] then None
    else
      var worst, last := Worst(subsystems[..|subsystems| - 1], managed), subsystems[|subsystems| - 1];
      if !Counts(last, managed) then worst
      else
        var candidate := IssueFinding(last.issue.value);
        if worst.None? || (worst.value.severity != Crit && candidate.severity == Crit) then Some(candidate) else worst
  }

  function SubsystemFinding(status: Status, now: int): Option<Finding> {
    var c := ControllerOf(status);
    if status.controller.Some? && (!Fresh(c, now) || Overdue(c, now)) then Some(Finding(SubsystemIssue, Warn, Egress))
    else Worst(status.subsystems, Managed(c, now))
  }

  predicate OtherIssue(status: Status) {
    exists s :: s in status.subsystems && s.issue.Some? && !s.maxLink
  }

  predicate Stale(oldest: int, cfg: Config, now: int) {
    oldest != 0 && now - oldest > cfg.queueMaxAge
  }

  predicate StaleQueue(status: Status, cfg: Config, now: int) {
    exists oldest :: oldest in status.oldestQueued && Stale(oldest, cfg, now)
  }

  predicate UnexpectedEgress(status: Status, cfg: Config, now: int) {
    var c := ControllerOf(status);
    && status.activeEgress.Some? && cfg.expectedEgress.Some?
    && status.activeEgress != cfg.expectedEgress
    && !(Managed(c, now) && c.primary == cfg.expectedEgress && status.activeEgress == c.fallback)
  }

  function EvaluateStatus(status: Status, cfg: Config, now: int): map<Rule, Finding> {
    var subsystem := SubsystemFinding(status, now);
    ReportIf(status.degraded && (!Managed(ControllerOf(status), now) || OtherIssue(status)), OverallDegraded, Warn)
    + (if subsystem.Some? then map[SubsystemIssue := subsystem.value] else map[])
    + ReportIf(status.outbox > 0, AlertOutboxBacklog, Warn)
    + ReportIf(StaleQueue(status, cfg, now), QueueBacklog, Warn)
    + ReportIf(UnexpectedEgress(status, cfg, now), EgressModeUnexpected, Warn)
  }

  /** A broken SSH probe is bridged by a recent push that carries an undamaged probe. */
  predicate PushUsable(obs: Observation, cfg: Config, now: int) {
    && PushAge(obs, now).Some?
    && PushAge(obs, now).value <= cfg.pushMaxAge
    && obs.push.payload.Some? && !obs.push.payload.value.failed
  }

  function PushFindings(obs: Observation, cfg: Config, now: int): map<Rule, Finding> {
    ReportIf(cfg.pushSecret && (PushAge(obs, now).None? || PushAge(obs, now).value > cfg.pushMaxAge), PushStale, Crit)
  }

  function PushSkipped(cfg: Config): set<Rule> {
    if cfg.pushSecret then {} else {PushStale}
  }

  /** What the container rules have to go by, if anything: the SSH probe or the pushed one. */
  function UsableProbe(obs: Observation, cfg: Config, now: int): Option<Probe> {
    if !obs.reachable then None
    else if obs.sshOk then Some(obs.probe)
    else if PushUsable(obs, cfg, now) then obs.push.payload
    else None
  }

  predicate Down(probe: Probe) {
    !probe.found || !probe.running
  }

  /** The restart count an evaluation takes note of. */
  function RestartsSeen(obs: Observation, cfg: Config, now: int): Option<int> {
    var probe := UsableProbe(obs, cfg, now);
    if probe.Some? && !Down(probe.value) then probe.value.restartCount else None
  }

  predicate BaselineExpired(baseline: Option<Baseline>, cfg: Config, now: int) {
    baseline.None? || baseline.value.ts == 0 || now - baseline.value.ts > cfg.restartWindow
  }

  predicate Storming(baseline: Option<Baseline>, obs: Observation, cfg: Config, now: int) {
    var seen := RestartsSeen(obs, cfg, now);
    seen.Some?
    && !BaselineExpired(baseline, cfg, now)
    && seen.value - baseline.value.count >= cfg.restartDelta
  }

  function NextBaseline(baseline: Option<Baseline>, obs: Observation, cfg: Config, now: int): Option<Baseline> {
    var seen := RestartsSeen(obs, cfg, now);
    if seen.Some? && BaselineExpired(baseline, cfg, now) then Some(Baseline(now, seen.value)) else baseline
  }

  function StatusEvaluation(probe: Probe, obs: Observation, cfg: Config, now: int): Evaluation {
    if Down(probe) then Evaluation(map[], {ContainerUnhealthy, HeartbeatStale, StatusApiUnreachable} + STATUS_RULES)
    else
      match probe.status
      case Some(status) => Evaluation(EvaluateStatus(status, cfg, now), {})
      case None =>
        if obs.statusRequested then Evaluation(Report(StatusApiUnreachable, Warn), STATUS_RULES)
        else Evaluation(map[], STATUS_RULES + {StatusApiUnreachable})
  }

  predicate HeartbeatLate(probe: Probe, cfg: Config) {
    !probe.heartbeatPresent || probe.heartbeatAge.None? || probe.heartbeatAge.value > cfg.heartbeatMaxAge
  }

  function ProbeEvaluation(
    probe: Probe, baseline: Option<Baseline>, obs: Observation, cfg: Config, now: int): Evaluation
  {
    var status := StatusEvaluation(probe, obs, cfg, now);
    Evaluation(
      EvaluateContainer(probe)
      + ReportIf(!Down(probe) && HeartbeatLate(probe, cfg), HeartbeatStale, Crit)
      + ReportIf(Storming(baseline, obs, cfg, now), RestartStorm, Warn)
      + ReportIf(probe.freePercent.Some? && probe.freePercent.value < cfg.diskMinFree, DiskLow, Warn)
      + status.findings,
      status.skipped)
  }

  /** Which rules fire right now, and which have no data: a failed layer silences those that depend on it. */
  function Evaluate(obs: Observation, baseline: Option<Baseline>, cfg: Config, now: int): Evaluation {
    var push, pushSkipped := PushFindings(obs, cfg, now), PushSkipped(cfg);
    if !obs.reachable then
      Evaluation(push + Report(HostUnreachable, Crit), pushSkipped + HOST_RULES + STATUS_RULES)
    else
      var ssh := if obs.sshOk then map[]
                 else Report(SshProbeFailed, if PushUsable(obs, cfg, now) then Warn else Crit);
      match UsableProbe(obs, cfg, now)
      case None => Evaluation(push + ssh, pushSkipped + (HOST_RULES - {SshProbeFailed}) + STATUS_RULES)
      case Some(probe) =>
        var rest := ProbeEvaluation(probe, baseline, obs, cfg, now);
        Evaluation(push + ssh + rest.findings, pushSkipped + rest.skipped)
  }

  // --- decisions ---

  datatype Decided = Decided(state: State, decision: Decision)

  function Raise(s: State, rule: Rule, now: int): State {
    s.(alerting := s.alerting + {rule}, started := if rule in s.started then s.started else s.started[rule := now])
  }

  function Lower(s: State, rule: Rule): State {
    s.(alerting := s.alerting - {rule}, started := s.started - {rule})
  }

  function Counted(s: State, rule: Rule): State {
    s.(fails := s.fails[rule := FailCount(s, rule) + 1])
  }

  function Cleared(s: State, rule: Rule): State {
    s.(fails := s.fails - {rule})
  }

  function Lasted(s: State, rule: Rule, now: int): Recovery {
    Recovery(rule, if StartedAt(s, rule) != 0 then Max(0, now - StartedAt(s, rule)) else 0)
  }

  function DecideRule(e: Evaluation, cfg: Config, now: int, d: Decided, rule: Rule): Decided {
    var s := d.state;
    if rule in e.skipped then d
    else if rule in e.findings then
      if FailCount(s, rule) + 1 >= FailAfter(rule, cfg) then
        Decided(Raise(Counted(s, rule), rule, now), d.decision.(alerts := d.decision.alerts + [e.findings[rule]]))
      else d.(state := Counted(s, rule))
    else if rule in s.alerting then
      Decided(Lower(Cleared(s, rule), rule), d.decision.(recoveries := d.decision.recoveries + [Lasted(s, rule, now)]))
    else d.(state := Cleared(s, rule))
  }

  function DecideRules(e: Evaluation, cfg: Config, now: int, s: State, rules: seq<Rule>): Decided {
    if rules == [] then Decided(s, Decision([], []))
    else DecideRule(e, cfg, now, DecideRules(e, cfg, now, s, rules[..|rules| - 1]), rules[|rules| - 1])
  }

  /** Hysteresis: alerts after enough failures in a row, one recovery when an alerted rule passes again. */
  function Decide(e: Evaluation, cfg: Config, now: int, s: State): Decided {
    DecideRules(e, cfg, now, s, KNOWN)
  }

  // --- dispatch ---

  /** The network: whether the n-th message gets through. */
  type Network = nat -> bool

  /** The state after sending, the number of messages tried so far, and what was delivered when. */
  datatype Dispatched = Dispatched(state: State, tried: nat, sent: seq<(Key, int)>)

  function Send(net: Network, now: int, d: Dispatched, key: Key): Dispatched {
    if net(d.tried) then
      Dispatched(d.state.(lastSent := d.state.lastSent[key := now]), d.tried + 1, d.sent + [(key, now)])
    else d.(tried := d.tried + 1)
  }

  predicate RecoveryDue(cfg: Config, now: int, s: State, rule: Rule) {
    now - LastSentAt(s, RecoveryKey(rule)) >= Max(30, cfg.pollInterval)
  }

  predicate AlertDue(cfg: Config, now: int, s: State, rule: Rule) {
    LastSentAt(s, AlertKey(rule)) == 0 || now - LastSentAt(s, AlertKey(rule)) >= cfg.dedupTtl
  }

  function DispatchRecoveries(cfg: Config, net: Network, now: int, d: Dispatched, recoveries: seq<Recovery>): Dispatched {
    if recoveries == [] then d
    else
      var before := DispatchRecoveries(cfg, net, now, d, recoveries[..|recoveries| - 1]);
      var rule := recoveries[|recoveries| - 1].rule;
      if RecoveryDue(cfg, now, before.state, rule) then Send(net, now, before, RecoveryKey(rule)) else before
  }

  function DispatchAlerts(cfg: Config, net: Network, now: int, d: Dispatched, alerts: seq<Finding>): Dispatched {
    if alerts == [] then d
    else
      var before := DispatchAlerts(cfg, net, now, d, alerts[..|alerts| - 1]);
      var rule := alerts[|alerts| - 1].rule;
      if AlertDue(cfg, now, before.state, rule) then Send(net, now, before, AlertKey(rule)) else before
  }

  function Dispatch(cfg: Config, net: Network, now: int, d: Dispatched, decision: Decision): Dispatched {
    DispatchAlerts(cfg, net, now, DispatchRecoveries(cfg, net, now, d, decision.recoveries), decision.alerts)
  }

  // --- whole runs ---

  datatype Round = Round(obs: Observation, now: int)

  /** What one round concluded. */
  datatype Entry = Entry(evaluation: Evaluation, decision: Decision, now: int)

  datatype History = History(state: State, tried: nat, sent: seq<(Key, int)>, entries: seq<Entry>)

  /** One `run_once`: evaluate, decide, dispatch. */
  function RunOnce(cfg: Config, net: Network, h: History, round: Round): History {
    var evaluation := Evaluate(round.obs, h.state.baseline, cfg, round.now);
    var based := h.state.(baseline := NextBaseline(h.state.baseline, round.obs, cfg, round.now));
    var decided := Decide(evaluation, cfg, round.now, based);
    var dispatched := Dispatch(cfg, net, round.now, Dispatched(decided.state, h.tried, h.sent), decided.decision);
    History(dispatched.state, dispatched.tried, dispatched.sent,
            h.entries + [Entry(evaluation, decided.decision, round.now)])
  }

  function Run(cfg: Config, net: Network, rounds: seq<Round>): History {
    if rounds == [] then History(NEW_STATE, 0, [], [])
    else RunOnce(cfg, net, Run(cfg, net, rounds[..|rounds| - 1]), rounds[|rounds| - 1])
  }
}
