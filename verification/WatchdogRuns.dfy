/**
 The watchdog over whole runs of rounds with a fixed configuration: hysteresis counts streaks, and each
 alert episode recovers once.
 */
module WatchdogRuns {
  import opened Wrappers
  import opened WatchdogModel
  import opened WatchdogRules

  predicate Skips(en: Entry, r: Rule) {
    r in en.evaluation.skipped
  }

  predicate Fires(en: Entry, r: Rule) {
    !Skips(en, r) && r in en.evaluation.findings
  }

  /** In how many of the latest rounds in a row the rule fired, rounds without data left out. */
  function Streak(entries: seq<Entry>, r: Rule): nat {
    if entries == [] then 0
    else
      var init, last := entries[..|entries| - 1], entries[|entries| - 1];
      if Skips(last, r) then Streak(init, r) else if Fires(last, r) then Streak(init, r) + 1 else 0
  }

  // --- one round, seen from one rule ---

  function NextView(e: Evaluation, cfg: Config, now: int, v: RuleView, r: Rule): RuleView {
    if r in e.skipped then v
    else if r in e.findings then
      if v.count + 1 >= FailAfter(r, cfg) then
        RuleView(v.count + 1, true, Some(if v.started.Some? then v.started.value else now))
      else v.(count := v.count + 1)
    else if v.alerting then RuleView(0, false, None)
    else v.(count := 0)
  }

  function NextAlerts(e: Evaluation, cfg: Config, v: RuleView, r: Rule): seq<Finding> {
    if r !in e.skipped && r in e.findings && v.count + 1 >= FailAfter(r, cfg) then [e.findings[r]] else []
  }

  function Duration(v: RuleView, now: int): int {
    if v.started.Some? && v.started.value != 0 then Max(0, now - v.started.value) else 0
  }

  function NextRecoveries(e: Evaluation, now: int, v: RuleView, r: Rule): seq<Recovery> {
    if r !in e.skipped && r !in e.findings && v.alerting then [Recovery(r, Duration(v, now))] else []
  }

  lemma DecideRuleOwn(e: Evaluation, cfg: Config, now: int, d: Decided, r: Rule)
    requires r in e.findings ==> e.findings[r].rule == r
    ensures var after := DecideRule(e, cfg, now, d, r);
            var v := ViewOf(d.state, r);
            && ViewOf(after.state, r) == NextView(e, cfg, now, v, r)
            && AlertsOf(after.decision.alerts, r) == AlertsOf(d.decision.alerts, r) + NextAlerts(e, cfg, v, r)
            && RecoveriesOf(after.decision.recoveries, r)
               == RecoveriesOf(d.decision.recoveries, r) + NextRecoveries(e, now, v, r)
  {
    hide FailAfter, AlertsOf, RecoveriesOf;
    if r in e.findings {
      AlertsOfAppended(d.decision.alerts, e.findings[r], r);
    }
    RecoveriesOfAppended(d.decision.recoveries, Lasted(d.state, r, now), r);
  }

  lemma {:induction false} DecideRulesView(e: Evaluation, cfg: Config, now: int, s: State, rules: seq<Rule>, r: Rule)
    requires r in rules && forall i, j :: 0 <= i < j < |rules| ==> rules[i] != rules[j]
    requires forall q :: q in e.findings ==> e.findings[q].rule == q
    ensures var d := DecideRules(e, cfg, now, s, rules);
            var v := ViewOf(s, r);
            && ViewOf(d.state, r) == NextView(e, cfg, now, v, r)
            && AlertsOf(d.decision.alerts, r) == NextAlerts(e, cfg, v, r)
            && RecoveriesOf(d.decision.recoveries, r) == NextRecoveries(e, now, v, r)
  {
    hide DecideRule, ViewOf, NextView, NextAlerts, NextRecoveries, AlertsOf, RecoveriesOf;
    var init, last := rules[..|rules| - 1], rules[|rules| - 1];
    var before := DecideRules(e, cfg, now, s, init);
    if last == r {
      SkippedUntouched(e, cfg, now, s, init, r);
      DecideRuleOwn(e, cfg, now, before, r);
    } else {
      DecideRulesView(e, cfg, now, s, init, r);
      DecideRuleOther(e, cfg, now, before, last, r);
    }
  }

  function Rank(r: Rule): (i: nat)
    ensures i < |KNOWN| && KNOWN[i] == r
  {
    match r
    case AlertOutboxBacklog => 0 case ContainerDown => 1 case ContainerUnhealthy => 2 case DiskLow => 3
    case EgressModeUnexpected => 4 case HeartbeatStale => 5 case HostUnreachable => 6 case OverallDegraded => 7
    case PushStale => 8 case QueueBacklog => 9 case RestartStorm => 10 case SshProbeFailed => 11
    case StatusApiUnreachable => 12 case SubsystemIssue => 13
  }

  lemma KnownIsComplete(r: Rule)
    ensures r in KNOWN && forall i, j :: 0 <= i < j < |KNOWN| ==> KNOWN[i] != KNOWN[j]
  {
    assert KNOWN[Rank(r)] == r;
    assert forall i :: 0 <= i < |KNOWN| ==> Rank(KNOWN[i]) == i;
  }

  lemma {:induction false} RecoveriesOnlySend(
    cfg: Config, net: Network, now: int, d: Dispatched, recoveries: seq<Recovery>)
    ensures var after := DispatchRecoveries(cfg, net, now, d, recoveries);
            after.state == d.state.(lastSent := after.state.lastSent)
  {
    if recoveries != [] {
      RecoveriesOnlySend(cfg, net, now, d, recoveries[..|recoveries| - 1]);
    }
  }

  lemma {:induction false} AlertsOnlySend(cfg: Config, net: Network, now: int, d: Dispatched, alerts: seq<Finding>)
    ensures var after := DispatchAlerts(cfg, net, now, d, alerts);
            after.state == d.state.(lastSent := after.state.lastSent)
  {
    if alerts != [] {
      AlertsOnlySend(cfg, net, now, d, alerts[..|alerts| - 1]);
    }
  }

  lemma {:induction false} DecideKeepsRest(e: Evaluation, cfg: Config, now: int, s: State, rules: seq<Rule>)
    ensures var d := DecideRules(e, cfg, now, s, rules);
            d.state.lastSent == s.lastSent
            && d.state.baseline == s.baseline
  {
    hide FailAfter;
    if rules != [] {
      DecideKeepsRest(e, cfg, now, s, rules[..|rules| - 1]);
    }
  }

  /** One round as one rule sees it. */
  lemma RoundView(cfg: Config, net: Network, h: History, round: Round, r: Rule)
    ensures var after := RunOnce(cfg, net, h, round);
            var e := Evaluate(round.obs, h.state.baseline, cfg, round.now);
            var v := ViewOf(h.state, r);
            && |after.entries| == |h.entries| + 1
            && after.entries[..|h.entries|] == h.entries
            && var en := after.entries[|h.entries|];
            && en.evaluation == e && en.now == round.now
            && ViewOf(after.state, r) == NextView(e, cfg, round.now, v, r)
            && AlertsOf(en.decision.alerts, r) == NextAlerts(e, cfg, v, r)
            && RecoveriesOf(en.decision.recoveries, r) == NextRecoveries(e, round.now, v, r)
  {
    hide Evaluate, NextBaseline, DecideRules, DispatchAlerts, DispatchRecoveries, NextView, NextAlerts, NextRecoveries,
      AlertsOf, RecoveriesOf;
    var e := Evaluate(round.obs, h.state.baseline, cfg, round.now);
    var based := h.state.(baseline := NextBaseline(h.state.baseline, round.obs, cfg, round.now));
    FindingsAndSkippedDisjoint(round.obs, h.state.baseline, cfg, round.now);
    KnownIsComplete(r);
    DecideRulesView(e, cfg, round.now, based, KNOWN, r);
    var decided := Decide(e, cfg, round.now, based);
    var d := Dispatched(decided.state, h.tried, h.sent);
    RecoveriesOnlySend(cfg, net, round.now, d, decided.decision.recoveries);
    AlertsOnlySend(cfg, net, round.now, DispatchRecoveries(cfg, net, round.now, d, decided.decision.recoveries),
                   decided.decision.alerts);
  }

  // --- hysteresis ---

  /** The fail count is the streak, and a rule is alerting exactly when its streak has reached the threshold. */
  lemma {:induction false} CountIsStreak(cfg: Config, net: Network, rounds: seq<Round>, r: Rule)
    ensures var h := Run(cfg, net, rounds);
            && |h.entries| == |rounds|
            && FailCount(h.state, r) == Streak(h.entries, r)
            && (r in h.state.alerting <==> Streak(h.entries, r) >= FailAfter(r, cfg))
            && (r in h.state.started <==> r in h.state.alerting)
  {
    hide RunOnce, FailAfter;
    if rounds != [] {
      var init, round := rounds[..|rounds| - 1], rounds[|rounds| - 1];
      CountIsStreak(cfg, net, init, r);
      RoundView(cfg, net, Run(cfg, net, init), round, r);
    }
  }

  /** Entry `k`, at `start`, is where the streak of an alert episode reached the threshold; it has not ended since. */
  ghost predicate EpisodeSince(cfg: Config, entries: seq<Entry>, k: nat, r: Rule, start: int) {
    && k < |entries|
    && Opens(cfg, entries, k, r)
    && entries[k].now == start
    && (forall j :: k < j < |entries| ==> Fires(entries[j], r) || Skips(entries[j], r))
  }

  predicate Opens(cfg: Config, entries: seq<Entry>, k: nat, r: Rule)
    requires k < |entries|
  {
    Fires(entries[k], r) && Streak(entries[..k], r) + 1 == FailAfter(r, cfg)
  }

  lemma EpisodeGoesOn(cfg: Config, entries: seq<Entry>, en: Entry, k: nat, r: Rule, start: int)
    requires EpisodeSince(cfg, entries, k, r, start) && (Fires(en, r) || Skips(en, r))
    ensures EpisodeSince(cfg, entries + [en], k, r, start)
  {
    assert (entries + [en])[..k] == entries[..k];
  }

  lemma EpisodeOpens(cfg: Config, entries: seq<Entry>, en: Entry, r: Rule)
    requires Fires(en, r) && Streak(entries, r) + 1 == FailAfter(r, cfg)
    ensures EpisodeSince(cfg, entries + [en], |entries|, r, en.now)
  {
    assert (entries + [en])[..|entries|] == entries;
  }

  /** One round carries the start of a running episode on, or records the start of a new one. */
  lemma StartCarriesOn(cfg: Config, entries: seq<Entry>, en: Entry, v: RuleView, r: Rule)
    requires v.count == Streak(entries, r) && (v.alerting <==> v.count >= FailAfter(r, cfg))
    requires v.started.Some? <==> v.alerting
    requires v.alerting ==> exists k: nat :: EpisodeSince(cfg, entries, k, r, v.started.value)
    ensures var next := NextView(en.evaluation, cfg, en.now, v, r);
            next.alerting ==>
              next.started.Some? && exists k: nat :: EpisodeSince(cfg, entries + [en], k, r, next.started.value)
  {
    hide FailAfter, Streak, EpisodeSince;
    var next := NextView(en.evaluation, cfg, en.now, v, r);
    if next.alerting {
      if v.alerting {
        var k: nat :| EpisodeSince(cfg, entries, k, r, v.started.value);
        EpisodeGoesOn(cfg, entries, en, k, r, v.started.value);
      } else {
        EpisodeOpens(cfg, entries, en, r);
      }
    }
  }

  /** The recorded start of an alerting rule is the time of the alert that opened its episode. */
  ghost predicate Dated(cfg: Config, h: History, r: Rule) {
    r in h.state.alerting ==> exists k: nat :: EpisodeSince(cfg, h.entries, k, r, StartedAt(h.state, r))
  }

  lemma RoundDated(cfg: Config, net: Network, before: History, round: Round, r: Rule)
    requires Dated(cfg, before, r)
    requires FailCount(before.state, r) == Streak(before.entries, r)
    requires r in before.state.alerting <==> Streak(before.entries, r) >= FailAfter(r, cfg)
    requires r in before.state.started <==> r in before.state.alerting
    ensures Dated(cfg, RunOnce(cfg, net, before, round), r)
  {
    hide RunOnce, FailAfter, Streak, EpisodeSince, NextView;
    RoundView(cfg, net, before, round, r);
    var after := RunOnce(cfg, net, before, round);
    var en := after.entries[|before.entries|];
    assert after.entries == before.entries + [en];
    StartCarriesOn(cfg, before.entries, en, ViewOf(before.state, r), r);
    if r in after.state.alerting {
      var next := NextView(en.evaluation, cfg, en.now, ViewOf(before.state, r), r);
      assert ViewOf(after.state, r) == next;
      var k: nat :| EpisodeSince(cfg, before.entries + [en], k, r, next.started.value);
      assert EpisodeSince(cfg, after.entries, k, r, StartedAt(after.state, r));
    }
  }

  /** While a rule is alerting, its recorded start is the time of the alert that opened the episode. */
  lemma {:induction false} StartIsEpisodeStart(cfg: Config, net: Network, rounds: seq<Round>, r: Rule)
    ensures Dated(cfg, Run(cfg, net, rounds), r)
  {
    hide RunOnce, FailAfter, Streak, EpisodeSince;
    if rounds != [] {
      var init := rounds[..|rounds| - 1];
      CountIsStreak(cfg, net, init, r);
      StartIsEpisodeStart(cfg, net, init, r);
      RoundDated(cfg, net, Run(cfg, net, init), rounds[|rounds| - 1], r);
    }
  }

  /** What a round decides about a rule: an alert for a streak over the threshold, a recovery for a broken one. */
  lemma DecisionsFollowStreaks(cfg: Config, net: Network, init: seq<Round>, round: Round, r: Rule)
    ensures var before, after := Run(cfg, net, init), RunOnce(cfg, net, Run(cfg, net, init), round);
            && |after.entries| == |before.entries| + 1
            && var en := after.entries[|before.entries|];
            && AlertsOf(en.decision.alerts, r)
               == (if Fires(en, r) && Streak(before.entries, r) + 1 >= FailAfter(r, cfg) then [en.evaluation.findings[r]] else [])
            && (if !Fires(en, r) && !Skips(en, r) && Streak(before.entries, r) >= FailAfter(r, cfg) then
                  exists k: nat, start :: EpisodeSince(cfg, before.entries, k, r, start)
                    && RecoveriesOf(en.decision.recoveries, r)
                       == [Recovery(r, if start != 0 then Max(0, en.now - start) else 0)]
                else RecoveriesOf(en.decision.recoveries, r) == [])
  {
    hide Run, RunOnce, FailAfter, AlertsOf, RecoveriesOf, Streak, EpisodeSince;
    CountIsStreak(cfg, net, init, r);
    RoundView(cfg, net, Run(cfg, net, init), round, r);
    if r in Run(cfg, net, init).state.alerting {
      StartIsEpisodeStart(cfg, net, init, r);
    }
  }

  /** How many alert episodes have opened, and how many recoveries were decided. */
  function Opened(cfg: Config, entries: seq<Entry>, r: Rule): nat {
    if entries == [] then 0
    else
      var init := entries[..|entries| - 1];
      Opened(cfg, init, r) + if Opens(cfg, entries, |init|, r) then 1 else 0
  }

  function Recovered(entries: seq<Entry>, r: Rule): nat {
    if entries == [] then 0
    else Recovered(entries[..|entries| - 1], r) + |RecoveriesOf(entries[|entries| - 1].decision.recoveries, r)|
  }

  /** Episodes and recoveries balance: every episode has recovered exactly once, or is the one still open. */
  lemma {:induction false} OneRecoveryPerEpisode(cfg: Config, net: Network, rounds: seq<Round>, r: Rule)
    ensures var h := Run(cfg, net, rounds);
            Opened(cfg, h.entries, r) == Recovered(h.entries, r) + if r in h.state.alerting then 1 else 0
  {
    hide RunOnce, FailAfter, RecoveriesOf;
    if rounds != [] {
      var init, round := rounds[..|rounds| - 1], rounds[|rounds| - 1];
      OneRecoveryPerEpisode(cfg, net, init, r);
      CountIsStreak(cfg, net, init, r);
      RoundView(cfg, net, Run(cfg, net, init), round, r);
    }
  }
}
