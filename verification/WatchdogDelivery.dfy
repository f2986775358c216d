/**
 What reaches the operator over a whole run: repeated alerts of a rule keep the deduplication distance,
 and every restart storm is witnessed by an earlier observation.
 */
module WatchdogDelivery {
  import opened Wrappers
  import opened WatchdogModel
  import Rates
  import WatchdogRules
  import WatchdogRuns

  /** When messages with this key were delivered. */
  function Times(sent: seq<(Key, int)>, of: Key): seq<int> {
    if sent == [] then []
    else
      var (key, t) := sent[|sent| - 1];
      Times(sent[..|sent| - 1], of) + if key == of then [t] else []
  }

  /** The state remembers the last delivery of each alert, and deliveries are a TTL apart. */
  ghost predicate Deduplicated(cfg: Config, s: State, sent: seq<(Key, int)>, r: Rule) {
    var times := Times(sent, AlertKey(r));
    && Rates.Spaced(times, cfg.dedupTtl)
    && (forall t :: t in times ==> t != 0)
    && LastSentAt(s, AlertKey(r)) == if times == [] then 0 else times[|times| - 1]
  }

  lemma SendKeeps(cfg: Config, net: Network, now: int, d: Dispatched, key: Key, r: Rule)
    requires 0 <= cfg.dedupTtl && now != 0 && Deduplicated(cfg, d.state, d.sent, r)
    requires key == AlertKey(r) ==> AlertDue(cfg, now, d.state, r)
    ensures var after := Send(net, now, d, key); Deduplicated(cfg, after.state, after.sent, r)
  {
    hide AlertDue, Times;
    TimesAppended(d.sent, key, now, AlertKey(r));
    if key == AlertKey(r) {
      DueMeansSpaced(cfg, now, d.state, d.sent, r);
    }
  }

  lemma TimesAppended(sent: seq<(Key, int)>, key: Key, t: int, of: Key)
    ensures Times(sent + [(key, t)], of) == Times(sent, of) + if key == of then [t] else []
  {
    assert (sent + [(key, t)])[..|sent|] == sent;
  }

  lemma DueMeansSpaced(cfg: Config, now: int, s: State, sent: seq<(Key, int)>, r: Rule)
    requires 0 <= cfg.dedupTtl && Deduplicated(cfg, s, sent, r) && AlertDue(cfg, now, s, r)
    ensures Rates.Spaced(Times(sent, AlertKey(r)) + [now], cfg.dedupTtl)
  {
    hide Times;
    var times := Times(sent, AlertKey(r));
    if times != [] {
      assert times[|times| - 1] in times;
    }
    Rates.SpacedAppend(times, now, cfg.dedupTtl);
  }

  lemma {:induction false} RecoveriesKeep(
    cfg: Config, net: Network, now: int, d: Dispatched, recoveries: seq<Recovery>, r: Rule)
    requires 0 <= cfg.dedupTtl && now != 0 && Deduplicated(cfg, d.state, d.sent, r)
    ensures var after := DispatchRecoveries(cfg, net, now, d, recoveries); Deduplicated(cfg, after.state, after.sent, r)
  {
    hide Send, Deduplicated;
    if recoveries != [] {
      var init := recoveries[..|recoveries| - 1];
      RecoveriesKeep(cfg, net, now, d, init, r);
      var before := DispatchRecoveries(cfg, net, now, d, init);
      SendKeeps(cfg, net, now, before, RecoveryKey(recoveries[|recoveries| - 1].rule), r);
    }
  }

  lemma {:induction false} AlertsKeep(
    cfg: Config, net: Network, now: int, d: Dispatched, alerts: seq<Finding>, r: Rule)
    requires 0 <= cfg.dedupTtl && now != 0 && Deduplicated(cfg, d.state, d.sent, r)
    ensures var after := DispatchAlerts(cfg, net, now, d, alerts); Deduplicated(cfg, after.state, after.sent, r)
  {
    hide Send, Deduplicated;
    if alerts != [] {
      var init := alerts[..|alerts| - 1];
      AlertsKeep(cfg, net, now, d, init, r);
      var before := DispatchAlerts(cfg, net, now, d, init);
      var rule := alerts[|alerts| - 1].rule;
      if AlertDue(cfg, now, before.state, rule) {
        SendKeeps(cfg, net, now, before, AlertKey(rule), r);
      }
    }
  }

  /** The round times are real ones: the state file takes a delivery at time 0 for none at all. */
  ghost predicate Dated(rounds: seq<Round>) {
    forall round :: round in rounds ==> round.now != 0
  }

  lemma {:induction false} RunDeduplicated(cfg: Config, net: Network, rounds: seq<Round>, r: Rule)
    requires 0 <= cfg.dedupTtl && Dated(rounds)
    ensures var h := Run(cfg, net, rounds); Deduplicated(cfg, h.state, h.sent, r)
  {
    hide Evaluate, NextBaseline, DecideRules, DispatchAlerts, DispatchRecoveries;
    if rounds != [] {
      var init, round := rounds[..|rounds| - 1], rounds[|rounds| - 1];
      RunDeduplicated(cfg, net, init, r);
      var h := Run(cfg, net, init);
      var e := Evaluate(round.obs, h.state.baseline, cfg, round.now);
      var based := h.state.(baseline := NextBaseline(h.state.baseline, round.obs, cfg, round.now));
      WatchdogRuns.DecideKeepsRest(e, cfg, round.now, based, KNOWN);
      var decided := Decide(e, cfg, round.now, based);
      var d := Dispatched(decided.state, h.tried, h.sent);
      RecoveriesKeep(cfg, net, round.now, d, decided.decision.recoveries, r);
      AlertsKeep(cfg, net, round.now, DispatchRecoveries(cfg, net, round.now, d, decided.decision.recoveries),
                 decided.decision.alerts, r);
    }
  }

  /** In any span there are at most `span / ttl + 1` delivered alerts for one rule. */
  lemma AlertRate(cfg: Config, net: Network, rounds: seq<Round>, r: Rule, lo: int, span: nat)
    requires 0 < cfg.dedupTtl && Dated(rounds)
    ensures var times := Times(Run(cfg, net, rounds).sent, AlertKey(r));
            && (forall i, j :: 0 <= i < j < |times| ==> times[j] - times[i] >= cfg.dedupTtl)
            && |Rates.Within(times, lo, lo + span)| <= span / cfg.dedupTtl + 1
  {
    hide Run;
    RunDeduplicated(cfg, net, rounds, r);
    Rates.RateBound(Times(Run(cfg, net, rounds).sent, AlertKey(r)), cfg.dedupTtl, lo, span);
  }

  /** Sending anything else leaves the record of a key alone. */
  lemma SendOther(net: Network, now: int, d: Dispatched, key: Key, of: Key)
    requires key != of
    ensures Unsent(d, Send(net, now, d, key), of)
  {
    hide Times;
    TimesAppended(d.sent, key, now, of);
  }

  /** Nothing with this key was sent in between. */
  ghost predicate Unsent(d: Dispatched, after: Dispatched, of: Key) {
    && d.tried <= after.tried
    && Times(after.sent, of) == Times(d.sent, of)
    && LastSentAt(after.state, of) == LastSentAt(d.state, of)
  }

  /** The message number `k` was one with this key. */
  ghost predicate TriedAs(net: Network, now: int, d: Dispatched, after: Dispatched, of: Key, k: nat) {
    d.tried <= k < after.tried && Times(after.sent, of) == Times(d.sent, of) + if net(k) then [now] else []
  }

  /** Some message in between was one with this key. */
  ghost predicate Tried(net: Network, now: int, d: Dispatched, after: Dispatched, of: Key) {
    exists k: nat :: TriedAs(net, now, d, after, of, k)
  }

  lemma {:induction false} RecoveriesUnsent(cfg: Config, net: Network, now: int, d: Dispatched, recoveries: seq<Recovery>, of: Key)
    requires of.RecoveryKey? ==> WatchdogRules.RecoveriesOf(recoveries, of.rule) == []
    ensures Unsent(d, DispatchRecoveries(cfg, net, now, d, recoveries), of)
  {
    hide Send, Times, RecoveryDue;
    if recoveries != [] {
      var init := recoveries[..|recoveries| - 1];
      RecoveriesUnsent(cfg, net, now, d, init, of);
      SendOther(net, now, DispatchRecoveries(cfg, net, now, d, init), RecoveryKey(recoveries[|recoveries| - 1].rule), of);
    }
  }

  lemma {:induction false} AlertsUnsent(cfg: Config, net: Network, now: int, d: Dispatched, alerts: seq<Finding>, of: Key)
    requires of.AlertKey? ==> WatchdogRules.AlertsOf(alerts, of.rule) == []
    ensures Unsent(d, DispatchAlerts(cfg, net, now, d, alerts), of)
  {
    hide Send, Times, AlertDue;
    if alerts != [] {
      var init := alerts[..|alerts| - 1];
      AlertsUnsent(cfg, net, now, d, init, of);
      SendOther(net, now, DispatchAlerts(cfg, net, now, d, init), AlertKey(alerts[|alerts| - 1].rule), of);
    }
  }

  /** Among the alerts of a round the one for `r` is tried if it is due at the start, and not otherwise. */
  lemma {:induction false} AlertsTried(cfg: Config, net: Network, now: int, d: Dispatched, alerts: seq<Finding>, r: Rule)
    requires |WatchdogRules.AlertsOf(alerts, r)| == 1
    ensures var after := DispatchAlerts(cfg, net, now, d, alerts);
            if AlertDue(cfg, now, d.state, r) then Tried(net, now, d, after, AlertKey(r)) else Unsent(d, after, AlertKey(r))
  {
    hide Send, Times, AlertDue;
    var init, last := alerts[..|alerts| - 1], alerts[|alerts| - 1].rule;
    var before := DispatchAlerts(cfg, net, now, d, init);
    var after := DispatchAlerts(cfg, net, now, d, alerts);
    if last == r {
      AlertsUnsent(cfg, net, now, d, init, AlertKey(r));
      SendTries(net, now, before, AlertKey(r));
      DueBySent(cfg, now, d.state, before.state, r);
      TriedLater(net, now, d, before, Send(net, now, before, AlertKey(r)), AlertKey(r));
    } else {
      AlertsTried(cfg, net, now, d, init, r);
      SendOther(net, now, before, AlertKey(last), AlertKey(r));
      TriedBefore(net, now, d, before, after, AlertKey(r));
    }
  }

  /** The same for recoveries. */
  lemma {:induction false} RecoveriesTried(cfg: Config, net: Network, now: int, d: Dispatched, recoveries: seq<Recovery>, r: Rule)
    requires |WatchdogRules.RecoveriesOf(recoveries, r)| == 1
    ensures var after := DispatchRecoveries(cfg, net, now, d, recoveries);
            if RecoveryDue(cfg, now, d.state, r) then Tried(net, now, d, after, RecoveryKey(r)) else Unsent(d, after, RecoveryKey(r))
  {
    hide Send, Times, RecoveryDue;
    var init, last := recoveries[..|recoveries| - 1], recoveries[|recoveries| - 1].rule;
    var before := DispatchRecoveries(cfg, net, now, d, init);
    var after := DispatchRecoveries(cfg, net, now, d, recoveries);
    if last == r {
      RecoveriesUnsent(cfg, net, now, d, init, RecoveryKey(r));
      SendTries(net, now, before, RecoveryKey(r));
      RecoveryDueBySent(cfg, now, d.state, before.state, r);
      TriedLater(net, now, d, before, Send(net, now, before, RecoveryKey(r)), RecoveryKey(r));
    } else {
      RecoveriesTried(cfg, net, now, d, init, r);
      SendOther(net, now, before, RecoveryKey(last), RecoveryKey(r));
      TriedBefore(net, now, d, before, after, RecoveryKey(r));
    }
  }

  lemma SendTries(net: Network, now: int, d: Dispatched, of: Key)
    ensures Tried(net, now, d, Send(net, now, d, of), of)
  {
    TimesAppended(d.sent, of, now, of);
    assert TriedAs(net, now, d, Send(net, now, d, of), of, d.tried);
  }

  lemma TriedLater(net: Network, now: int, d: Dispatched, middle: Dispatched, after: Dispatched, of: Key)
    requires Unsent(d, middle, of)
    ensures Tried(net, now, middle, after, of) ==> Tried(net, now, d, after, of)
    ensures Unsent(middle, after, of) ==> Unsent(d, after, of)
  {
    if k: nat :| TriedAs(net, now, middle, after, of, k) {
      assert TriedAs(net, now, d, after, of, k);
    }
  }

  lemma TriedBefore(net: Network, now: int, d: Dispatched, middle: Dispatched, after: Dispatched, of: Key)
    requires Unsent(middle, after, of)
    ensures Tried(net, now, d, middle, of) ==> Tried(net, now, d, after, of)
    ensures Unsent(d, middle, of) ==> Unsent(d, after, of)
  {
    if k: nat :| TriedAs(net, now, d, middle, of, k) {
      assert TriedAs(net, now, d, after, of, k);
    }
  }

  lemma DueBySent(cfg: Config, now: int, s: State, later: State, r: Rule)
    requires LastSentAt(later, AlertKey(r)) == LastSentAt(s, AlertKey(r))
    ensures AlertDue(cfg, now, later, r) == AlertDue(cfg, now, s, r)
  {
  }

  lemma RecoveryDueBySent(cfg: Config, now: int, s: State, later: State, r: Rule)
    requires LastSentAt(later, RecoveryKey(r)) == LastSentAt(s, RecoveryKey(r))
    ensures RecoveryDue(cfg, now, later, r) == RecoveryDue(cfg, now, s, r)
  {
  }

  ghost predicate DeliveredRecently(cfg: Config, sent: seq<(Key, int)>, r: Rule, now: int) {
    exists t :: t in Times(sent, AlertKey(r)) && now - t < cfg.dedupTtl
  }

  lemma DueIffNotRecent(cfg: Config, net: Network, rounds: seq<Round>, r: Rule, now: int)
    requires 0 <= cfg.dedupTtl && Dated(rounds)
    ensures var h := Run(cfg, net, rounds); AlertDue(cfg, now, h.state, r) <==> !DeliveredRecently(cfg, h.sent, r, now)
  {
    hide Run;
    RunDeduplicated(cfg, net, rounds, r);
    var times := Times(Run(cfg, net, rounds).sent, AlertKey(r));
    if times != [] {
      assert times[|times| - 1] in times;
    }
  }

  // --- the messages of a round ---

  /** The round seen as its three stages: what it decides, what is recovered, what is alerted. */
  ghost predicate Stages(cfg: Config, net: Network, h: History, round: Round, decided: Decided, middle: Dispatched, after: Dispatched) {
    && middle == DispatchRecoveries(cfg, net, round.now, Dispatched(decided.state, h.tried, h.sent), decided.decision.recoveries)
    && after == DispatchAlerts(cfg, net, round.now, middle, decided.decision.alerts)
    && decided.state.lastSent == h.state.lastSent
    && var next := RunOnce(cfg, net, h, round);
       && after == Dispatched(next.state, next.tried, next.sent)
       && |next.entries| == |h.entries| + 1
       && next.entries[|h.entries|].decision == decided.decision
  }

  lemma RoundStages(cfg: Config, net: Network, h: History, round: Round) returns (decided: Decided, middle: Dispatched, after: Dispatched)
    ensures Stages(cfg, net, h, round, decided, middle, after)
  {
    hide Evaluate, NextBaseline, DecideRules, DispatchAlerts, DispatchRecoveries;
    var e := Evaluate(round.obs, h.state.baseline, cfg, round.now);
    var based := h.state.(baseline := NextBaseline(h.state.baseline, round.obs, cfg, round.now));
    WatchdogRuns.DecideKeepsRest(e, cfg, round.now, based, KNOWN);
    decided := Decide(e, cfg, round.now, based);
    middle := DispatchRecoveries(cfg, net, round.now, Dispatched(decided.state, h.tried, h.sent), decided.decision.recoveries);
    after := DispatchAlerts(cfg, net, round.now, middle, decided.decision.alerts);
  }

  /**
   An alert that a round decides is held back in that round exactly when one for the same rule was delivered less than a TTL ago:
   otherwise some message of the round is that alert. A round sends no alert that it does not decide.
   */
  lemma WithheldIffDeliveredRecently(cfg: Config, net: Network, rounds: seq<Round>, round: Round, r: Rule)
    requires 0 <= cfg.dedupTtl && Dated(rounds)
    ensures var before := Run(cfg, net, rounds);
            var after := RunOnce(cfg, net, before, round);
            && |after.entries| == |before.entries| + 1
            && var was, now := Dispatched(before.state, before.tried, before.sent), Dispatched(after.state, after.tried, after.sent);
               if WatchdogRules.AlertsOf(after.entries[|before.entries|].decision.alerts, r) == []
                  || DeliveredRecently(cfg, before.sent, r, round.now) then
                 Unsent(was, now, AlertKey(r))
               else Tried(net, round.now, was, now, AlertKey(r))
  {
    hide Run, RunOnce, DispatchAlerts, DispatchRecoveries, Times, AlertDue, DeliveredRecently;
    var h := Run(cfg, net, rounds);
    DueIffNotRecent(cfg, net, rounds, r, round.now);
    WatchdogRuns.RoundView(cfg, net, h, round, r);
    var decided, middle, after := RoundStages(cfg, net, h, round);
    var d := Dispatched(decided.state, h.tried, h.sent);
    RecoveriesUnsent(cfg, net, round.now, d, decided.decision.recoveries, AlertKey(r));
    if WatchdogRules.AlertsOf(decided.decision.alerts, r) != [] {
      DueBySent(cfg, round.now, h.state, middle.state, r);
      AlertsTried(cfg, net, round.now, middle, decided.decision.alerts, r);
    } else {
      AlertsUnsent(cfg, net, round.now, middle, decided.decision.alerts, AlertKey(r));
    }
    TriedLater(net, round.now, Dispatched(h.state, h.tried, h.sent), middle, after, AlertKey(r));
  }

  /** The time the state has for the last delivery of a message is that of the last one delivered. */
  lemma {:induction false} LastSentIsLast(cfg: Config, net: Network, rounds: seq<Round>, of: Key)
    ensures var h := Run(cfg, net, rounds);
            var times := Times(h.sent, of);
            LastSentAt(h.state, of) == if times == [] then 0 else times[|times| - 1]
  {
    hide RunOnce, DispatchAlerts, DispatchRecoveries;
    if rounds != [] {
      var init, round := rounds[..|rounds| - 1], rounds[|rounds| - 1];
      LastSentIsLast(cfg, net, init, of);
      var decided, middle, after := RoundStages(cfg, net, Run(cfg, net, init), round);
      hide Times;
      var h := Run(cfg, net, init);
      RecoveriesRemember(cfg, net, round.now, Dispatched(decided.state, h.tried, h.sent), decided.decision.recoveries, of);
      AlertsRemember(cfg, net, round.now, middle, decided.decision.alerts, of);
    }
  }

  ghost predicate Remembers(d: Dispatched, of: Key) {
    var times := Times(d.sent, of);
    LastSentAt(d.state, of) == if times == [] then 0 else times[|times| - 1]
  }

  lemma SendRemembers(net: Network, now: int, d: Dispatched, key: Key, of: Key)
    requires Remembers(d, of)
    ensures Remembers(Send(net, now, d, key), of)
  {
    hide Times;
    TimesAppended(d.sent, key, now, of);
  }

  lemma {:induction false} RecoveriesRemember(cfg: Config, net: Network, now: int, d: Dispatched, recoveries: seq<Recovery>, of: Key)
    requires Remembers(d, of)
    ensures Remembers(DispatchRecoveries(cfg, net, now, d, recoveries), of)
  {
    hide Send, Remembers;
    if recoveries != [] {
      var init := recoveries[..|recoveries| - 1];
      RecoveriesRemember(cfg, net, now, d, init, of);
      SendRemembers(net, now, DispatchRecoveries(cfg, net, now, d, init), RecoveryKey(recoveries[|recoveries| - 1].rule), of);
    }
  }

  lemma {:induction false} AlertsRemember(cfg: Config, net: Network, now: int, d: Dispatched, alerts: seq<Finding>, of: Key)
    requires Remembers(d, of)
    ensures Remembers(DispatchAlerts(cfg, net, now, d, alerts), of)
  {
    hide Send, Remembers;
    if alerts != [] {
      var init := alerts[..|alerts| - 1];
      AlertsRemember(cfg, net, now, d, init, of);
      SendRemembers(net, now, DispatchAlerts(cfg, net, now, d, init), AlertKey(alerts[|alerts| - 1].rule), of);
    }
  }

  /** The last time a recovery of the rule was delivered, or 0. */
  function LastRecovery(sent: seq<(Key, int)>, r: Rule): int {
    var times := Times(sent, RecoveryKey(r));
    if times == [] then 0 else times[|times| - 1]
  }

  /**
   A recovery that a round decides is sent in that round unless one for the same rule was delivered within the last 30 seconds or
   poll interval, whichever is longer. A round sends no recovery that it does not decide.
   */
  lemma RecoverySentUnlessJustSent(cfg: Config, net: Network, rounds: seq<Round>, round: Round, r: Rule)
    ensures var before := Run(cfg, net, rounds);
            var after := RunOnce(cfg, net, before, round);
            && |after.entries| == |before.entries| + 1
            && var was, now := Dispatched(before.state, before.tried, before.sent), Dispatched(after.state, after.tried, after.sent);
               var age := round.now - LastRecovery(before.sent, r);
               if WatchdogRules.RecoveriesOf(after.entries[|before.entries|].decision.recoveries, r) == []
                  || age < 30 || age < cfg.pollInterval then
                 Unsent(was, now, RecoveryKey(r))
               else Tried(net, round.now, was, now, RecoveryKey(r))
  {
    hide Run, RunOnce, DispatchAlerts, DispatchRecoveries, Times;
    var h := Run(cfg, net, rounds);
    LastSentIsLast(cfg, net, rounds, RecoveryKey(r));
    WatchdogRuns.RoundView(cfg, net, h, round, r);
    var decided, middle, after := RoundStages(cfg, net, h, round);
    var d := Dispatched(decided.state, h.tried, h.sent);
    RecoveryDueBySent(cfg, round.now, h.state, decided.state, r);
    if WatchdogRules.RecoveriesOf(decided.decision.recoveries, r) != [] {
      RecoveriesTried(cfg, net, round.now, d, decided.decision.recoveries, r);
    } else {
      RecoveriesUnsent(cfg, net, round.now, d, decided.decision.recoveries, RecoveryKey(r));
    }
    AlertsUnsent(cfg, net, round.now, middle, decided.decision.alerts, RecoveryKey(r));
    TriedBefore(net, round.now, d, middle, after, RecoveryKey(r));
    TriedLater(net, round.now, Dispatched(h.state, h.tried, h.sent), d, after, RecoveryKey(r));
  }

  // --- restart storms ---

  /** Round `j` saw `count` restarts. */
  ghost predicate Saw(cfg: Config, rounds: seq<Round>, j: nat, ts: int, count: int) {
    j < |rounds|
    && rounds[j].now == ts
    && RestartsSeen(rounds[j].obs, cfg, ts) == Some(count)
  }

  lemma {:induction false} BaselineWasObserved(cfg: Config, net: Network, rounds: seq<Round>)
    ensures var baseline := Run(cfg, net, rounds).state.baseline;
            baseline.Some? ==> exists j: nat :: Saw(cfg, rounds, j, baseline.value.ts, baseline.value.count)
  {
    hide Evaluate, DecideRules, DispatchAlerts, DispatchRecoveries, RestartsSeen;
    if rounds != [] {
      var init, round := rounds[..|rounds| - 1], rounds[|rounds| - 1];
      BaselineWasObserved(cfg, net, init);
      var h := Run(cfg, net, init);
      RoundBaseline(cfg, net, h, round);
      var next := Run(cfg, net, rounds).state.baseline;
      if next.Some? {
        if next == h.state.baseline {
          var j: nat :| Saw(cfg, init, j, next.value.ts, next.value.count);
          assert Saw(cfg, rounds, j, next.value.ts, next.value.count);
        } else {
          assert Saw(cfg, rounds, |init|, next.value.ts, next.value.count);
        }
      }
    }
  }

  lemma RoundBaseline(cfg: Config, net: Network, h: History, round: Round)
    ensures RunOnce(cfg, net, h, round).state.baseline == NextBaseline(h.state.baseline, round.obs, cfg, round.now)
  {
    hide Evaluate, NextBaseline, DecideRules, DispatchAlerts, DispatchRecoveries;
    var e := Evaluate(round.obs, h.state.baseline, cfg, round.now);
    var based := h.state.(baseline := NextBaseline(h.state.baseline, round.obs, cfg, round.now));
    WatchdogRuns.DecideKeepsRest(e, cfg, round.now, based, KNOWN);
    var decided := Decide(e, cfg, round.now, based);
    var d := Dispatched(decided.state, h.tried, h.sent);
    WatchdogRuns.RecoveriesOnlySend(cfg, net, round.now, d, decided.decision.recoveries);
    WatchdogRuns.AlertsOnlySend(cfg, net, round.now, DispatchRecoveries(cfg, net, round.now, d, decided.decision.recoveries),
                       decided.decision.alerts);
  }

  lemma StormIsStorming(obs: Observation, baseline: Option<Baseline>, cfg: Config, now: int)
    ensures RestartStorm in Evaluate(obs, baseline, cfg, now).findings <==> Storming(baseline, obs, cfg, now)
  {
    hide EvaluateStatus, BaselineExpired, PushUsable, HeartbeatLate, PushAge;
    var probe := UsableProbe(obs, cfg, now);
    if probe.Some? && probe.value.status.Some? {
      StatusHasNoStorm(probe.value.status.value, cfg, now);
    }
  }

  lemma StatusHasNoStorm(status: Status, cfg: Config, now: int)
    ensures RestartStorm !in EvaluateStatus(status, cfg, now)
  {
    hide Managed, SubsystemFinding, StaleQueue, UnexpectedEgress, OtherIssue;
  }

  /** A storm is reported exactly on an earlier observation inside the window with enough fewer restarts. */
  lemma StormHasWitness(cfg: Config, net: Network, rounds: seq<Round>, round: Round)
    requires RestartStorm in Evaluate(round.obs, Run(cfg, net, rounds).state.baseline, cfg, round.now).findings
    ensures exists j: nat, count, ts ::
              && Saw(cfg, rounds, j, ts, count)
              && round.now - ts <= cfg.restartWindow
              && RestartsSeen(round.obs, cfg, round.now).Some?
              && RestartsSeen(round.obs, cfg, round.now).value - count >= cfg.restartDelta
  {
    hide Evaluate, Run, RestartsSeen;
    var baseline := Run(cfg, net, rounds).state.baseline;
    StormIsStorming(round.obs, baseline, cfg, round.now);
    BaselineWasObserved(cfg, net, rounds);
  }
}
