/**
 The controller as the source runs it: one object whose state dictionary is changed step by step and
 written to its file, proved to follow the policy functions of `EgressModel` exactly.
 */
module MaxEgress {
  import opened Wrappers
  import opened EgressModel

  /** Whether the process got through an interaction. */
  datatype Life = Alive | Lost {
    predicate IsFailure() {
      Lost?
    }

    function PropagateFailure(): Life {
      this
    }
  }

  function Outcome(life: Life, w: World): Step {
    if life.Alive? then Running(w) else Died(w)
  }

  class MaxEgressController {
    const cfg: Config
    const environment: Oracle

    var state: EgressState
    var file: EgressState
    var actual: Route
    var initialized: bool
    var pos: nat

    ghost var samples: seq<Sample>
    ghost var attempts: seq<Attempt>
    ghost var handed: seq<Event>
    ghost var born: nat
    ghost var lifeAccepted: seq<Event>
    ghost var lifeEmitted: seq<Event>
    ghost var arrived: Option<int>

    ghost function View(): World
      reads this
    {
      World(state, file, actual, initialized, pos, samples, attempts, handed, born, lifeAccepted, lifeEmitted, arrived)
    }

    /** `__init__`: take over the state file a previous process may have left. */
    constructor (cfg: Config, environment: Oracle, file: EgressState, pos: nat, ghost before: World)
      requires cfg.Valid() && before.disk == file && before.pos == pos
      ensures this.cfg == cfg && this.environment == environment
      ensures View() == Boot(environment, before)
    {
      this.cfg, this.environment := cfg, environment;
      this.file := file;
      this.actual, this.pos := environment(pos).route, pos + 1;
      this.samples, this.attempts, this.handed := before.samples, before.attempts, before.handed;
      this.born, this.lifeAccepted, this.lifeEmitted := |before.samples|, [], file.pending;
      this.arrived := before.arrived;
      var loaded := file.(healthySince := None);
      if loaded.active.Foreign? {
        loaded := loaded.(active := Primary);
      }
      this.state, this.initialized := loaded, false;
    }

    method Save() returns (life: Life)
      modifies this
      ensures Outcome(life, View()) == EgressModel.Save(environment, old(View()))
      ensures state == old(state)
    {
      if !environment(pos).survives {
        return Lost;
      }
      file, pos := state, pos + 1;
      return Alive;
    }

    method FlushEvents() returns (life: Life)
      modifies this
      ensures Outcome(life, View()) == EgressModel.FlushEvents(environment, old(View()))
    {
      hide EgressModel.Save;
      while state.pending != []
        invariant EgressModel.FlushEvents(environment, View()) == EgressModel.FlushEvents(environment, old(View()))
        decreases |state.pending|
      {
        var event, answer := state.pending[0], environment(pos);
        if !answer.survives {
          return Lost;
        }
        pos, handed := pos + 1, handed + [event];
        if !answer.ok {
          return Alive;
        }
        state, lifeAccepted := state.(pending := state.pending[1..]), lifeAccepted + [event];
        :- Save();
      }
      return Alive;
    }

    method Emit(kind: Kind, audience: Audience) returns (life: Life)
      modifies this
      ensures Outcome(life, View()) == EgressModel.Emit(environment, old(View()), kind, audience)
    {
      hide EgressModel.Save, EgressModel.FlushEvents;
      state := state.(sequence := state.sequence + 1);
      var event := Event(EventId(state.incident, state.sequence), kind, audience,
                         environment(pos).now, state.active, environment(pos).ready);
      state, pos, lifeEmitted := state.(pending := state.pending + [event]), pos + 1, lifeEmitted + [event];
      assert View() == Append(environment, old(View()), kind, audience);
      :- Save();
      :- FlushEvents();
      return Alive;
    }

    method WaitReady() returns (ready: bool)
      modifies this`pos
      ensures (pos, ready) == EgressModel.WaitReady(environment, old(pos), Polls(cfg))
    {
      var polls := Polls(cfg);
      while 0 < polls
        invariant EgressModel.WaitReady(environment, pos, polls)
                  == EgressModel.WaitReady(environment, old(pos), Polls(cfg))
      {
        var answer := environment(pos);
        pos := pos + 1;
        if answer.expired || answer.reauth {
          return false;
        }
        if answer.ready {
          return true;
        }
        polls := polls - 1;
      }
      pos := pos + 1;
      return false;
    }

    /** The adapter's `switch_egress`; `raised` when it could not close the old client in time. */
    method SwitchAdapter(target: Route) returns (life: Life, raised: bool)
      modifies this
      ensures Outcome(life, View()) == CallAdapter(environment, old(View()), target)
      ensures raised == !environment(old(pos)).ok
    {
      raised := !environment(pos).ok;
      if !environment(pos).survives {
        return Lost, raised;
      }
      pos := pos + 1;
      if !raised {
        actual := target;
      }
      return Alive, raised;
    }

    /** Enters the transit phase with its deadline and its cooldown stamp. */
    method EnterTransit(target: Route) returns (stamp: int)
      modifies this
      ensures View() == BeginSwitch(cfg, environment, old(View()), target) && stamp == environment(old(pos) + 1).now
    {
      stamp := environment(pos + 1).now;
      state := state.(phase := if target == Primary then Returning else Switching);
      state := state.(deadline := Some(environment(pos).now + cfg.drainTimeout + cfg.connectTimeout + 30));
      state := state.(cooldownUntil := stamp + cfg.retryCooldown);
      pos := pos + 2;
    }

    method Switch(target: Route) returns (life: Life)
      requires cfg.Valid()
      modifies this
      ensures Outcome(life, View()) == EgressModel.Switch(cfg, environment, old(View()), target)
    {
      hide EgressModel.Emit, EgressModel.Confirm, EgressModel.CallAdapter, EgressModel.Save, BeginSwitch;
      var previous := state.active;
      var stamp := EnterTransit(target);
      :- Emit(SwitchStarted(previous, target), Ops);
      ghost var announced := View();
      attempts := attempts + [Attempt(stamp, target, born, |samples|, arrived)];
      assert View() == LogAttempt(announced, stamp, target);
      var raised :- SwitchAdapter(target);
      assert raised == !environment(announced.pos).ok;
      if raised {
        :- Emit(CloseFailed, Both);
        return Lost;
      }
      life := Confirm(target, previous);
    }

    method Confirm(target: Route, previous: Route) returns (life: Life)
      requires cfg.Valid()
      modifies this
      ensures Outcome(life, View()) == EgressModel.Confirm(cfg, environment, old(View()), target, previous)
    {
      hide EgressModel.Emit, EgressModel.Connected, EgressModel.RollBack, EgressModel.Save, EgressModel.WaitReady;
      ghost var at := environment(pos).now;
      state := state.(active := target);
      :- Save();
      if target == Fallback {
        arrived := Some(at);
      }
      var ready := WaitReady();
      if ready {
        life := Connected(target);
      } else {
        life := RollBack(previous);
      }
    }

    method Connected(target: Route) returns (life: Life)
      modifies this
      ensures Outcome(life, View()) == EgressModel.Connected(environment, old(View()), target)
    {
      hide EgressModel.Emit;
      state := state.(deadline := None, healthySince := None);
      var now, later := environment(pos).now, environment(pos + 1).now;
      if target == Fallback {
        state := state.(phase := OnFallback, fallbackSince := Some(now), lastReminderAt := later);
        pos, arrived := pos + 2, Some(now);
        :- Emit(FallbackConnected, Both);
      } else {
        var since := if state.fallbackSince.None? || state.fallbackSince.value == 0 then later else state.fallbackSince.value;
        state := state.(phase := OnPrimary, failedSince := None, fallbackSince := None, failures := 0, announced := false);
        pos := pos + 2;
        :- Emit(PrimaryConnected(now - since), Both);
      }
      life := Save();
    }

    method RollBack(previous: Route) returns (life: Life)
      requires cfg.Valid()
      modifies this
      ensures Outcome(life, View()) == EgressModel.RollBack(cfg, environment, old(View()), previous)
    {
      hide EgressModel.Emit, EgressModel.CallAdapter, EgressModel.Reconnect;
      state := state.(phase := RollingBack);
      state := state.(deadline := Some(environment(pos).now + cfg.drainTimeout + cfg.connectTimeout + 30));
      pos := pos + 1;
      :- Emit(SwitchFailed, Both);
      var raised :- SwitchAdapter(previous);
      if raised {
        return Lost;
      }
      life := Reconnect(previous);
    }

    method Reconnect(previous: Route) returns (life: Life)
      requires cfg.Valid()
      modifies this
      ensures Outcome(life, View()) == EgressModel.Reconnect(cfg, environment, old(View()), previous)
    {
      hide EgressModel.Emit, EgressModel.Save, EgressModel.WaitReady;
      state := state.(active := previous);
      :- Save();
      var ready := WaitReady();
      state := state.(phase := if previous == Fallback then OnFallback else Waiting);
      state := state.(deadline := None, healthySince := None);
      state := state.(cooldownUntil := environment(pos).now + cfg.retryCooldown);
      pos := pos + 1;
      life := Emit(RollbackFinished(ready), Both);
    }

    method Restore(now: int) returns (life: Life)
      modifies this
      ensures Outcome(life, View()) == EgressModel.Restore(cfg, environment, old(View()), now)
    {
      hide EgressModel.Emit, EgressModel.Save;
      if state.active.Foreign? {
        state := state.(active := Primary);
      }
      if actual != state.active {
        var raised :- SwitchAdapter(state.active);
        if raised {
          return Lost;
        }
      }
      if state.phase.InTransit() {
        state := state.(phase := if state.active == Fallback then OnFallback else Waiting);
        state := state.(deadline := None);
        state := state.(cooldownUntil := Max(state.cooldownUntil, now + cfg.retryCooldown));
        :- Emit(RestartRecovered, Ops);
      }
      initialized := true;
      return Alive;
    }

    method WatchPrimary(now: int, primaryOk: bool) returns (life: Life)
      requires cfg.Valid()
      modifies this
      ensures Outcome(life, View()) == TickOnPrimary(cfg, environment, old(View()), now, primaryOk)
    {
      hide EgressModel.Emit, EgressModel.WatchOutage;
      var up := primaryOk || environment(pos).ready;
      samples := samples + [Sample(now, state.active, primaryOk, !up, false)];
      pos := pos + 1;
      if up {
        var ready := environment(pos).ready;
        pos := pos + 1;
        if state.announced && ready {
          :- Emit(ShortRecovery, Ops);
          state := state.(announced := false);
        }
        state := state.(failedSince := None, failures := 0, phase := OnPrimary);
        return Alive;
      }
      if state.failedSince.None? {
        state := state.(failedSince := Some(now));
        if !state.announced {
          state := state.(incident := state.incident + 1, sequence := 0);
        }
      }
      state := state.(failures := state.failures + 1, phase := Waiting);
      life := WatchOutage(now);
    }

    method WatchOutage(now: int) returns (life: Life)
      requires cfg.Valid()
      modifies this
      ensures Outcome(life, View()) == EgressModel.WatchOutage(cfg, environment, old(View()), now)
    {
      hide EgressModel.Emit, EgressModel.Switch;
      if state.failures >= 2 && !state.announced {
        state := state.(announced := true);
        :- Emit(Outage, Ops);
      }
      if state.failedSince.Some? && now - state.failedSince.value >= cfg.failoverAfter && now >= state.cooldownUntil {
        var probe := environment(pos);
        if !probe.survives {
          return Lost;
        }
        pos := pos + 1;
        if probe.ok {
          life := Switch(Fallback);
        } else {
          state := state.(cooldownUntil := now + cfg.retryCooldown);
          life := Emit(BothUnavailable, Both);
        }
        return;
      }
      return Alive;
    }

    method WatchFallback(now: int, primaryOk: bool) returns (life: Life)
      requires cfg.Valid()
      modifies this
      ensures Outcome(life, View()) == TickOnFallback(cfg, environment, old(View()), now, primaryOk)
    {
      hide EgressModel.Emit, EgressModel.TimeRecovery;
      state := state.(phase := OnFallback);
      samples := samples + [Sample(now, state.active, primaryOk, false, false)];
      if primaryOk {
        :- TimeRecovery(now);
      } else {
        state := state.(healthySince := None);
      }
      if !environment(pos).survives {
        return Lost;
      }
      pos := pos + 1;
      if now - state.lastReminderAt >= 4 * 3600 {
        state := state.(lastReminderAt := now);
        :- Emit(Reminder, Both);
      }
      return Alive;
    }

    method TimeRecovery(now: int) returns (life: Life)
      requires cfg.Valid()
      modifies this
      ensures Outcome(life, View()) == EgressModel.TimeRecovery(cfg, environment, old(View()), now)
    {
      hide EgressModel.Emit, EgressModel.Switch;
      if state.healthySince.None? {
        state := state.(healthySince := Some(now));
        :- Emit(RecoveryStarted, Ops);
      }
      if state.healthySince.Some? && now - state.healthySince.value >= cfg.recoveryStable
         && now - (if state.fallbackSince.Some? then state.fallbackSince.value else 0) >= cfg.minimumResidence
         && now >= state.cooldownUntil {
        :- Switch(Primary);
      }
      return Alive;
    }

    method Probe(now: int) returns (life: Life)
      requires cfg.Valid()
      modifies this
      ensures Outcome(life, View()) == SampleRoutes(cfg, environment, old(View()), now)
    {
      hide EgressModel.Police;
      if state.lastProbeAt.Some? && now - state.lastProbeAt.value > cfg.probeInterval * 3 {
        state := state.(failedSince := None, healthySince := None, failures := 0);
      }
      state := state.(lastProbeAt := Some(now));
      assert View() == BeginSampling(cfg, old(View()), now);
      var probe := environment(pos);
      if !probe.survives {
        return Lost;
      }
      var reauth := environment(pos + 1).reauth;
      pos := pos + 2;
      life := Police(now, probe.ok, reauth);
    }

    method Police(now: int, primaryOk: bool, reauth: bool) returns (life: Life)
      requires cfg.Valid()
      modifies this
      ensures Outcome(life, View()) == EgressModel.Police(cfg, environment, old(View()), now, primaryOk, reauth)
    {
      hide TickOnPrimary, TickOnFallback, EgressModel.Save;
      if reauth {
        samples := samples + [Sample(now, state.active, primaryOk, false, true)];
        state := state.(phase := AuthBlocked);
        state := state.(failedSince := None, healthySince := None, failures := 0);
      } else if state.active == Primary {
        :- WatchPrimary(now, primaryOk);
      } else {
        :- WatchFallback(now, primaryOk);
      }
      life := Save();
    }

    method Tick() returns (life: Life)
      requires cfg.Valid()
      modifies this
      ensures Outcome(life, View()) == EgressModel.Tick(cfg, environment, old(View()))
    {
      hide EgressModel.FlushEvents, EgressModel.Restore, EgressModel.SampleRoutes;
      :- FlushEvents();
      var now := environment(pos).now;
      pos := pos + 1;
      if !initialized {
        :- Restore(now);
      } else if state.lastProbeAt.Some? && now - state.lastProbeAt.value < cfg.probeInterval {
        return Alive;
      }
      life := Probe(now);
    }
  }
}
