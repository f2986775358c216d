/**
 Each stage of a tick keeps the invariants: the switch with its rollback, the restore after a restart,
 and the two halves of the policy.
 */
module EgressSteps {
  import opened EgressModel
  import opened EgressInvariants

  /** In the middle of a tick: everything in memory could be saved, no switch is under way. */
  ghost predicate Steady(cfg: Config, w: World) {
    && Durable(cfg, w)
    && Storable(cfg, w.mem, w)
    && Settled(w.mem)
    && Fifo(w)
    && w.route == w.mem.active
  }

  /** A stage left the samples alone and reached the adapter at most once, for `target`. */
  ghost predicate TriedOnly(w: World, after: World, target: Route) {
    && after.samples == w.samples
    && after.born == w.born
    && after.initialized == w.initialized
    && w.pos <= after.pos
    && after.mem.lastProbeAt == w.mem.lastProbeAt
    && (|| after.attempts == w.attempts
        || (|after.attempts| == |w.attempts| + 1
            && after.attempts[..|w.attempts|] == w.attempts
            && var a := after.attempts[|w.attempts|]; a.target == target && a.born == w.born && a.seen == |w.samples|))
  }

  /** Where a switch that keeps its process ends: on the target, or back where it came from. */
  ghost predicate Landed(cfg: Config, w: World, after: World, target: Route) {
    && Steady(cfg, after)
    && after.disk == after.mem
    && after.mem.healthySince.None?
    && (after.mem.active == target || after.mem.active == w.mem.active)
    && (if after.mem.active == Primary && target == Primary then after.mem.failedSince.None?
        else after.mem.failedSince == w.mem.failedSince && after.mem.failures == w.mem.failures)
  }

  lemma ConnectedKeeps(cfg: Config, o: Oracle, w: World, target: Route)
    requires Durable(cfg, w) && Storable(cfg, w.mem, w) && Fifo(w)
    requires w.mem.active == target == w.route && !target.Foreign?
    ensures var r := Connected(o, w, target);
            && Durable(cfg, r.world)
            && TriedOnly(w, r.world, target)
            && r.world.attempts == w.attempts
            && (r.Running? ==> Landed(cfg, w, r.world, target) && r.world.mem.active == target)
  {
    hide Emit, Save;
    var arrived := Arrived(o, w, target);
    EmitKeeps(cfg, o, arrived, Greeting(o, w, target), Both);
    var done := Emit(o, arrived, Greeting(o, w, target), Both);
    if done.Running? {
      SaveKeeps(cfg, o, done.world);
    }
  }

  /** Where a rollback that keeps its process ends. */
  ghost predicate Returned(cfg: Config, w: World, after: World, previous: Route) {
    && Steady(cfg, after)
    && after.disk == after.mem
    && after.mem.healthySince.None?
    && after.mem.active == previous
    && after.mem.failedSince == w.mem.failedSince
    && after.mem.failures == w.mem.failures
  }

  lemma RolledBackKeeps(cfg: Config, o: Oracle, w: World, previous: Route)
    requires Durable(cfg, w) && Storable(cfg, w.mem, w) && Fifo(w) && !previous.Foreign? && w.mem.active == previous
    requires w.mem.cooldownUntil <= o(w.pos).now + cfg.retryCooldown
    ensures var r := RolledBack(cfg, o, w, previous);
            Durable(cfg, r)
            && Storable(cfg, r.mem, r)
            && Fifo(r)
            && Settled(r.mem)
  {
  }

  lemma ReconnectKeeps(cfg: Config, o: Oracle, w: World, previous: Route)
    requires cfg.Valid() && Clocked(o)
    requires Durable(cfg, w) && Storable(cfg, w.mem, w) && Fifo(w) && w.mem.phase.InTransit() && w.route == previous
    requires w.mem.cooldownUntil <= o(w.pos).now + cfg.retryCooldown
    requires !previous.Foreign?
    ensures var r := Reconnect(cfg, o, w, previous);
            && Durable(cfg, r.world)
            && TriedOnly(w, r.world, previous)
            && r.world.attempts == w.attempts
            && (r.Running? ==> Returned(cfg, w, r.world, previous))
  {
    hide Emit, Save, WaitReady, Lawful;
    var moving := Moved(w, previous);
    SaveKeeps(cfg, o, moving);
    if Save(o, moving).Running? {
      var moved := Save(o, moving).world;
      var (pos, ready) := WaitReady(o, moved.pos, Polls(cfg));
      assert o(w.pos).now <= o(pos).now;
      RolledBackKeeps(cfg, o, moved.(pos := pos), previous);
      EmitKeeps(cfg, o, RolledBack(cfg, o, moved.(pos := pos), previous), RollbackFinished(ready), Both);
    }
  }

  lemma RollBackKeeps(cfg: Config, o: Oracle, w: World, previous: Route)
    requires cfg.Valid() && Clocked(o)
    requires Durable(cfg, w) && Storable(cfg, w.mem, w) && Fifo(w)
    requires w.mem.cooldownUntil <= o(w.pos).now + cfg.retryCooldown
    requires !previous.Foreign? && w.mem.phase.InTransit()
    ensures var r := RollBack(cfg, o, w, previous);
            && Durable(cfg, r.world)
            && TriedOnly(w, r.world, previous)
            && r.world.attempts == w.attempts
            && (r.Running? ==> Returned(cfg, w, r.world, previous))
  {
    hide Emit, Reconnect;
    var entering := BeginRollBack(cfg, o, w);
    EmitKeeps(cfg, o, entering, SwitchFailed, Both);
    var announced := Emit(o, entering, SwitchFailed, Both);
    if announced.Running? && o(announced.world.pos).survives && o(announced.world.pos).ok {
      assert o(w.pos).now <= o(announced.world.pos + 1).now;
      ReconnectKeeps(cfg, o, CallAdapter(o, announced.world, previous).world, previous);
    }
  }

  /** The attempt is stamped late enough and backed by the window its target needs. */
  lemma AttemptKeeps(cfg: Config, w: World, stamp: int, target: Route)
    requires cfg.Valid() && Durable(cfg, w) && w.disk == w.mem
    requires forall b :: b in w.attempts ==> b.stamp + cfg.retryCooldown <= stamp
    requires stamp + cfg.retryCooldown <= w.mem.cooldownUntil
    requires target in {Primary, Fallback}
    requires target == Primary ==> Proven(cfg, w.samples, w.born, |w.samples|, Primary, cfg.recoveryStable)
    ensures Durable(cfg, LogAttempt(w, stamp, target))
  {
    var stamps := Stamps(w.attempts);
    assert Stamps(LogAttempt(w, stamp, target).attempts) == stamps + [stamp];
    if stamps != [] {
      assert w.attempts[|stamps| - 1] in w.attempts;
    }
    Rates.SpacedAppend(stamps, stamp, cfg.retryCooldown);
  }

  lemma ConfirmKeeps(cfg: Config, o: Oracle, w: World, target: Route, previous: Route)
    requires cfg.Valid() && Clocked(o)
    requires Durable(cfg, w) && Storable(cfg, w.mem, w) && Fifo(w) && w.mem.phase.InTransit() && w.route == target
    requires w.mem.cooldownUntil <= o(w.pos).now + cfg.retryCooldown
    requires !previous.Foreign? && !target.Foreign? && previous != target
    ensures var r := Confirm(cfg, o, w, target, previous);
            && Durable(cfg, r.world)
            && TriedOnly(w, r.world, target)
            && r.world.attempts == w.attempts
            && (r.Running? ==> Landed(cfg, Moved(w, previous), r.world, target))
  {
    hide Connected, RollBack, Save, WaitReady;
    var moving := Moved(w, target);
    SaveKeeps(cfg, o, moving);
    if Save(o, moving).Running? {
      var moved := Entered(Save(o, moving).world, target, o(w.pos).now);
      var (pos, ready) := WaitReady(o, moved.pos, Polls(cfg));
      if ready {
        ConnectedKeeps(cfg, o, moved.(pos := pos), target);
      } else {
        RollBackKeeps(cfg, o, moved.(pos := pos), previous);
      }
    }
  }

  lemma AnnounceKeeps(cfg: Config, o: Oracle, w: World, target: Route)
    requires cfg.Valid() && Clocked(o) && Steady(cfg, w)
    requires w.mem.cooldownUntil <= o(w.pos).now
    ensures var r := Emit(o, BeginSwitch(cfg, o, w, target), SwitchStarted(w.mem.active, target), Ops);
            && Durable(cfg, r.world)
            && Fifo(r.world)
            && Talked(BeginSwitch(cfg, o, w, target), r.world)
            && (r.Running? ==> r.world.disk == r.world.mem)
    ensures forall a :: a in w.attempts ==> a.stamp + cfg.retryCooldown <= o(w.pos + 1).now
  {
    hide Emit;
    assert o(w.pos).now <= o(w.pos + 1).now;
    EmitKeeps(cfg, o, BeginSwitch(cfg, o, w, target), SwitchStarted(w.mem.active, target), Ops);
  }

  lemma SwitchKeeps(cfg: Config, o: Oracle, w: World, target: Route)
    requires cfg.Valid() && Clocked(o) && Steady(cfg, w)
    requires !target.Foreign? && target != w.mem.active
    requires w.mem.cooldownUntil <= o(w.pos).now
    requires target == Primary ==> Proven(cfg, w.samples, w.born, |w.samples|, Primary, cfg.recoveryStable)
    ensures var r := Switch(cfg, o, w, target);
            && Durable(cfg, r.world)
            && TriedOnly(w, r.world, target)
            && (r.Running? ==> Landed(cfg, w, r.world, target))
  {
    hide Emit, Confirm, Proven;
    var stamp := o(w.pos + 1).now;
    AnnounceKeeps(cfg, o, w, target);
    var announced := Emit(o, BeginSwitch(cfg, o, w, target), SwitchStarted(w.mem.active, target), Ops);
    if announced.Running? {
      AttemptKeeps(cfg, announced.world, stamp, target);
      var attempted := LogAttempt(announced.world, stamp, target);
      if o(attempted.pos).survives {
        var called := CallAdapter(o, attempted, target).world;
        if !o(attempted.pos).ok {
          EmitKeeps(cfg, o, called, CloseFailed, Both);
        } else {
          assert stamp <= o(called.pos).now;
          ConfirmKeeps(cfg, o, called, target, w.mem.active);
        }
      }
    }
  }

  lemma RestoreKeeps(cfg: Config, o: Oracle, w: World, now: int)
    requires cfg.Valid() && Loaded(cfg, w) && !w.initialized
    ensures var r := Restore(cfg, o, w, now);
            && Durable(cfg, r.world)
            && r.world.samples == w.samples
            && r.world.attempts == w.attempts
            && r.world.born == w.born && w.pos <= r.world.pos
            && (r.Running? ==>
                  && Steady(cfg, r.world)
                  && Clean(r.world)
                  && r.world.initialized
                  && r.world.mem.healthySince.None?
                  && r.world.mem.active == w.mem.active
                  && r.world.mem.lastProbeAt == w.mem.lastProbeAt
                  && r.world.mem.failedSince == w.mem.failedSince && r.world.mem.failures == w.mem.failures)
  {
    hide Emit;
    var routed := if w.route != w.mem.active then CallAdapter(o, w, w.mem.active) else Running(w);
    if routed.Running? && routed.world.route == routed.world.mem.active && w.mem.phase.InTransit() {
      EmitKeeps(cfg, o, LeaveTransit(cfg, routed.world, now), RestartRecovered, Ops);
    }
  }

  /** A process that has only loaded its file. */
  ghost predicate Loaded(cfg: Config, w: World) {
    Durable(cfg, w)
    && Clean(w)
    && Fifo(w)
    && w.mem.healthySince.None?
  }
}
