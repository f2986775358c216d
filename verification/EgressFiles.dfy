/**
 What becomes of a failure timer while the policy restores, tells and fails over: it stays as it is, in memory
 and in every file written on the way, and the cooldown only grows.
 These are the stages between a decision and the next sample. A process may be lost in any of them, so that what is
 said of the file holds at each cut-off, and what is said of the memory holds if the process gets through. The next
 process starts from the file, and therefore from the same timer, out of a cooldown that is no shorter.
 */
module EgressFiles {
  import opened EgressModel

  ghost predicate SameTimer(st: EgressState, later: EgressState) {
    later.failedSince == st.failedSince
    && later.failures == st.failures
    && st.cooldownUntil <= later.cooldownUntil
  }

  ghost predicate Carried(st: EgressState, later: EgressState) {
    SameTimer(st, later) && later.lastProbeAt == st.lastProbeAt
  }

  /** The timer in memory is carried on, and a file written on the way has it too. */
  ghost predicate Carries(w: World, r: Step) {
    && (r.world.disk == w.disk || Carried(w.mem, r.world.disk))
    && (r.Running? ==> Carried(w.mem, r.world.mem))
  }

  /** The route in memory, and in every file written on the way, stays as it is, and nothing is sampled or attempted. */
  ghost predicate Stays(w: World, r: Step) {
    && (r.world.disk == w.disk || r.world.disk.active == w.mem.active)
    && r.world.mem.active == w.mem.active
    && r.world.samples == w.samples
    && r.world.attempts == w.attempts
  }

  lemma CarriesOn(w: World, middle: World, r: Step)
    requires Carries(w, Running(middle)) && Carries(middle, r)
    ensures Carries(w, r)
  {
  }

  lemma {:induction false} FlushCarries(o: Oracle, w: World)
    ensures var r := FlushEvents(o, w);
            Carries(w, r)
            && Stays(w, r)
            && w.pos <= r.world.pos
            && r.world.mem == w.mem.(pending := r.world.mem.pending)
    decreases |w.mem.pending|
  {
    hide Save;
    var answer := o(w.pos);
    if w.mem.pending != [] && answer.survives && answer.ok {
      var event := w.mem.pending[0];
      var popped := w.(pos := w.pos + 1, handed := w.handed + [event],
                       mem := w.mem.(pending := w.mem.pending[1..]), lifeAccepted := w.lifeAccepted + [event]);
      SaveCarries(o, popped);
      if Save(o, popped).Running? {
        FlushCarries(o, Save(o, popped).world);
      }
    }
  }

  lemma SaveCarries(o: Oracle, w: World)
    ensures Carries(w, Save(o, w))
            && w.pos <= Save(o, w).world.pos
    ensures Save(o, w).world == if Save(o, w).Running? then w.(disk := w.mem, pos := w.pos + 1) else w
  {
  }

  lemma EmitCarries(o: Oracle, w: World, kind: Kind, audience: Audience)
    ensures var r := Emit(o, w, kind, audience);
            && Carries(w, r)
            && Stays(w, r)
            && w.pos <= r.world.pos
            && r.world.mem == w.mem.(sequence := r.world.mem.sequence, pending := r.world.mem.pending)
  {
    hide FlushEvents, Save;
    var queued := Append(o, w, kind, audience);
    SaveCarries(o, queued);
    if Save(o, queued).Running? {
      FlushCarries(o, Save(o, queued).world);
    }
  }

  lemma ConnectedCarries(o: Oracle, w: World)
    ensures Carries(w, Connected(o, w, Fallback))
  {
    hide Emit, Save;
    var arrived := Arrived(o, w, Fallback);
    EmitCarries(o, arrived, FallbackConnected, Both);
    var done := Emit(o, arrived, FallbackConnected, Both);
    if done.Running? {
      SaveCarries(o, done.world);
    }
  }

  lemma ReconnectCarries(cfg: Config, o: Oracle, w: World, previous: Route)
    requires cfg.Valid() && Clocked(o) && w.mem.cooldownUntil <= o(w.pos).now + cfg.retryCooldown
    ensures Carries(w, Reconnect(cfg, o, w, previous))
  {
    hide Emit, Save, WaitReady;
    var moving := Moved(w, previous);
    SaveCarries(o, moving);
    if Save(o, moving).Running? {
      var moved := Save(o, moving).world;
      var (pos, ready) := WaitReady(o, moved.pos, Polls(cfg));
      assert o(w.pos).now <= o(pos).now;
      EmitCarries(o, RolledBack(cfg, o, moved.(pos := pos), previous), RollbackFinished(ready), Both);
    }
  }

  lemma RollBackCarries(cfg: Config, o: Oracle, w: World, previous: Route)
    requires cfg.Valid() && Clocked(o) && w.mem.cooldownUntil <= o(w.pos).now + cfg.retryCooldown
    ensures Carries(w, RollBack(cfg, o, w, previous))
  {
    hide Emit, Reconnect;
    var entering := BeginRollBack(cfg, o, w);
    EmitCarries(o, entering, SwitchFailed, Both);
    var announced := Emit(o, entering, SwitchFailed, Both);
    if announced.Running? && o(announced.world.pos).survives && o(announced.world.pos).ok {
      assert o(w.pos).now <= o(announced.world.pos + 1).now;
      ReconnectCarries(cfg, o, CallAdapter(o, announced.world, previous).world, previous);
    }
  }

  lemma ConfirmCarries(cfg: Config, o: Oracle, w: World)
    requires cfg.Valid() && Clocked(o) && w.mem.cooldownUntil <= o(w.pos).now + cfg.retryCooldown
    ensures Carries(w, Confirm(cfg, o, w, Fallback, Primary))
  {
    hide Connected, RollBack, Save, WaitReady;
    var moving := Moved(w, Fallback);
    SaveCarries(o, moving);
    if Save(o, moving).Running? {
      var moved := Entered(Save(o, moving).world, Fallback, o(w.pos).now);
      var (pos, ready) := WaitReady(o, moved.pos, Polls(cfg));
      assert o(w.pos).now <= o(pos).now;
      ConnectedCarries(o, moved.(pos := pos));
      RollBackCarries(cfg, o, moved.(pos := pos), Primary);
    }
  }

  /** A failover, wherever it ends, carries the timer it was decided on. */
  lemma SwitchCarries(cfg: Config, o: Oracle, w: World)
    requires cfg.Valid() && Clocked(o) && w.mem.active == Primary && w.mem.cooldownUntil <= o(w.pos).now
    ensures Carries(w, Switch(cfg, o, w, Fallback))
  {
    hide Emit, Confirm;
    assert o(w.pos).now <= o(w.pos + 1).now;
    var begun := BeginSwitch(cfg, o, w, Fallback);
    EmitCarries(o, begun, SwitchStarted(Primary, Fallback), Ops);
    var announced := Emit(o, begun, SwitchStarted(Primary, Fallback), Ops);
    if announced.Running? && o(announced.world.pos).survives {
      var called := CallAdapter(o, LogAttempt(announced.world, o(w.pos + 1).now, Fallback), Fallback).world;
      EmitCarries(o, called, CloseFailed, Both);
      assert o(w.pos + 1).now <= o(called.pos).now;
      ConfirmCarries(cfg, o, called);
    }
  }

  lemma TryFailOverCarries(cfg: Config, o: Oracle, w: World, now: int)
    requires cfg.Valid() && Clocked(o) && w.mem.active == Primary && MayFailOver(cfg, w.mem, now) && now <= o(w.pos).now
    ensures Carries(w, TryFailOver(cfg, o, w, now))
  {
    hide Emit, Switch;
    var probed := w.(pos := w.pos + 1);
    assert o(w.pos).now <= o(probed.pos).now;
    if o(w.pos).ok {
      SwitchCarries(cfg, o, probed);
    } else {
      EmitCarries(o, probed.(mem := w.mem.(cooldownUntil := now + cfg.retryCooldown)), BothUnavailable, Both);
    }
  }

  lemma TellOutageCarries(o: Oracle, w: World)
    ensures Carries(w, TellOutage(o, w))
            && w.pos <= TellOutage(o, w).world.pos
    ensures Stays(w, TellOutage(o, w))
  {
    hide Emit;
    var outage := w.(mem := w.mem.(announced := true));
    EmitCarries(o, outage, Outage, Ops);
  }

  /** An outage, told or not, failed over or not, carries the timer that counted it. */
  lemma WatchOutageCarries(cfg: Config, o: Oracle, w: World, now: int)
    requires cfg.Valid() && Clocked(o) && w.mem.active == Primary && now <= o(w.pos).now
    ensures Carries(w, WatchOutage(cfg, o, w, now))
  {
    hide TellOutage, TryFailOver;
    TellOutageCarries(o, w);
    var told := TellOutage(o, w);
    if told.Running? && MayFailOver(cfg, told.world.mem, now) {
      assert o(w.pos).now <= o(told.world.pos).now;
      TryFailOverCarries(cfg, o, told.world, now);
      CarriesOn(w, told.world, TryFailOver(cfg, o, told.world, now));
    }
  }

  lemma RestoreCarries(cfg: Config, o: Oracle, w: World, now: int)
    requires !w.mem.active.Foreign?
    ensures Carries(w, Restore(cfg, o, w, now))
            && Stays(w, Restore(cfg, o, w, now))
  {
    hide Emit;
    var routed := if w.route != w.mem.active then CallAdapter(o, w, w.mem.active) else Running(w);
    if routed.Running? {
      EmitCarries(o, LeaveTransit(cfg, routed.world, now), RestartRecovered, Ops);
    }
  }

  /** Leaving a broken-off switch starts a new cooldown. */
  lemma RestoreCools(cfg: Config, o: Oracle, w: World, now: int)
    requires !w.mem.active.Foreign? && w.mem.phase.InTransit() && Restore(cfg, o, w, now).Running?
    ensures now + cfg.retryCooldown <= Restore(cfg, o, w, now).world.mem.cooldownUntil
  {
    hide Emit;
    var routed := if w.route != w.mem.active then CallAdapter(o, w, w.mem.active) else Running(w);
    EmitCarries(o, LeaveTransit(cfg, routed.world, now), RestartRecovered, Ops);
  }
}
