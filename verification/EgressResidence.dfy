/** The minimum residence on the fallback, over whole runs. */
module EgressResidence {
  import opened Wrappers
  import opened EgressModel
  import opened EgressInvariants
  import opened EgressSteps
  import opened EgressFiles
  import opened EgressTicks
  import opened EgressRuns
  import opened EgressTheorems
  import opened EgressSwitching
  import opened EgressDecisions

  // The primary is not tried before the residence is over, unless a process was lost after the fallback became the route and
  // before that was stamped, with a cooldown shorter than the residence.

  /** The state knows of an arrival on the fallback no earlier than the last one. */
  predicate Stamped(st: EgressState, arrived: Option<int>) {
    st.active == Fallback ==> arrived.Some? && st.fallbackSince.Some? && arrived.value <= st.fallbackSince.value
  }

  /** The state lets nobody return before the residence since the last arrival is over. */
  predicate Housed(cfg: Config, st: EgressState, arrived: Option<int>) {
    Stamped(st, arrived) || (arrived.Some? && arrived.value + cfg.minimumResidence <= st.cooldownUntil)
  }

  /** A switch is under way; if it has made the fallback the route, that is an arrival. */
  predicate Adrift(st: EgressState, arrived: Option<int>) {
    st.phase.InTransit()
    && (st.active == Fallback ==> arrived.Some?)
  }

  ghost predicate Resident(cfg: Config, attempts: seq<Attempt>) {
    forall a :: a in attempts && a.target == Primary ==> a.arrived.Some? && a.stamp - a.arrived.value >= cfg.minimumResidence
  }

  predicate Past(o: Oracle, w: World) {
    w.arrived.Some? ==> w.arrived.value <= o(w.pos).now
  }

  /** What a stage leaves: in memory if it lives on, and on file wherever it is lost. */
  ghost predicate Houses(cfg: Config, o: Oracle, w: World, r: Step) {
    && (r.Running? ==> Housed(cfg, r.world.mem, r.world.arrived))
    && (|| (r.world.disk == w.disk && (r.world.arrived == w.arrived || w.disk.active == Primary))
        || Adrift(r.world.disk, r.world.arrived) || Housed(cfg, r.world.disk, r.world.arrived))
    && Past(o, r.world) && w.pos <= r.world.pos
  }

  lemma ConnectedHouses(cfg: Config, o: Oracle, w: World, target: Route)
    requires Clocked(o) && w.mem.active == target && Adrift(w.disk, w.arrived) && Past(o, w)
    requires target == Primary || target == Fallback
    ensures Houses(cfg, o, w, Connected(o, w, target))
  {
    hide Emit, Save;
    var arrived := Arrived(o, w, target);
    EmitLeaves(o, arrived, Greeting(o, w, target), Both);
    var done := Emit(o, arrived, Greeting(o, w, target), Both);
    assert o(w.pos).now <= o(done.world.pos).now;
    if done.Running? {
      SaveCarries(o, done.world);
      assert o(w.pos).now <= o(done.world.pos + 1).now;
    }
  }

  lemma HousesOn(cfg: Config, o: Oracle, w: World, middle: World, r: Step)
    requires Houses(cfg, o, w, Died(middle)) && Houses(cfg, o, middle, r)
    ensures Houses(cfg, o, w, r)
  {
  }

  /** A route to go back to keeps its residence. */
  predicate MayHold(cfg: Config, w: World, previous: Route) {
    previous == Fallback ==> Housed(cfg, w.mem.(active := Fallback), w.arrived)
  }

  lemma ReconnectHouses(cfg: Config, o: Oracle, w: World, previous: Route)
    requires cfg.Valid() && Clocked(o) && Past(o, w) && Adrift(w.mem, w.arrived) && Adrift(w.disk, w.arrived)
    requires MayHold(cfg, w, previous) && w.mem.cooldownUntil <= o(w.pos).now + cfg.retryCooldown
    ensures Houses(cfg, o, w, Reconnect(cfg, o, w, previous))
  {
    hide Emit, Save, WaitReady;
    var moving := Moved(w, previous);
    SaveCarries(o, moving);
    if Save(o, moving).Running? {
      var moved := Save(o, moving).world;
      var (pos, ready) := WaitReady(o, moved.pos, Polls(cfg));
      assert o(w.pos).now <= o(pos).now;
      var back := RolledBack(cfg, o, moved.(pos := pos), previous);
      EmitLeaves(o, back, RollbackFinished(ready), Both);
      assert o(w.pos).now <= o(Emit(o, back, RollbackFinished(ready), Both).world.pos).now;
    }
  }

  lemma RollBackHouses(cfg: Config, o: Oracle, w: World, previous: Route)
    requires cfg.Valid() && Clocked(o) && Past(o, w) && Adrift(w.mem, w.arrived) && Adrift(w.disk, w.arrived)
    requires MayHold(cfg, w, previous) && w.mem.cooldownUntil <= o(w.pos).now + cfg.retryCooldown
    ensures Houses(cfg, o, w, RollBack(cfg, o, w, previous))
  {
    hide Emit, Reconnect;
    var entering := BeginRollBack(cfg, o, w);
    EmitLeaves(o, entering, SwitchFailed, Both);
    var announced := Emit(o, entering, SwitchFailed, Both);
    assert o(w.pos).now <= o(announced.world.pos).now;
    if announced.Running? && o(announced.world.pos).survives && o(announced.world.pos).ok {
      var called := CallAdapter(o, announced.world, previous).world;
      assert o(w.pos).now <= o(called.pos).now;
      ReconnectHouses(cfg, o, called, previous);
    }
  }

  lemma ConfirmHouses(cfg: Config, o: Oracle, w: World, target: Route, previous: Route)
    requires cfg.Valid() && Clocked(o) && Past(o, w) && Adrift(w.mem, w.arrived) && Adrift(w.disk, w.arrived)
    requires (target == Primary && previous == Fallback) || (target == Fallback && previous == Primary)
    requires MayHold(cfg, w, previous) && w.mem.cooldownUntil <= o(w.pos).now + cfg.retryCooldown
    ensures Houses(cfg, o, w, Confirm(cfg, o, w, target, previous))
  {
    hide Connected, RollBack, Save, WaitReady, Housed;
    var moving := Moved(w, target);
    SaveCarries(o, moving);
    if Save(o, moving).Running? {
      var moved := Entered(Save(o, moving).world, target, o(w.pos).now);
      var (pos, ready) := WaitReady(o, moved.pos, Polls(cfg));
      assert o(w.pos).now <= o(pos).now;
      if ready {
        ConnectedHouses(cfg, o, moved.(pos := pos), target);
      } else {
        RollBackHouses(cfg, o, moved.(pos := pos), previous);
      }
    }
  }

  /** Telling of something in the middle of a switch. */
  lemma AdriftHouses(cfg: Config, o: Oracle, w: World, x: World, kind: Kind, audience: Audience)
    requires Clocked(o) && Past(o, w) && w.pos <= x.pos && x.arrived == w.arrived && Adrift(x.mem, x.arrived)
    requires x.disk == w.disk || Adrift(x.disk, x.arrived)
    ensures var r := Emit(o, x, kind, audience);
            && Houses(cfg, o, w, Died(r.world)) && Moves(x, r.world)
            && r.world.mem == x.mem.(sequence := r.world.mem.sequence, pending := r.world.mem.pending)
            && (r.Running? ==> r.world.disk == r.world.mem)
  {
    hide Emit, Told;
    EmitLeaves(o, x, kind, audience);
    assert o(w.pos).now <= o(Emit(o, x, kind, audience).world.pos).now;
  }

  lemma LostHouses(cfg: Config, o: Oracle, w: World, x: World, later: World)
    requires Houses(cfg, o, w, Died(x)) && later == x.(attempts := later.attempts)
    ensures Houses(cfg, o, w, Died(later))
  {
  }

  lemma CalledHouses(cfg: Config, o: Oracle, w: World, x: World, r: Step)
    requires Adrift(x.disk, x.arrived) && x.arrived == w.arrived && w.pos <= x.pos && Houses(cfg, o, x, r)
    ensures Houses(cfg, o, w, r)
  {
  }

  lemma SwitchHouses(cfg: Config, o: Oracle, w: World, target: Route)
    requires cfg.Valid() && Clocked(o) && Past(o, w) && Housed(cfg, w.mem, w.arrived) && w.mem.cooldownUntil <= o(w.pos).now
    requires (target == Primary && w.mem.active == Fallback) || (target == Fallback && w.mem.active == Primary)
    ensures Houses(cfg, o, w, Switch(cfg, o, w, target))
  {
    hide Emit, Confirm, Told, Houses;
    assert o(w.pos).now <= o(w.pos + 1).now;
    var begun := BeginSwitch(cfg, o, w, target);
    var notice := SwitchStarted(w.mem.active, target);
    AdriftHouses(cfg, o, w, begun, notice, Ops);
    var announced := Emit(o, begun, notice, Ops);
    if announced.Running? {
      var attempted := LogAttempt(announced.world, o(w.pos + 1).now, target);
      LostHouses(cfg, o, w, announced.world, attempted);
      assert o(w.pos + 1).now <= o(announced.world.pos).now <= o(announced.world.pos + 1).now;
      if o(announced.world.pos).survives {
        var called := CallAdapter(o, attempted, target).world;
        if o(announced.world.pos).ok {
          ConfirmHouses(cfg, o, called, target, w.mem.active);
          CalledHouses(cfg, o, w, called, Confirm(cfg, o, called, target, w.mem.active));
        } else {
          AdriftHouses(cfg, o, w, called, CloseFailed, Both);
        }
      }
    }
  }

  /** An attempt on the primary that is due comes after the residence. */
  lemma DueIsResident(cfg: Config, st: EgressState, arrived: Option<int>, now: int, stamp: int)
    requires Housed(cfg, st, arrived) && st.active == Fallback && ReturnDue(cfg, st, now) && now <= stamp
    ensures arrived.Some?
            && stamp - arrived.value >= cfg.minimumResidence
  {
  }

  /** Stages that only write notes keep what holds of the timers and routes of the state. */
  lemma EmitHouses(cfg: Config, o: Oracle, w: World, kind: Kind, audience: Audience)
    requires Clocked(o) && Past(o, w) && Housed(cfg, w.mem, w.arrived)
    ensures Houses(cfg, o, w, Emit(o, w, kind, audience))
  {
    hide Emit;
    EmitLeaves(o, w, kind, audience);
    assert o(w.pos).now <= o(Emit(o, w, kind, audience).world.pos).now;
  }

  lemma SaveHouses(cfg: Config, o: Oracle, w: World)
    requires Clocked(o) && Past(o, w) && Housed(cfg, w.mem, w.arrived)
    ensures Houses(cfg, o, w, Save(o, w))
            && Save(o, w).world.attempts == w.attempts
  {
    assert o(w.pos).now <= o(w.pos + 1).now;
  }

  /** A stage may start from a state that differs in what does not matter here. */
  lemma HousesFrom(cfg: Config, o: Oracle, w: World, later: World, r: Step)
    requires Houses(cfg, o, later, r) && later.disk == w.disk && later.arrived == w.arrived && w.pos <= later.pos
    ensures Houses(cfg, o, w, r)
  {
  }

  lemma PrimaryUpHouses(cfg: Config, o: Oracle, w: World)
    requires Clocked(o) && Past(o, w) && w.mem.active == Primary
    ensures Houses(cfg, o, w, PrimaryUp(o, w))
  {
    hide Emit;
    var read := w.(pos := w.pos + 1);
    assert o(w.pos).now <= o(read.pos).now;
    EmitHouses(cfg, o, read, ShortRecovery, Ops);
    PrimaryUpDecides(o, w);
  }

  lemma PrimaryDownHouses(cfg: Config, o: Oracle, w: World, now: int)
    requires cfg.Valid() && Clocked(o) && Past(o, w) && w.mem.active == Primary && now <= o(w.pos).now
    ensures Houses(cfg, o, w, PrimaryDown(cfg, o, w, now))
  {
    hide Emit, TryFailOver, Houses;
    var counted := w.(mem := CountFailure(w.mem, now));
    var outage := counted.(mem := counted.mem.(announced := true));
    EmitHouses(cfg, o, outage, Outage, Ops);
    EmitLeaves(o, outage, Outage, Ops);
    NothingHouses(cfg, o, counted);
    var told := TellOutage(o, counted);
    HousesFrom(cfg, o, counted, if told == Running(counted) then counted else outage, told);
    HousesFrom(cfg, o, w, counted, told);
    if told.Running? && MayFailOver(cfg, told.world.mem, now) {
      assert o(w.pos).now <= o(told.world.pos).now;
      HousesGive(cfg, o, w, told);
      TryFailOverHouses(cfg, o, told.world, now);
      HousesLost(cfg, o, w, told);
      HousesOn(cfg, o, w, told.world, TryFailOver(cfg, o, told.world, now));
    }
  }

  lemma NothingHouses(cfg: Config, o: Oracle, w: World)
    requires Past(o, w) && Housed(cfg, w.mem, w.arrived)
    ensures Houses(cfg, o, w, Running(w))
  {
  }

  lemma HousesGive(cfg: Config, o: Oracle, w: World, r: Step)
    requires Houses(cfg, o, w, r) && r.Running?
    ensures Past(o, r.world)
            && Housed(cfg, r.world.mem, r.world.arrived)
  {
  }

  lemma HousesLost(cfg: Config, o: Oracle, w: World, r: Step)
    requires Houses(cfg, o, w, r)
    ensures Houses(cfg, o, w, Died(r.world))
  {
  }

  lemma TryFailOverHouses(cfg: Config, o: Oracle, w: World, now: int)
    requires cfg.Valid() && Clocked(o) && Past(o, w) && w.mem.active == Primary && MayFailOver(cfg, w.mem, now) && now <= o(w.pos).now
    ensures Houses(cfg, o, w, TryFailOver(cfg, o, w, now))
  {
    hide Emit, Switch, Houses;
    var probed := w.(pos := w.pos + 1);
    assert o(w.pos).now <= o(probed.pos).now;
    var cooled := probed.(mem := w.mem.(cooldownUntil := now + cfg.retryCooldown));
    NothingHouses(cfg, o, w);
    HousesLost(cfg, o, w, Running(w));
    SwitchHouses(cfg, o, probed, Fallback);
    HousesFrom(cfg, o, w, probed, Switch(cfg, o, probed, Fallback));
    EmitHouses(cfg, o, cooled, BothUnavailable, Both);
    HousesFrom(cfg, o, w, cooled, Emit(o, cooled, BothUnavailable, Both));
  }

  lemma TimeRecoveryHouses(cfg: Config, o: Oracle, w: World, now: int)
    requires cfg.Valid() && Clocked(o) && Past(o, w) && w.mem.active == Fallback && Housed(cfg, w.mem, w.arrived) && now <= o(w.pos).now
    ensures Houses(cfg, o, w, TimeRecovery(cfg, o, w, now))
  {
    hide Emit, Switch, Houses;
    var started := w.(mem := w.mem.(healthySince := Some(now)));
    EmitHouses(cfg, o, started, RecoveryStarted, Ops);
    EmitLeaves(o, started, RecoveryStarted, Ops);
    HousesFrom(cfg, o, w, started, Emit(o, started, RecoveryStarted, Ops));
    NothingHouses(cfg, o, w);
    var timed := StartRecovery(o, w, now);
    if timed.Running? && MayReturn(cfg, timed.world.mem, now) {
      assert o(w.pos).now <= o(timed.world.pos).now;
      HousesGive(cfg, o, w, timed);
      SwitchHouses(cfg, o, timed.world, Primary);
      HousesLost(cfg, o, w, timed);
      HousesOn(cfg, o, w, timed.world, Switch(cfg, o, timed.world, Primary));
    }
  }

  lemma RemindHouses(cfg: Config, o: Oracle, w: World, now: int)
    requires Clocked(o) && Past(o, w) && Housed(cfg, w.mem, w.arrived)
    ensures Houses(cfg, o, w, Remind(o, w, now))
  {
    hide Emit, Houses;
    var probed := w.(pos := w.pos + 1);
    assert o(w.pos).now <= o(probed.pos).now;
    var reminded := probed.(mem := probed.mem.(lastReminderAt := now));
    EmitHouses(cfg, o, reminded, Reminder, Both);
    HousesFrom(cfg, o, w, reminded, Emit(o, reminded, Reminder, Both));
    NothingHouses(cfg, o, w);
    NothingHouses(cfg, o, probed);
    HousesFrom(cfg, o, w, probed, Running(probed));
    HousesLost(cfg, o, w, Running(w));
  }

  lemma TickOnFallbackHouses(cfg: Config, o: Oracle, w: World, now: int, primaryOk: bool)
    requires cfg.Valid() && Clocked(o) && Past(o, w) && w.mem.active == Fallback && Housed(cfg, w.mem, w.arrived) && now <= o(w.pos).now
    ensures Houses(cfg, o, w, TickOnFallback(cfg, o, w, now, primaryOk))
  {
    hide TimeRecovery, Remind, Houses;
    var seen := w.(mem := w.mem.(phase := OnFallback), samples := w.samples + [Sample(now, w.mem.active, primaryOk, false, false)]);
    var idle := seen.(mem := seen.mem.(healthySince := None));
    var moved := if primaryOk then TimeRecovery(cfg, o, seen, now) else Running(idle);
    if primaryOk {
      TimeRecoveryHouses(cfg, o, seen, now);
      HousesFrom(cfg, o, w, seen, moved);
    } else {
      NothingHouses(cfg, o, idle);
      HousesFrom(cfg, o, w, idle, moved);
    }
    if moved.Running? {
      HousesGive(cfg, o, w, moved);
      RemindHouses(cfg, o, moved.world, now);
      HousesLost(cfg, o, w, moved);
      HousesOn(cfg, o, w, moved.world, Remind(o, moved.world, now));
    }
  }

  lemma TickOnPrimaryHouses(cfg: Config, o: Oracle, w: World, now: int, primaryOk: bool)
    requires cfg.Valid() && Clocked(o) && Past(o, w) && w.mem.active == Primary && now <= o(w.pos).now
    ensures Houses(cfg, o, w, TickOnPrimary(cfg, o, w, now, primaryOk))
  {
    hide PrimaryUp, PrimaryDown, Houses;
    var up := primaryOk || o(w.pos).ready;
    var seen := w.(pos := w.pos + 1, samples := w.samples + [Sample(now, w.mem.active, primaryOk, !up, false)]);
    assert o(w.pos).now <= o(seen.pos).now;
    PrimaryUpHouses(cfg, o, seen);
    PrimaryDownHouses(cfg, o, seen, now);
    HousesFrom(cfg, o, w, seen, if up then PrimaryUp(o, seen) else PrimaryDown(cfg, o, seen, now));
  }

  lemma SampleRoutesHouses(cfg: Config, o: Oracle, w: World, now: int)
    requires cfg.Valid() && Clocked(o) && Past(o, w) && Housed(cfg, w.mem, w.arrived) && now <= o(w.pos).now && !w.mem.active.Foreign?
    ensures Houses(cfg, o, w, SampleRoutes(cfg, o, w, now))
  {
    hide TickOnPrimary, TickOnFallback, Save, Houses;
    NothingHouses(cfg, o, w);
    HousesLost(cfg, o, w, Running(w));
    var sampling := BeginSampling(cfg, w, now);
    var due := sampling.(pos := w.pos + 2);
    if !o(w.pos).survives {
      NothingHouses(cfg, o, sampling);
      HousesLost(cfg, o, sampling, Running(sampling));
      HousesFrom(cfg, o, w, sampling, Died(sampling));
    } else {
      assert o(w.pos).now <= o(due.pos).now;
      var primaryOk, reauth := o(w.pos).ok, o(w.pos + 1).reauth;
      var done := Judged(cfg, o, due, now, primaryOk, reauth);
      if reauth {
        NothingHouses(cfg, o, done.world);
        HousesFrom(cfg, o, due, done.world, done);
      } else if due.mem.active == Primary {
        TickOnPrimaryHouses(cfg, o, due, now, primaryOk);
      } else {
        TickOnFallbackHouses(cfg, o, due, now, primaryOk);
      }
      HousesFrom(cfg, o, w, due, done);
      if done.Running? {
        HousesGive(cfg, o, w, done);
        SaveHouses(cfg, o, done.world);
        HousesLost(cfg, o, w, done);
        HousesOn(cfg, o, w, done.world, Save(o, done.world));
      }
    }
  }

  /** No sampled tick tries the primary before the residence is over. */
  lemma SampleRoutesResident(cfg: Config, o: Oracle, x: World, now: int)
    requires cfg.Valid() && Clocked(o) && Steady(cfg, x) && now <= o(x.pos).now
    requires Housed(cfg, x.mem, x.arrived) && Resident(cfg, x.attempts)
    ensures Resident(cfg, SampleRoutes(cfg, o, x, now).world.attempts)
  {
    hide Police, Told, SwitchNotices, Housed, ReturnDue, Durable;
    var after := SampleRoutes(cfg, o, x, now).world;
    if !o(x.pos).survives {
    } else if o(x.pos + 1).reauth {
      ReauthSample(cfg, o, x, now);
    } else if x.mem.active == Fallback {
      var _, _ := FallbackDecides(cfg, o, x, now);
      if after.attempts != x.attempts {
        DueIsResident(cfg, x.mem, x.arrived, now, after.attempts[|x.attempts|].stamp);
      }
    } else if o(x.pos).ok || o(x.pos + 2).ready {
      UpDecides(cfg, o, x, now);
    } else {
      var _, _, _ := DownDecides(cfg, o, x, now);
    }
    if after.attempts != x.attempts {
      OneMoreResident(cfg, x.attempts, after.attempts);
    }
  }

  lemma OneMoreResident(cfg: Config, before: seq<Attempt>, after: seq<Attempt>)
    requires Resident(cfg, before) && |after| == |before| + 1 && before <= after
    requires var a := after[|before|]; a.target == Primary ==> a.arrived.Some? && a.stamp - a.arrived.value >= cfg.minimumResidence
    ensures Resident(cfg, after)
  {
    assert after == before + [after[|before|]];
  }

  /** Between ticks, and where a process is lost. */
  ghost predicate Lodged(cfg: Config, o: Oracle, r: Step) {
    && Resident(cfg, r.world.attempts) && Past(o, r.world)
    && (if r.Running? then
          Housed(cfg, r.world.mem, r.world.arrived)
          || (!r.world.initialized && Adrift(r.world.mem, r.world.arrived) && cfg.minimumResidence <= cfg.retryCooldown)
        else Housed(cfg, r.world.disk, r.world.arrived) || Adrift(r.world.disk, r.world.arrived))
  }

  lemma SameHoused(cfg: Config, st: EgressState, later: EgressState, arrived: Option<int>)
    requires later.active == st.active && later.fallbackSince == st.fallbackSince && st.cooldownUntil <= later.cooldownUntil
    ensures Housed(cfg, st, arrived) ==> Housed(cfg, later, arrived)
  {
  }

  /** What a process may be lost with. */
  predicate Kept(cfg: Config, w: World) {
    Housed(cfg, w.disk, w.arrived) || Adrift(w.disk, w.arrived)
  }

  lemma RestoreHouses(cfg: Config, o: Oracle, w: World, now: int)
    requires cfg.Valid() && Clocked(o) && !w.mem.active.Foreign? && Past(o, w) && Kept(cfg, w)
    requires w.arrived.Some? ==> w.arrived.value <= now
    requires Housed(cfg, w.mem, w.arrived) || (Adrift(w.mem, w.arrived) && cfg.minimumResidence <= cfg.retryCooldown)
    ensures var r := Restore(cfg, o, w, now);
            && r.world.attempts == w.attempts
            && Past(o, r.world)
            && Kept(cfg, r.world)
            && (r.Running? ==> Housed(cfg, r.world.mem, r.world.arrived))
  {
    hide Emit;
    var routed := if w.route != w.mem.active then CallAdapter(o, w, w.mem.active) else Running(w);
    assert o(w.pos).now <= o(routed.world.pos).now;
    var leaving := LeaveTransit(cfg, routed.world, now);
    EmitLeaves(o, leaving, RestartRecovered, Ops);
    assert o(routed.world.pos).now <= o(Emit(o, leaving, RestartRecovered, Ops).world.pos).now;
  }

  lemma SampledSettled(cfg: Config, o: Oracle, x: World, now: int)
    requires cfg.Valid() && Clocked(o) && Steady(cfg, x) && now <= o(x.pos).now && Past(o, x)
    requires Housed(cfg, x.mem, x.arrived) && Resident(cfg, x.attempts) && Kept(cfg, x)
    ensures Lodged(cfg, o, SampleRoutes(cfg, o, x, now))
  {
    hide SampleRoutes, Resident;
    SampleRoutesResident(cfg, o, x, now);
    SampleRoutesHouses(cfg, o, x, now);
  }

  lemma FlushedKept(cfg: Config, w: World, after: World)
    requires Clean(w) && after.arrived == w.arrived
    requires Housed(cfg, w.mem, w.arrived) || Adrift(w.mem, w.arrived)
    requires after.disk == w.disk || after.disk == w.mem.(pending := after.disk.pending)
    ensures Kept(cfg, after)
  {
  }

  lemma TickResident(cfg: Config, o: Oracle, w: World)
    requires cfg.Valid() && Clocked(o) && Ready(cfg, w) && Punctual(o, w) && Lodged(cfg, o, Running(w))
    ensures Lodged(cfg, o, Tick(cfg, o, w))
  {
    hide FlushEvents, Restore, SampleRoutes, Housed, Resident;
    FlushKeeps(cfg, o, w);
    FlushLeaves(o, w);
    var flushed := FlushEvents(o, w);
    assert o(w.pos).now <= o(flushed.world.pos).now;
    SameHoused(cfg, w.mem, flushed.world.mem, w.arrived);
    FlushedKept(cfg, w, flushed.world);
    if flushed.Running? {
      var now := o(flushed.world.pos).now;
      var begun := flushed.world.(pos := flushed.world.pos + 1);
      assert now <= o(begun.pos).now;
      if !begun.initialized {
        RestoreKeeps(cfg, o, begun, now);
        RestoreHouses(cfg, o, begun, now);
        var restored := Restore(cfg, o, begun, now);
        if restored.Running? {
          assert now <= o(restored.world.pos).now;
          SampledSettled(cfg, o, restored.world, now);
        }
      } else if !TooSoon(cfg, begun.mem, now) {
        SampledSettled(cfg, o, begun, now);
      }
    }
  }

  /** The process lost here had stamped its arrival on the fallback, if the fallback is the route. */
  predicate LostStamped(w: World) {
    Stamped(w.disk, w.arrived)
  }

  lemma BootResident(cfg: Config, o: Oracle, w: World)
    requires Clocked(o) && Lodged(cfg, o, Died(w)) && !w.disk.active.Foreign?
    requires cfg.minimumResidence <= cfg.retryCooldown || LostStamped(w)
    ensures Lodged(cfg, o, Running(Boot(o, w)))
  {
    assert o(w.pos).now <= o(w.pos + 1).now;
  }

  lemma {:induction false} RunResident(cfg: Config, o: Oracle, n: nat)
    requires cfg.Valid() && Clocked(o)
    requires cfg.minimumResidence <= cfg.retryCooldown
             || forall k: nat :: k < n && Run(cfg, o, k).Died? ==> LostStamped(Run(cfg, o, k).world)
    ensures Lodged(cfg, o, Run(cfg, o, n))
  {
    hide Tick, Boot, Lodged;
    if n == 0 {
      StartResident(cfg, o);
    } else {
      RunResident(cfg, o, n - 1);
      RunKeeps(cfg, o, n - 1);
      var before := Run(cfg, o, n - 1);
      if before.Running? {
        TickResident(cfg, o, before.world);
      } else {
        BootResident(cfg, o, before.world);
      }
    }
  }

  lemma StartResident(cfg: Config, o: Oracle)
    requires Clocked(o)
    ensures Lodged(cfg, o, Running(Start(o)))
  {
  }

  /**
   The primary is not tried before the minimum residence since MAX last came to the fallback is over: in every run if the retry
   cooldown is no shorter, as by default, and otherwise in every run in which each lost process had stamped its arrival.
   */
  lemma ReturnsAfterResidence(cfg: Config, o: Oracle, n: nat, a: Attempt)
    requires cfg.Valid() && Clocked(o) && a in Run(cfg, o, n).world.attempts && a.target == Primary
    requires cfg.minimumResidence <= cfg.retryCooldown
             || forall k: nat :: k < n && Run(cfg, o, k).Died? ==> LostStamped(Run(cfg, o, k).world)
    ensures a.arrived.Some?
            && a.stamp - a.arrived.value >= cfg.minimumResidence
  {
    hide Run;
    RunResident(cfg, o, n);
  }
}
