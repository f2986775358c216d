/**
 Whole ticks and whole runs: what holds after any number of ticks and restarts, for every environment.
 */
module EgressRuns {
  import opened Wrappers
  import opened EgressModel
  import opened EgressInvariants
  import opened EgressSteps
  import opened EgressFiles
  import opened EgressTicks

  function Note(w: World, x: Sample): World {
    w.(samples := w.samples + [x])
  }

  function DownAt(now: int): Sample {
    Sample(now, Primary, false, true, false)
  }

  /** A sample at `now` is about to be judged. */
  ghost predicate Due(cfg: Config, w: World, now: int) {
    && Durable(cfg, w)
    && Settled(w.mem)
    && Fifo(w)
    && w.route == w.mem.active
    && Covers(cfg, w.mem.cooldownUntil, w.attempts)
    && Backlog(w.mem.pending, w.mem.Id(), w.handed)
    && w.mem.lastProbeAt == Some(now)
    && (w.mem.failedSince.Some? ==> w.mem.failedSince.value <= now)
    && (w.samples != [] ==> w.samples[|w.samples| - 1].at <= now)
  }

  lemma NotedSteady(cfg: Config, w: World, x: Sample)
    requires Due(cfg, w, x.at)
    ensures Steady(cfg, Note(w, x))
    ensures FailoversProven(cfg, w.attempts, w.samples) ==> FailoversProven(cfg, w.attempts, w.samples + [x])
  {
    SampleKeeps(cfg, w, x);
  }

  lemma TickOnPrimaryKeeps(cfg: Config, o: Oracle, w: World, now: int, primaryOk: bool)
    requires cfg.Valid() && Clocked(o) && Due(cfg, w, now) && w.mem.active == Primary && now <= o(w.pos).now
    ensures var x := Sample(now, Primary, primaryOk, !(primaryOk || o(w.pos).ready), false);
            Policed(cfg, Note(w, x), TickOnPrimary(cfg, o, w, now, primaryOk))
  {
    hide PrimaryUp, PrimaryDown;
    var x := Sample(now, Primary, primaryOk, !(primaryOk || o(w.pos).ready), false);
    var seen := Note(w, x).(pos := w.pos + 1);
    NotedSteady(cfg, w, x);
    if primaryOk || o(w.pos).ready {
      PrimaryUpKeeps(cfg, o, seen);
    } else {
      assert o(w.pos).now <= o(seen.pos).now;
      PrimaryDownKeeps(cfg, o, seen, now);
    }
  }

  /** The timer will be supported if the sample fails, and so will the timer in the file if the process is lost then. */
  ghost predicate Owed(cfg: Config, w: World, now: int, exact: bool) {
    && Supported(cfg, CountFailure(w.mem, now), w.samples + [DownAt(now)], exact)
    && (exact || Grounded(cfg, w.disk, w.samples + [DownAt(now)], false))
  }

  lemma TickOnPrimaryTracks(cfg: Config, o: Oracle, w: World, now: int, primaryOk: bool, exact: bool)
    requires cfg.Valid() && Clocked(o) && Due(cfg, w, now) && w.mem.active == Primary && now <= o(w.pos).now
    requires FailoversProven(cfg, w.attempts, w.samples) && Owed(cfg, w, now, exact)
    ensures Tracked(cfg, TickOnPrimary(cfg, o, w, now, primaryOk), exact)
  {
    hide PrimaryUp, PrimaryDown, Supported, Grounded;
    var x := Sample(now, Primary, primaryOk, !(primaryOk || o(w.pos).ready), false);
    var seen := Note(w, x).(pos := w.pos + 1);
    NotedSteady(cfg, w, x);
    if primaryOk || o(w.pos).ready {
      PrimaryUpKeeps(cfg, o, seen);
    } else {
      assert o(w.pos).now <= o(seen.pos).now;
      PrimaryDownTracks(cfg, o, seen, now, exact);
    }
  }

  lemma TickOnFallbackKeeps(cfg: Config, o: Oracle, w: World, now: int, primaryOk: bool)
    requires cfg.Valid() && Clocked(o) && Due(cfg, w, now) && w.mem.active == Fallback && now <= o(w.pos).now
    requires Recovering(cfg, w) && (w.mem.healthySince.Some? ==> Close(cfg, w.samples, now))
    ensures Policed(cfg, Note(w, Sample(now, Fallback, primaryOk, false, false)), TickOnFallback(cfg, o, w, now, primaryOk))
  {
    hide TimeRecovery, Remind;
    var x := Sample(now, Fallback, primaryOk, false, false);
    var seen := Note(w, x).(mem := w.mem.(phase := OnFallback));
    NotedSteady(cfg, w, x);
    if primaryOk {
      SampleRecovers(cfg, w, x);
      TimeRecoveryKeeps(cfg, o, seen, now);
    }
    var moved := if primaryOk then TimeRecovery(cfg, o, seen, now)
                 else Running(seen.(mem := seen.mem.(healthySince := None)));
    if moved.Running? {
      RemindKeeps(cfg, o, moved.world, now);
    }
  }

  lemma TickOnFallbackTracks(cfg: Config, o: Oracle, w: World, now: int, primaryOk: bool, exact: bool)
    requires cfg.Valid() && Clocked(o) && Due(cfg, w, now) && w.mem.active == Fallback && now <= o(w.pos).now
    requires Recovering(cfg, w) && (w.mem.healthySince.Some? ==> Close(cfg, w.samples, now))
    requires FailoversProven(cfg, w.attempts, w.samples)
    ensures Tracked(cfg, TickOnFallback(cfg, o, w, now, primaryOk), exact)
  {
    hide TimeRecovery, Remind, Supported, Lapsed, Cooled;
    var x := Sample(now, Fallback, primaryOk, false, false);
    var seen := Note(w, x).(mem := w.mem.(phase := OnFallback));
    NotedSteady(cfg, w, x);
    if primaryOk {
      SampleRecovers(cfg, w, x);
      TimeRecoveryKeeps(cfg, o, seen, now);
      TriedKeeps(cfg, seen, TimeRecovery(cfg, o, seen, now).world, Primary);
    }
    var moved := if primaryOk then TimeRecovery(cfg, o, seen, now)
                 else Running(seen.(mem := seen.mem.(healthySince := None)));
    hide FailoversProven, Policed;
    if moved.Running? {
      RemindIdles(o, moved.world, now);
    }
  }

  /** Reminding changes nothing that a timer or an attempt depends on. */
  lemma RemindIdles(o: Oracle, w: World, now: int)
    ensures var after := Remind(o, w, now).world;
            && after.attempts == w.attempts
            && after.samples == w.samples
            && after.mem.active == w.mem.active
            && after.mem.failedSince == w.mem.failedSince
  {
    hide Emit;
    if o(w.pos).survives {
      EmitCarries(o, w.(pos := w.pos + 1, mem := w.mem.(lastReminderAt := now)), Reminder, Both);
    }
  }

  /** A good probe continues the window of a running recovery timer or can start a new one. */
  lemma SampleRecovers(cfg: Config, w: World, x: Sample)
    requires w.born <= |w.samples| && Recovering(cfg, w) && Evidence(Primary, x)
    requires w.mem.healthySince.Some? ==> Close(cfg, w.samples, x.at)
    ensures Recovering(cfg, Note(w, x).(mem := w.mem.(phase := OnFallback)))
    ensures Timed(cfg, w.samples + [x], |w.samples|, Primary, x.at)
  {
    TimedStarts(cfg, w.samples, x, Primary);
    if w.mem.healthySince.Some? {
      var from: nat :| w.born <= from && Timed(cfg, w.samples, from, Primary, w.mem.healthySince.value);
      TimedGrows(cfg, w.samples, x, from, Primary, w.mem.healthySince.value);
    }
  }

  lemma BlockOnAuthKeeps(cfg: Config, w: World, x: Sample)
    requires Due(cfg, w, x.at)
    ensures Durable(cfg, Note(w, x))
            && Steady(cfg, Note(w, x).(mem := BlockOnAuth(w.mem)))
    ensures FailoversProven(cfg, w.attempts, w.samples) ==> FailoversProven(cfg, w.attempts, w.samples + [x])
  {
    NotedSteady(cfg, w, x);
  }

  lemma PoliceKeeps(cfg: Config, o: Oracle, w: World, now: int, primaryOk: bool, reauth: bool)
    requires cfg.Valid() && Clocked(o) && Due(cfg, w, now) && now <= o(w.pos).now && w.initialized
    requires Recovering(cfg, w) && (w.mem.healthySince.Some? ==> Close(cfg, w.samples, now))
    ensures var r := Police(cfg, o, w, now, primaryOk, reauth);
            && Durable(cfg, r.world)
            && (r.Running? ==> Ready(cfg, r.world) && r.world.initialized)
            && w.pos <= r.world.pos && Punctual(o, r.world)
  {
    hide TickOnPrimary, TickOnFallback, Save;
    if reauth {
      BlockOnAuthKeeps(cfg, w, Sample(now, w.mem.active, primaryOk, false, true));
    } else if w.mem.active == Primary {
      TickOnPrimaryKeeps(cfg, o, w, now, primaryOk);
    } else {
      TickOnFallbackKeeps(cfg, o, w, now, primaryOk);
    }
    var done := Judged(cfg, o, w, now, primaryOk, reauth);
    assert o(w.pos).now <= o(done.world.pos).now;
    if done.Running? {
      SaveKeeps(cfg, o, done.world);
      assert o(w.pos).now <= o(done.world.pos + 1).now;
    }
  }

  /** A sampled tick up to its final save. */
  function Judged(cfg: Config, o: Oracle, w: World, now: int, primaryOk: bool, reauth: bool): Step
    requires cfg.Valid()
  {
    if reauth then
      Running(w.(mem := BlockOnAuth(w.mem), samples := w.samples + [Sample(now, w.mem.active, primaryOk, false, true)]))
    else if w.mem.active == Primary then TickOnPrimary(cfg, o, w, now, primaryOk)
    else TickOnFallback(cfg, o, w, now, primaryOk)
  }

  /** A process between ticks has only proven failovers behind it, and a grounded failure timer or a cooldown to come. */
  ghost predicate Watched(cfg: Config, w: World, exact: bool) {
    && FailoversProven(cfg, w.attempts, w.samples)
    && (Grounded(cfg, w.mem, w.samples, exact) || (!exact && !w.initialized && !Failing(w.samples) && Hushed(cfg, w.mem)))
  }

  /** A broken-off switch, whose restore starts a cooldown that outlasts the failover threshold. */
  predicate Hushed(cfg: Config, st: EgressState) {
    st.phase.InTransit() && cfg.failoverAfter <= cfg.retryCooldown
  }

  ghost predicate StillWatched(cfg: Config, r: Step, exact: bool) {
    && FailoversProven(cfg, r.world.attempts, r.world.samples)
    && (r.Running? ==> Watched(cfg, r.world, exact))
    && (Failing(r.world.samples) ==> exact || Grounded(cfg, r.world.disk, r.world.samples, false))
  }

  lemma PoliceTracks(cfg: Config, o: Oracle, w: World, now: int, primaryOk: bool, reauth: bool, exact: bool)
    requires cfg.Valid() && Clocked(o) && Due(cfg, w, now) && now <= o(w.pos).now
    requires Recovering(cfg, w) && (w.mem.healthySince.Some? ==> Close(cfg, w.samples, now))
    requires FailoversProven(cfg, w.attempts, w.samples) && (w.mem.active == Primary ==> Owed(cfg, w, now, exact))
    ensures StillWatched(cfg, Police(cfg, o, w, now, primaryOk, reauth), exact)
  {
    hide TickOnPrimary, TickOnFallback, Supported;
    if reauth {
      BlockOnAuthKeeps(cfg, w, Sample(now, w.mem.active, primaryOk, false, true));
    } else if w.mem.active == Primary {
      TickOnPrimaryTracks(cfg, o, w, now, primaryOk, exact);
    } else {
      TickOnFallbackTracks(cfg, o, w, now, primaryOk, exact);
    }
    SavedTracked(cfg, o, Judged(cfg, o, w, now, primaryOk, reauth), exact);
  }

  lemma SavedTracked(cfg: Config, o: Oracle, done: Step, exact: bool)
    requires Tracked(cfg, done, exact)
    requires done.Running? && Failing(done.world.samples) && !exact ==> Grounded(cfg, done.world.mem, done.world.samples, false)
    ensures StillWatched(cfg, if done.Running? then Save(o, done.world) else done, exact)
  {
    hide Supported;
  }

  /** What the timer is in just before a sample: grounded, or sure to be outlasted by the cooldown. */
  ghost predicate Expected(cfg: Config, w: World, now: int, exact: bool) {
    Grounded(cfg, w.mem, w.samples, exact) || (!exact && !Failing(w.samples) && now + cfg.failoverAfter <= w.mem.cooldownUntil)
  }

  lemma OwedBySampling(cfg: Config, w: World, now: int, exact: bool)
    requires Steady(cfg, w) && Clean(w) && w.mem.active == Primary && Expected(cfg, w, now, exact)
    requires w.samples != [] ==> w.samples[|w.samples| - 1].at <= now
    ensures Owed(cfg, BeginSampling(cfg, w, now), now, exact)
  {
    hide Supported, Lapsed;
    var st := AfterGap(cfg, w.mem, now);
    CountSupports(cfg, st, w.samples, DownAt(now), exact);
    CarriedSupported(cfg, CountFailure(st, now), CountFailure(st.(lastProbeAt := Some(now)), now), w.samples + [DownAt(now)], exact);
    if !exact {
      CleanGrounded(cfg, w, now);
    }
  }

  lemma CleanGrounded(cfg: Config, w: World, now: int)
    requires Storable(cfg, w.disk, w) && Clean(w) && w.mem.active == Primary && Expected(cfg, w, now, false)
    requires w.samples != [] ==> w.samples[|w.samples| - 1].at <= now
    ensures Grounded(cfg, w.disk, w.samples + [DownAt(now)], false)
  {
    if w.disk.failedSince.Some? {
      if Grounded(cfg, w.mem, w.samples, false) {
        CarriedGrounded(cfg, w.mem, w.disk, w.samples, false);
      }
      GroundedGrows(cfg, w.disk, w.samples, DownAt(now));
    }
  }

  lemma DueBySampling(cfg: Config, w: World, now: int)
    requires Steady(cfg, w) && (w.samples != [] ==> w.samples[|w.samples| - 1].at <= now)
    ensures Due(cfg, BeginSampling(cfg, w, now), now)
  {
  }

  lemma SampleRoutesKeeps(cfg: Config, o: Oracle, w: World, now: int)
    requires cfg.Valid() && Clocked(o) && Steady(cfg, w) && w.initialized && now <= o(w.pos).now
    requires (w.samples != [] ==> w.samples[|w.samples| - 1].at <= now) && Recovering(cfg, w)
    requires w.mem.healthySince.Some? ==> w.samples != [] && w.mem.lastProbeAt.Some?
    ensures var r := SampleRoutes(cfg, o, w, now);
            && Durable(cfg, r.world)
            && (r.Running? ==> Ready(cfg, r.world) && r.world.initialized)
            && w.pos <= r.world.pos && Punctual(o, r.world)
  {
    hide Police;
    DueBySampling(cfg, w, now);
    if o(w.pos).survives {
      assert o(w.pos).now <= o(w.pos + 2).now;
      PoliceKeeps(cfg, o, BeginSampling(cfg, w, now).(pos := w.pos + 2), now, o(w.pos).ok, o(w.pos + 1).reauth);
    }
  }

  lemma SampleRoutesTracks(cfg: Config, o: Oracle, w: World, now: int, exact: bool)
    requires cfg.Valid() && Clocked(o) && Steady(cfg, w) && now <= o(w.pos).now && Clean(w)
    requires (w.samples != [] ==> w.samples[|w.samples| - 1].at <= now) && Recovering(cfg, w)
    requires w.mem.healthySince.Some? ==> w.samples != [] && w.mem.lastProbeAt.Some?
    requires FailoversProven(cfg, w.attempts, w.samples) && Expected(cfg, w, now, exact)
    ensures StillWatched(cfg, SampleRoutes(cfg, o, w, now), exact)
  {
    hide Police, Supported;
    DueBySampling(cfg, w, now);
    if w.mem.active == Primary {
      OwedBySampling(cfg, w, now, exact);
    }
    if o(w.pos).survives {
      assert o(w.pos).now <= o(w.pos + 2).now;
      PoliceTracks(cfg, o, BeginSampling(cfg, w, now).(pos := w.pos + 2), now, o(w.pos).ok, o(w.pos + 1).reauth, exact);
    } else if !exact && Failing(w.samples) {
      CarriedGrounded(cfg, w.mem, w.disk, w.samples, false);
    }
  }

  lemma TickKeeps(cfg: Config, o: Oracle, w: World)
    requires cfg.Valid() && Clocked(o) && Ready(cfg, w) && Punctual(o, w)
    ensures var r := Tick(cfg, o, w);
            && Durable(cfg, r.world)
            && (r.Running? ==> Ready(cfg, r.world) && r.world.initialized)
            && Punctual(o, r.world)
  {
    hide FlushEvents, Restore, SampleRoutes;
    FlushKeeps(cfg, o, w);
    var flushed := FlushEvents(o, w);
    assert o(w.pos).now <= o(flushed.world.pos).now;
    if flushed.Running? {
      var now := o(flushed.world.pos).now;
      var begun := flushed.world.(pos := flushed.world.pos + 1);
      assert now <= o(begun.pos).now;
      if !begun.initialized {
        RestoreKeeps(cfg, o, begun, now);
        var restored := Restore(cfg, o, begun, now);
        assert now <= o(restored.world.pos).now;
        if restored.Running? {
          SampleRoutesKeeps(cfg, o, restored.world, now);
        }
      } else if !TooSoon(cfg, begun.mem, now) {
        SampleRoutesKeeps(cfg, o, begun, now);
      }
    }
  }

  /** One tick keeps a process watched, and the file of a process lost in it. */
  lemma TickTracks(cfg: Config, o: Oracle, w: World, exact: bool)
    requires cfg.Valid() && Clocked(o) && Ready(cfg, w) && Punctual(o, w) && Watched(cfg, w, exact)
    ensures StillWatched(cfg, Tick(cfg, o, w), exact)
  {
    hide FlushEvents, Restore, SampleRoutes, Supported;
    FlushKeeps(cfg, o, w);
    FlushCarries(o, w);
    var flushed := FlushEvents(o, w);
    assert o(w.pos).now <= o(flushed.world.pos).now;
    FlushTracks(cfg, w, flushed, exact);
    if flushed.Running? {
      var now := o(flushed.world.pos).now;
      var begun := flushed.world.(pos := flushed.world.pos + 1);
      assert now <= o(begun.pos).now;
      if !begun.initialized {
        RestoreKeeps(cfg, o, begun, now);
        RestoreTracks(cfg, o, begun, now, exact);
        var restored := Restore(cfg, o, begun, now);
        assert now <= o(restored.world.pos).now;
        if restored.Running? {
          SampleRoutesTracks(cfg, o, restored.world, now, exact);
        }
      } else if !TooSoon(cfg, begun.mem, now) {
        SampleRoutesTracks(cfg, o, begun, now, exact);
      }
    }
  }

  lemma FlushTracks(cfg: Config, w: World, r: Step, exact: bool)
    requires Ready(cfg, w) && Watched(cfg, w, exact) && Talked(w, r.world)
    requires Carries(w, r) && Stays(w, r)
    ensures StillWatched(cfg, r, exact)
  {
    hide Supported;
    CleanWatched(cfg, w, exact);
    if Grounded(cfg, w.mem, w.samples, exact) {
      CarriedGrounded(cfg, w.mem, r.world.mem, w.samples, exact);
    }
    if !exact && Failing(w.samples) && r.world.disk != w.disk {
      CarriedGrounded(cfg, w.mem, r.world.disk, w.samples, false);
    }
  }

  lemma CleanWatched(cfg: Config, w: World, exact: bool)
    requires Ready(cfg, w) && Watched(cfg, w, exact)
    ensures Failing(w.samples) ==> exact || Grounded(cfg, w.disk, w.samples, false)
  {
    hide Supported;
    if Failing(w.samples) && !exact {
      CarriedGrounded(cfg, w.mem, w.disk, w.samples, false);
    }
  }

  /** After a restore the timer is grounded, or the cooldown just begun outlasts it. */
  lemma RestoreTracks(cfg: Config, o: Oracle, w: World, now: int, exact: bool)
    requires cfg.Valid() && Loaded(cfg, w) && !w.initialized && Watched(cfg, w, exact)
    requires Failing(w.samples) ==> exact || Grounded(cfg, w.disk, w.samples, false)
    ensures var r := Restore(cfg, o, w, now);
            if r.Running? then FailoversProven(cfg, r.world.attempts, r.world.samples) && Expected(cfg, r.world, now, exact)
            else StillWatched(cfg, r, exact)
  {
    hide Supported, Restore, Lapsed, Cooled;
    RestoreKeeps(cfg, o, w, now);
    RestoreCarries(cfg, o, w, now);
    var r := Restore(cfg, o, w, now);
    if Grounded(cfg, w.mem, w.samples, exact) {
      if r.Running? {
        CarriedGrounded(cfg, w.mem, r.world.mem, w.samples, exact);
      }
    } else if r.Running? {
      RestoreCools(cfg, o, w, now);
    }
    if r.Died? && Failing(w.samples) && !exact && r.world.disk != w.disk {
      CarriedGrounded(cfg, w.mem, r.world.disk, w.samples, false);
    }
  }

  lemma BootKeeps(cfg: Config, o: Oracle, w: World)
    requires Durable(cfg, w) && Punctual(o, w) && Clocked(o)
    ensures Ready(cfg, Boot(o, w))
            && !Boot(o, w).initialized
            && Punctual(o, Boot(o, w))
  {
    assert o(w.pos).now <= o(w.pos + 1).now;
  }

  /**
   What the file and the samples of a lost process must show for the next process not to act on a timer that nothing
   backs: there is none, or it is not in use on the fallback, or it was still being fed, or the next sample resets it,
   or the cooldown outlasts it.
   */
  predicate Harmless(cfg: Config, w: World, exact: bool) {
    || w.disk.failedSince.None? || w.disk.active == Fallback
    || (!exact && (Failing(w.samples) || Lapsed(cfg, w.disk, w.samples) || Cooled(cfg, w.disk) || Hushed(cfg, w.disk)))
  }

  lemma BootTracks(cfg: Config, o: Oracle, w: World, exact: bool)
    requires Durable(cfg, w) && StillWatched(cfg, Died(w), exact) && Harmless(cfg, w, exact)
    ensures StillWatched(cfg, Running(Boot(o, w)), exact)
  {
    hide Supported;
    var mem := Load(w.disk);
    if Failing(w.samples) && !exact {
      CarriedGrounded(cfg, w.disk, mem, w.samples, false);
    }
  }
}
