/**
 A threshold no longer than the probe interval: any two failing samples of one process then make an outage long
 enough, so only its first tick can fail over on too little.
 */
module EgressThresholds {
  import opened Wrappers
  import opened EgressModel
  import opened EgressInvariants
  import opened EgressSteps
  import opened EgressFiles
  import opened EgressTicks
  import opened EgressRuns
  import opened EgressInheritance

  /** After a completed tick a failure timer in use was fed by the latest sample. */
  ghost predicate Fed(w: World) {
    w.mem.active == Primary && w.mem.failedSince.Some? ==>
      Failing(w.samples)
      && w.mem.lastProbeAt == Some(w.samples[|w.samples| - 1].at)
  }

  ghost predicate StillFed(r: Step) {
    r.Running? ==> Fed(r.world)
  }

  lemma PrimaryTickFeeds(cfg: Config, o: Oracle, w: World, now: int, primaryOk: bool)
    requires cfg.Valid() && Clocked(o) && Due(cfg, w, now) && w.mem.active == Primary && now <= o(w.pos).now
    ensures StillFed(TickOnPrimary(cfg, o, w, now, primaryOk))
  {
    hide Emit, PrimaryDown;
    TickOnPrimaryKeeps(cfg, o, w, now, primaryOk);
  }

  lemma FallbackTickFeeds(cfg: Config, o: Oracle, w: World, now: int, primaryOk: bool)
    requires cfg.Valid() && Clocked(o) && Due(cfg, w, now) && w.mem.active == Fallback && now <= o(w.pos).now
    requires Recovering(cfg, w) && (w.mem.healthySince.Some? ==> Close(cfg, w.samples, now))
    ensures StillFed(TickOnFallback(cfg, o, w, now, primaryOk))
  {
    hide TimeRecovery, Remind;
    var x := Sample(now, Fallback, primaryOk, false, false);
    var seen := Note(w, x).(mem := w.mem.(phase := OnFallback));
    NotedSteady(cfg, w, x);
    if primaryOk {
      SampleRecovers(cfg, w, x);
      TimeRecoveryKeeps(cfg, o, seen, now);
    }
    var moved := if primaryOk then TimeRecovery(cfg, o, seen, now)
                 else Running(seen.(mem := seen.mem.(healthySince := None)));
    if moved.Running? {
      RemindIdles(o, moved.world, now);
    }
  }

  lemma SampleRoutesFeeds(cfg: Config, o: Oracle, w: World, now: int)
    requires cfg.Valid() && Clocked(o) && Steady(cfg, w) && now <= o(w.pos).now
    requires (w.samples != [] ==> w.samples[|w.samples| - 1].at <= now) && Recovering(cfg, w)
    requires w.mem.healthySince.Some? ==> w.samples != [] && w.mem.lastProbeAt.Some?
    ensures StillFed(SampleRoutes(cfg, o, w, now))
  {
    hide TickOnPrimary, TickOnFallback, Fed;
    DueBySampling(cfg, w, now);
    if o(w.pos).survives {
      var due := BeginSampling(cfg, w, now).(pos := w.pos + 2);
      assert o(w.pos).now <= o(due.pos).now;
      if o(w.pos + 1).reauth {
        ReauthFeeds(due, Sample(now, due.mem.active, o(w.pos).ok, false, true));
      } else if due.mem.active == Primary {
        PrimaryTickFeeds(cfg, o, due, now, o(w.pos).ok);
      } else {
        FallbackTickFeeds(cfg, o, due, now, o(w.pos).ok);
      }
      SaveFeeds(o, Judged(cfg, o, due, now, o(w.pos).ok, o(w.pos + 1).reauth));
    }
  }

  lemma ReauthFeeds(w: World, x: Sample)
    ensures Fed(Note(w, x).(mem := BlockOnAuth(w.mem)))
  {
  }

  lemma SaveFeeds(o: Oracle, done: Step)
    requires StillFed(done)
    ensures StillFed(if done.Running? then Save(o, done.world) else done)
  {
  }

  /** Every completed tick of a process leaves its timer fed. */
  lemma TickFeeds(cfg: Config, o: Oracle, w: World)
    requires cfg.Valid() && Clocked(o) && Ready(cfg, w) && Punctual(o, w) && (w.initialized ==> Fed(w))
    ensures StillFed(Tick(cfg, o, w))
  {
    hide FlushEvents, Restore, SampleRoutes, Failing;
    FlushKeeps(cfg, o, w);
    var flushed := FlushEvents(o, w);
    assert o(w.pos).now <= o(flushed.world.pos).now;
    if flushed.Running? {
      var now := o(flushed.world.pos).now;
      var begun := flushed.world.(pos := flushed.world.pos + 1);
      assert now <= o(begun.pos).now;
      if !begun.initialized {
        RestoreKeeps(cfg, o, begun, now);
        var restored := Restore(cfg, o, begun, now);
        assert now <= o(restored.world.pos).now;
        if restored.Running? {
          SampleRoutesFeeds(cfg, o, restored.world, now);
        }
      } else if !TooSoon(cfg, begun.mem, now) {
        SampleRoutesFeeds(cfg, o, begun, now);
      }
    }
  }

  // --- a second failing sample is enough ---

  lemma TwoSamplesProve(cfg: Config, samples: seq<Sample>, x: Sample)
    requires Failing(samples) && Evidence(Fallback, x)
    requires cfg.failoverAfter <= x.at - samples[|samples| - 1].at <= 3 * cfg.probeInterval
    ensures Proven(cfg, samples + [x], 0, |samples| + 1, Fallback, cfg.failoverAfter)
  {
    assert Window(cfg, samples + [x], |samples| - 1, |samples| + 1, Fallback);
  }

  lemma ProvenOutage(cfg: Config, o: Oracle, w: World, now: int)
    requires cfg.Valid() && Clocked(o) && Steady(cfg, w) && w.mem.active == Primary && now <= o(w.pos).now
    requires w.mem.lastProbeAt == Some(now) && FailoversProven(cfg, w.attempts, w.samples)
    requires Proven(cfg, w.samples, 0, |w.samples|, Fallback, cfg.failoverAfter)
    ensures var after := PrimaryDown(cfg, o, w, now).world; FailoversProven(cfg, after.attempts, after.samples)
  {
    hide TellOutage, TryFailOver, Proven;
    var counted := w.(mem := CountFailure(w.mem, now));
    CountKeeps(cfg, w, now);
    TellOutageKeeps(cfg, o, counted);
    TellOutageCarries(o, counted);
    var told := TellOutage(o, counted);
    if told.Running? && MayFailOver(cfg, told.world.mem, now) {
      assert o(w.pos).now <= o(told.world.pos).now;
      TryFailOverKeeps(cfg, o, told.world, now);
      TriedKeeps(cfg, told.world, TryFailOver(cfg, o, told.world, now).world, Fallback);
    }
  }

  lemma SecondSample(cfg: Config, o: Oracle, w: World, now: int, primaryOk: bool)
    requires cfg.Valid() && Clocked(o) && Due(cfg, w, now) && w.mem.active == Primary && now <= o(w.pos).now
    requires FailoversProven(cfg, w.attempts, w.samples) && Failing(w.samples)
    requires cfg.failoverAfter <= now - w.samples[|w.samples| - 1].at <= 3 * cfg.probeInterval
    ensures var after := TickOnPrimary(cfg, o, w, now, primaryOk).world; FailoversProven(cfg, after.attempts, after.samples)
  {
    hide PrimaryUp, PrimaryDown;
    var x := Sample(now, Primary, primaryOk, !(primaryOk || o(w.pos).ready), false);
    var seen := Note(w, x).(pos := w.pos + 1);
    NotedSteady(cfg, w, x);
    if primaryOk || o(w.pos).ready {
      PrimaryUpKeeps(cfg, o, seen);
      assert Tracked(cfg, PrimaryUp(o, seen), false);
    } else {
      assert o(w.pos).now <= o(seen.pos).now;
      TwoSamplesProve(cfg, w.samples, x);
      ProvenOutage(cfg, o, seen, now);
    }
  }

  lemma SampleRoutesProves(cfg: Config, o: Oracle, w: World, now: int)
    requires cfg.Valid() && Clocked(o) && Steady(cfg, w) && now <= o(w.pos).now && Fed(w)
    requires (w.samples != [] ==> w.samples[|w.samples| - 1].at <= now) && Recovering(cfg, w)
    requires w.mem.healthySince.Some? ==> w.samples != [] && w.mem.lastProbeAt.Some?
    requires FailoversProven(cfg, w.attempts, w.samples) && cfg.failoverAfter <= cfg.probeInterval && !TooSoon(cfg, w.mem, now)
    ensures var after := SampleRoutes(cfg, o, w, now).world; FailoversProven(cfg, after.attempts, after.samples)
  {
    hide TickOnPrimary, TickOnFallback, Save, FailoversProven, Failing;
    if w.mem.active == Primary && AfterGap(cfg, w.mem, now).failedSince.None? {
      NotDueIsSafe(cfg, o, w, now);
    } else if o(w.pos).survives {
      DueBySampling(cfg, w, now);
      var due := BeginSampling(cfg, w, now).(pos := w.pos + 2);
      assert o(w.pos).now <= o(due.pos).now;
      if o(w.pos + 1).reauth {
        NotedSteady(cfg, due, Sample(now, due.mem.active, o(w.pos).ok, false, true));
      } else if w.mem.active == Primary {
        SecondSample(cfg, o, due, now, o(w.pos).ok);
      } else {
        TickOnFallbackTracks(cfg, o, due, now, o(w.pos).ok, false);
      }
      PoliceStays(cfg, o, due, now, o(w.pos).ok, o(w.pos + 1).reauth);
    }
  }

  /** A running process with such a threshold fails over on nothing but a long enough outage. */
  lemma TickProves(cfg: Config, o: Oracle, w: World)
    requires cfg.Valid() && Clocked(o) && Ready(cfg, w) && Punctual(o, w) && w.initialized && Fed(w)
    requires FailoversProven(cfg, w.attempts, w.samples) && cfg.failoverAfter <= cfg.probeInterval
    ensures var after := Tick(cfg, o, w).world; FailoversProven(cfg, after.attempts, after.samples)
  {
    hide FlushEvents, SampleRoutes, Failing;
    FlushKeeps(cfg, o, w);
    var flushed := FlushEvents(o, w);
    assert o(w.pos).now <= o(flushed.world.pos).now;
    if flushed.Running? {
      var now := o(flushed.world.pos).now;
      var begun := flushed.world.(pos := flushed.world.pos + 1);
      assert now <= o(begun.pos).now;
      if !TooSoon(cfg, begun.mem, now) {
        SampleRoutesProves(cfg, o, begun, now);
      }
    }
  }
}
