/**
 When the first tick of a process can fail over on the failure timer its predecessor left, without an outage
 to back it: exactly when the file and the samples are `Ripe` for it.
 */
module EgressInheritance {
  import opened EgressModel
  import opened EgressInvariants
  import opened EgressSteps
  import opened EgressFiles
  import opened EgressTicks
  import opened EgressRuns
  import opened EgressTheorems
  import opened EgressScripts

  /** The earliest time at which the threshold and the cooldown let the timer in the file be acted on. */
  function FirstChance(cfg: Config, st: EgressState): int
    requires st.failedSince.Some?
  {
    Max(st.failedSince.value + cfg.failoverAfter, st.cooldownUntil)
  }

  /**
   The file has a timer in use, outside a switch; the latest sample was not failing; and there is a time, no earlier than that
   sample, at which the timer is not yet reset but old enough and out of cooldown.
   */
  predicate Ripe(cfg: Config, w: World) {
    && w.disk.active == Primary
    && w.disk.failedSince.Some?
    && w.disk.lastProbeAt.Some?
    && !w.disk.phase.InTransit()
    && w.samples != [] && !Failing(w.samples)
    && Max(FirstChance(cfg, w.disk), w.samples[|w.samples| - 1].at) <= w.disk.lastProbeAt.value + 3 * cfg.probeInterval
  }

  /** At `at` the primary fails and MAX is not ready, the fallback answers, and the process is lost inside the adapter. */
  function Hostile(at: int, route: Route, probe: nat): Oracle {
    (i: nat) => Answer(at, i == probe, false, false, false, i != probe + 6, route)
  }

  lemma HostileTick(cfg: Config, w: World, at: int, p: nat, probe: nat) returns (d: World)
    requires cfg.Valid() && Coherent(w.disk) && Ripe(cfg, w)
    requires FirstChance(cfg, w.disk) <= at <= w.disk.lastProbeAt.value + 3 * cfg.probeInterval
    requires p == w.pos + 1 + if w.disk.pending != [] then 1 else 0
    requires probe == p + if w.disk.announced then 4 else 7
    ensures Tick(cfg, Hostile(at, Primary, probe), Boot(Hostile(at, Primary, probe), w)) == Died(d)
    ensures d.samples == w.samples + [DownAt(at)]
    ensures exists a :: a in d.attempts && a.target == Fallback && a.seen == |w.samples| + 1
  {
    hide Switch, Police, Tick, Failing;
    var o := Hostile(at, Primary, probe);
    var s := FirstTickSamples(cfg, o, Boot(o, w), p);
    var told := FailsOver(cfg, o, s, at);
    d := SwitchDies(cfg, o, told, Fallback);
    assert d.attempts[|told.attempts|] in d.attempts;
  }

  lemma RipeFailsOver(cfg: Config, w: World)
    requires cfg.Valid() && Durable(cfg, w) && Ripe(cfg, w)
    ensures exists o: Oracle :: Clocked(o) && Punctual(o, w) && FailsUnproven(cfg, o, w)
  {
    hide Tick, Boot;
    var at := Max(FirstChance(cfg, w.disk), w.samples[|w.samples| - 1].at);
    var p: nat := w.pos + 1 + if w.disk.pending != [] then 1 else 0;
    var probe: nat := p + if w.disk.announced then 4 else 7;
    var o := Hostile(at, Primary, probe);
    var d := HostileTick(cfg, w, at, p, probe);
    OneSampleProvesNothing(cfg, w.samples, DownAt(at));
    assert Clocked(o) && Punctual(o, w) && FailsUnproven(cfg, o, w);
  }

  ghost predicate FailsUnproven(cfg: Config, o: Oracle, w: World)
    requires cfg.Valid()
  {
    var after := Tick(cfg, o, Boot(o, w)).world;
    !FailoversProven(cfg, after.attempts, after.samples)
  }

  lemma OneSampleProvesNothing(cfg: Config, samples: seq<Sample>, x: Sample)
    requires cfg.Valid() && !Failing(samples)
    ensures !Proven(cfg, samples + [x], 0, |samples| + 1, Fallback, cfg.failoverAfter)
  {
    if from: nat :| Window(cfg, samples + [x], from, |samples| + 1, Fallback)
                    && x.at - (samples + [x])[from].at >= cfg.failoverAfter {
      assert Evidence(Fallback, (samples + [x])[|samples| - 1]);
    }
  }

  // --- nothing but a ripe file lets the first tick do so ---

  lemma NotDueNotTried(cfg: Config, o: Oracle, w: World, now: int, primaryOk: bool)
    requires cfg.Valid() && !MayFailOver(cfg, CountFailure(w.mem, now), now)
    ensures TickOnPrimary(cfg, o, w, now, primaryOk).world.attempts == w.attempts
  {
    hide Emit, TryFailOver;
    var x := Sample(now, w.mem.active, primaryOk, !(primaryOk || o(w.pos).ready), false);
    var seen := w.(pos := w.pos + 1, samples := w.samples + [x]);
    if primaryOk || o(w.pos).ready {
      EmitCarries(o, seen.(pos := seen.pos + 1), ShortRecovery, Ops);
    } else {
      TellOutageCarries(o, seen.(mem := CountFailure(w.mem, now)));
    }
  }

  /** A sample on the primary at which the timer may not be acted on proves nothing and needs no proof. */
  lemma NotDueJudged(cfg: Config, o: Oracle, w: World, now: int, primaryOk: bool, reauth: bool)
    requires cfg.Valid() && Clocked(o) && Due(cfg, w, now) && w.mem.active == Primary && now <= o(w.pos).now
    requires FailoversProven(cfg, w.attempts, w.samples) && !MayFailOver(cfg, CountFailure(w.mem, now), now)
    ensures var after := Judged(cfg, o, w, now, primaryOk, reauth).world; FailoversProven(cfg, after.attempts, after.samples)
  {
    hide TickOnPrimary, Due;
    var x := if reauth then Sample(now, Primary, primaryOk, false, true)
             else Sample(now, Primary, primaryOk, !(primaryOk || o(w.pos).ready), false);
    NotedSteady(cfg, w, x);
    if !reauth {
      TickOnPrimaryKeeps(cfg, o, w, now, primaryOk);
      NotDueNotTried(cfg, o, w, now, primaryOk);
    }
  }

  lemma NotDueIsSafe(cfg: Config, o: Oracle, w: World, now: int)
    requires cfg.Valid() && Clocked(o) && Steady(cfg, w) && w.mem.active == Primary && now <= o(w.pos).now
    requires (w.samples != [] ==> w.samples[|w.samples| - 1].at <= now) && FailoversProven(cfg, w.attempts, w.samples)
    requires !MayFailOver(cfg, CountFailure(AfterGap(cfg, w.mem, now), now), now)
    ensures var after := SampleRoutes(cfg, o, w, now).world; FailoversProven(cfg, after.attempts, after.samples)
  {
    hide TickOnPrimary, Save, Judged, FailoversProven;
    DueBySampling(cfg, w, now);
    if o(w.pos).survives {
      var due := BeginSampling(cfg, w, now).(pos := w.pos + 2);
      assert o(w.pos).now <= o(due.pos).now;
      NotDueJudged(cfg, o, due, now, o(w.pos).ok, o(w.pos + 1).reauth);
      PoliceStays(cfg, o, due, now, o(w.pos).ok, o(w.pos + 1).reauth);
    }
  }

  lemma PoliceStays(cfg: Config, o: Oracle, w: World, now: int, primaryOk: bool, reauth: bool)
    requires cfg.Valid()
    ensures var after, judged := Police(cfg, o, w, now, primaryOk, reauth).world, Judged(cfg, o, w, now, primaryOk, reauth).world;
            after.samples == judged.samples
            && after.attempts == judged.attempts
  {
    hide TickOnPrimary, TickOnFallback;
  }

  /** What an unripe file keeps the next process from acting on. */
  lemma UnripeNotDue(cfg: Config, w: World, mem: EgressState, now: int)
    requires cfg.Valid() && Probed(w.disk, w.samples) && !Ripe(cfg, w) && !Failing(w.samples)
    requires w.disk.active == Primary && w.disk.failedSince.Some? && w.samples[|w.samples| - 1].at <= now
    requires Carried(w.disk, mem) && (w.disk.phase.InTransit() ==> now < mem.cooldownUntil)
    ensures !MayFailOver(cfg, CountFailure(AfterGap(cfg, mem, now), now), now)
  {
  }

  lemma UnripeIsSafe(cfg: Config, o: Oracle, w: World)
    requires cfg.Valid() && Clocked(o) && Punctual(o, w) && Durable(cfg, w) && StillWatched(cfg, Died(w), false)
    requires !Ripe(cfg, w)
    ensures !FailsUnproven(cfg, o, w)
  {
    hide Tick, Ripe, Harmless, StillWatched;
    BootKeeps(cfg, o, w);
    if Harmless(cfg, w, false) {
      BootTracks(cfg, o, w, false);
      StillWatchedBoot(cfg, o, w);
      TickTracks(cfg, o, Boot(o, w), false);
      StillWatchedProven(cfg, Tick(cfg, o, Boot(o, w)));
    } else {
      StillWatchedProven(cfg, Died(w));
      HarmfulIsInUse(cfg, w);
      UnripeTick(cfg, o, w);
    }
  }

  lemma StillWatchedBoot(cfg: Config, o: Oracle, w: World)
    requires StillWatched(cfg, Running(Boot(o, w)), false)
    ensures Watched(cfg, Boot(o, w), false)
  {
  }

  lemma StillWatchedProven(cfg: Config, r: Step)
    requires StillWatched(cfg, r, false)
    ensures FailoversProven(cfg, r.world.attempts, r.world.samples)
  {
  }

  lemma HarmfulIsInUse(cfg: Config, w: World)
    requires Durable(cfg, w) && !Harmless(cfg, w, false)
    ensures w.disk.active == Primary
            && w.disk.failedSince.Some?
            && !Failing(w.samples)
  {
  }

  lemma UnripeTick(cfg: Config, o: Oracle, w: World)
    requires cfg.Valid() && Clocked(o) && Punctual(o, w) && Durable(cfg, w)
    requires !Ripe(cfg, w) && w.disk.active == Primary && w.disk.failedSince.Some? && !Failing(w.samples)
    requires FailoversProven(cfg, w.attempts, w.samples)
    ensures !FailsUnproven(cfg, o, w)
  {
    hide FlushEvents, Restore, SampleRoutes, Ripe, Failing;
    var boot := Boot(o, w);
    BootKeeps(cfg, o, w);
    FlushKeeps(cfg, o, boot);
    FlushCarries(o, boot);
    var flushed := FlushEvents(o, boot);
    assert o(w.pos).now <= o(flushed.world.pos).now;
    if flushed.Running? {
      var now := o(flushed.world.pos).now;
      var begun := flushed.world.(pos := flushed.world.pos + 1);
      RestoreKeeps(cfg, o, begun, now);
      RestoreCarries(cfg, o, begun, now);
      var restored := Restore(cfg, o, begun, now);
      if restored.Running? {
        assert now <= o(restored.world.pos).now;
        if w.disk.phase.InTransit() {
          RestoreCools(cfg, o, begun, now);
        }
        UnripeNotDue(cfg, w, restored.world.mem, now);
        NotDueIsSafe(cfg, o, restored.world, now);
      }
    }
  }

  /**
   After a run whose failovers were all backed, the first tick of the next process can fail over unbacked, in some
   environment, if and only if the lost process left a ripe file.
   */
  lemma FirstTickFailsOverUnbackedIffRipe(cfg: Config, w: World)
    requires cfg.Valid() && Durable(cfg, w) && StillWatched(cfg, Died(w), false)
    ensures (exists o: Oracle :: Clocked(o) && Punctual(o, w) && FailsUnproven(cfg, o, w)) <==> Ripe(cfg, w)
  {
    hide Durable, StillWatched, FailsUnproven, Ripe;
    if Ripe(cfg, w) {
      RipeFailsOver(cfg, w);
    }
    forall o: Oracle | Clocked(o) && Punctual(o, w) && !Ripe(cfg, w)
      ensures !FailsUnproven(cfg, o, w)
    {
      UnripeIsSafe(cfg, o, w);
    }
  }

  /** The same of a process lost in a run: whether its successor can fail over unbacked at once shows in the file and the samples. */
  lemma RestartFailsOverUnbackedIffRipe(cfg: Config, o: Oracle, n: nat)
    requires cfg.Valid() && Clocked(o) && Calm(cfg, o, n, false) && Run(cfg, o, n).Died?
    ensures var w := Run(cfg, o, n).world;
            (exists next: Oracle :: Clocked(next) && Punctual(next, w) && FailsUnproven(cfg, next, w)) <==> Ripe(cfg, w)
  {
    hide Run, FailsUnproven, Ripe;
    RunKeeps(cfg, o, n);
    RunWatched(cfg, o, n, false);
    FirstTickFailsOverUnbackedIffRipe(cfg, Run(cfg, o, n).world);
  }
}
