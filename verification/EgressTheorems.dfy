/**
 The promises of the egress policy over every run: any number of ticks, any environment, and the
 process lost at any interaction and restarted from its file.
 */
module EgressTheorems {
  import opened Wrappers
  import opened EgressModel
  import opened EgressInvariants
  import opened EgressTicks
  import opened EgressRuns

  lemma {:induction false} RunKeeps(cfg: Config, o: Oracle, n: nat)
    requires cfg.Valid() && Clocked(o)
    ensures var r := Run(cfg, o, n);
            Durable(cfg, r.world)
            && (r.Running? ==> Ready(cfg, r.world))
            && Punctual(o, r.world)
  {
    hide Tick, Boot;
    if n == 0 {
      BootKeeps(cfg, o, World(FRESH, FRESH, Primary, false, 0, [], [], [], 0, [], [], None));
    } else {
      RunKeeps(cfg, o, n - 1);
      var before := Run(cfg, o, n - 1);
      if before.Running? {
        TickKeeps(cfg, o, before.world);
      } else {
        BootKeeps(cfg, o, before.world);
      }
    }
  }

  /** After a completed tick: one story in memory, the same story on disk, and the adapter on that route. */
  lemma CompletedTickAgrees(cfg: Config, o: Oracle, n: nat)
    requires cfg.Valid() && Clocked(o) && Run(cfg, o, n).Running? && Tick(cfg, o, Run(cfg, o, n).world).Running?
    ensures var w := Tick(cfg, o, Run(cfg, o, n).world).world;
            && w.mem.active == w.route
            && w.disk == w.mem
            && w.mem.deadline.None? && !w.mem.phase.InTransit()
            && (w.mem.phase.AuthBlocked? || (w.mem.phase.OnFallback? <==> w.mem.active == Fallback))
            && (w.mem.active == Primary ==> w.mem.healthySince.None?)
            && (w.mem.failedSince.None? <==> w.mem.failures == 0)
  {
    hide Tick;
    RunKeeps(cfg, o, n);
    TickKeeps(cfg, o, Run(cfg, o, n).world);
  }

  /** Wherever the run stops, even in the middle of a switch, the file left behind is coherent. */
  lemma FileAlwaysCoherent(cfg: Config, o: Oracle, n: nat)
    requires cfg.Valid() && Clocked(o)
    ensures var file := Run(cfg, o, n).world.disk;
            && (file.deadline.Some? <==> file.phase in {Switching, Returning, RollingBack})
            && (file.phase in {OnPrimary, Waiting} ==> file.active == Primary)
            && (file.phase.OnFallback? ==> file.active == Fallback)
            && file.active in {Primary, Fallback}
            && (file.failedSince.None? <==> file.failures == 0)
  {
    hide Run;
    RunKeeps(cfg, o, n);
  }

  /** Across all ticks and crashes, attempts are a full cooldown apart, hence rare in any span. */
  lemma AttemptRate(cfg: Config, o: Oracle, n: nat, lo: int, span: nat)
    requires cfg.Valid() && Clocked(o)
    ensures var stamps := Stamps(Run(cfg, o, n).world.attempts);
            && (forall i, j :: 0 <= i < j < |stamps| ==> stamps[j] - stamps[i] >= cfg.retryCooldown)
            && |Rates.Within(stamps, lo, lo + span)| <= span / cfg.retryCooldown + 1
  {
    hide Run;
    RunKeeps(cfg, o, n);
    Rates.RateBound(Stamps(Run(cfg, o, n).world.attempts), cfg.retryCooldown, lo, span);
  }

  /** A window cannot be long on few samples: its gaps are bounded. */
  lemma {:induction false} WindowNeedsSamples(cfg: Config, samples: seq<Sample>, from: nat, to: nat, target: Route)
    requires Window(cfg, samples, from, to, target)
    ensures samples[to - 1].at - samples[from].at <= (to - from - 1) * (3 * cfg.probeInterval)
  {
    if from + 1 < to {
      WindowNeedsSamples(cfg, samples, from, to - 1, target);
      var gap := 3 * cfg.probeInterval;
      assert (to - from - 1) * gap == (to - 1 - from - 1) * gap + gap;
    }
  }

  /** Samples `from` to `to` all speak for `target`, cover `span` seconds without a gap, and are many enough. */
  ghost predicate Backed(cfg: Config, samples: seq<Sample>, from: nat, to: nat, target: Route, span: nat)
    requires cfg.Valid()
  {
    && Window(cfg, samples, from, to, target)
    && samples[to - 1].at - samples[from].at >= span
    && to - from >= 1 + Rates.Ceiling(span, 3 * cfg.probeInterval)
  }

  lemma ProvenIsBacked(cfg: Config, samples: seq<Sample>, floor: nat, to: nat, target: Route, span: nat)
    requires cfg.Valid() && Proven(cfg, samples, floor, to, target, span)
    ensures exists from: nat :: floor <= from && Backed(cfg, samples, from, to, target, span)
  {
    var from: nat :| floor <= from && Window(cfg, samples, from, to, target)
                     && samples[to - 1].at - samples[from].at >= span;
    WindowNeedsSamples(cfg, samples, from, to, target);
    Rates.CeilingBound(span, 3 * cfg.probeInterval, to - from - 1);
    assert Backed(cfg, samples, from, to, target, span);
  }

  /** Every return to the primary, crashes or not, follows a stable recovery seen by the deciding process. */
  lemma ReturnsBacked(cfg: Config, o: Oracle, n: nat, a: Attempt)
    requires cfg.Valid() && Clocked(o) && a in Run(cfg, o, n).world.attempts && a.target == Primary
    ensures exists from: nat :: a.born <= from
              && Backed(cfg, Run(cfg, o, n).world.samples, from, a.seen, Primary, cfg.recoveryStable)
  {
    hide Run;
    RunKeeps(cfg, o, n);
    ProvenIsBacked(cfg, Run(cfg, o, n).world.samples, a.born, a.seen, Primary, cfg.recoveryStable);
  }

  /** Every process of the run that was lost left a harmless file behind. */
  ghost predicate Calm(cfg: Config, o: Oracle, n: nat, exact: bool)
    requires cfg.Valid()
  {
    forall k: nat :: k < n && Run(cfg, o, k).Died? ==> Harmless(cfg, Run(cfg, o, k).world, exact)
  }

  /** In a calm run every failure timer that is acted on is backed; by exactly `failures` samples if none was ever lost. */
  lemma {:induction false} RunWatched(cfg: Config, o: Oracle, n: nat, exact: bool)
    requires cfg.Valid() && Clocked(o) && Calm(cfg, o, n, exact)
    ensures StillWatched(cfg, Run(cfg, o, n), exact)
  {
    hide Tick, Boot;
    if n == 0 {
      BootTracks(cfg, o, World(FRESH, FRESH, Primary, false, 0, [], [], [], 0, [], [], None), exact);
    } else {
      RunWatched(cfg, o, n - 1, exact);
      RunKeeps(cfg, o, n - 1);
      var before := Run(cfg, o, n - 1);
      if before.Running? {
        TickTracks(cfg, o, before.world, exact);
      } else {
        BootTracks(cfg, o, before.world, exact);
      }
    }
  }

  /** In a calm run, a crash-free one above all, every failover follows an unbroken outage. */
  lemma FailoversBacked(cfg: Config, o: Oracle, n: nat, a: Attempt)
    requires cfg.Valid() && Clocked(o) && Calm(cfg, o, n, false)
    requires a in Run(cfg, o, n).world.attempts && a.target == Fallback
    ensures exists from: nat ::
              Backed(cfg, Run(cfg, o, n).world.samples, from, a.seen, Fallback, cfg.failoverAfter)
  {
    hide Run;
    RunWatched(cfg, o, n, false);
    ProvenIsBacked(cfg, Run(cfg, o, n).world.samples, 0, a.seen, Fallback, cfg.failoverAfter);
  }

  /** If no process was lost with a timer in use, the timer on the primary counts exactly the samples of its outage. */
  lemma TimerCountsSamples(cfg: Config, o: Oracle, n: nat)
    requires cfg.Valid() && Clocked(o) && Calm(cfg, o, n, true) && Run(cfg, o, n).Running?
    requires Run(cfg, o, n).world.mem.active == Primary && Run(cfg, o, n).world.mem.failedSince.Some?
    ensures var w := Run(cfg, o, n).world;
            && Counted(cfg, w.mem, w.samples)
            && w.mem.lastProbeAt.Some?
            && w.mem.lastProbeAt.value - w.mem.failedSince.value <= (w.mem.failures - 1) * (3 * cfg.probeInterval)
  {
    hide Run;
    RunKeeps(cfg, o, n);
    RunWatched(cfg, o, n, true);
    var w := Run(cfg, o, n).world;
    WindowNeedsSamples(cfg, w.samples, |w.samples| - w.mem.failures, |w.samples|, Fallback);
  }

  /**
   The timer that a lost process leaves on the primary is backed by a window up to the latest sample exactly if that
   sample was failing, unless the next sample will reset it or the cooldown outlasts it.
   */
  lemma InheritedTimer(cfg: Config, o: Oracle, n: nat)
    requires cfg.Valid() && Clocked(o) && Calm(cfg, o, n, false) && Run(cfg, o, n).Died?
    requires Run(cfg, o, n).world.disk.active == Primary && Run(cfg, o, n).world.disk.failedSince.Some?
    ensures var w := Run(cfg, o, n).world;
            !Lapsed(cfg, w.disk, w.samples) && !Cooled(cfg, w.disk) ==>
              (Failing(w.samples) <==> exists from: nat :: Windowed(cfg, w.disk, w.samples, from))
  {
    hide Run;
    RunWatched(cfg, o, n, false);
  }

  /** An id handed to the notifier names one event for ever, and new ids only grow, across all crashes. */
  lemma EventIdsNameOneEvent(cfg: Config, o: Oracle, n: nat, i: nat, j: nat)
    requires cfg.Valid() && Clocked(o) && i <= j < |Run(cfg, o, n).world.handed|
    ensures var handed := Run(cfg, o, n).world.handed;
            && (handed[i].id == handed[j].id ==> handed[i] == handed[j])
            && (handed[i].id != handed[j].id ==> Less(handed[i].id, handed[j].id))
  {
    hide Run;
    RunKeeps(cfg, o, n);
  }

  /** Within one process no event is lost, invented or reordered between emission and acceptance. */
  lemma EventsAreFifo(cfg: Config, o: Oracle, n: nat)
    requires cfg.Valid() && Clocked(o) && Run(cfg, o, n).Running?
    ensures var w := Run(cfg, o, n).world; w.lifeAccepted + w.mem.pending == w.lifeEmitted
  {
    hide Run;
    RunKeeps(cfg, o, n);
  }
}
