/**
 The two windows the policy times, and the ticks that extend, reset and act on them.
 A window is a stretch of samples of the history that all speak for moving to the same route, with no monitoring gap
 between them. A timer in use is supported if a window began when it was started and reaches up to the latest sample;
 then a move that the timer allows is proven. The failure timer may also be inherited from a lost process: then it is
 grounded if a gap will reset it or the cooldown outlasts it.
 */
module EgressTicks {
  import opened Wrappers
  import opened EgressModel
  import opened EgressInvariants
  import opened EgressSteps
  import opened EgressFiles

  /** The latest samples, from `from` on, form an unbroken window that began at `since`. */
  ghost predicate Timed(cfg: Config, samples: seq<Sample>, from: nat, target: Route, since: int) {
    Window(cfg, samples, from, |samples|, target)
    && samples[from].at == since
  }

  /** The next sample, at `now`, comes soon enough to continue a window. */
  predicate Close(cfg: Config, samples: seq<Sample>, now: int) {
    samples != []
    && now - samples[|samples| - 1].at <= 3 * cfg.probeInterval
  }

  /** A running recovery timer is backed by good probes of the current process. */
  ghost predicate Recovering(cfg: Config, w: World) {
    w.mem.healthySince.Some? ==>
      exists from: nat :: w.born <= from && Timed(cfg, w.samples, from, Primary, w.mem.healthySince.value)
  }

  /** A failure timer is backed by exactly `failures` failing samples. */
  ghost predicate Counted(cfg: Config, st: EgressState, samples: seq<Sample>)
    requires st.failedSince.Some?
  {
    st.failures <= |samples| && Timed(cfg, samples, |samples| - st.failures, Fallback, st.failedSince.value)
  }

  /** Failing samples from `from` on began no later than the timer, or long enough before the cooldown ends. */
  ghost predicate Windowed(cfg: Config, st: EgressState, samples: seq<Sample>, from: nat)
    requires st.failedSince.Some?
  {
    && Window(cfg, samples, from, |samples|, Fallback)
    && (samples[from].at <= st.failedSince.value || samples[from].at + cfg.failoverAfter <= st.cooldownUntil)
  }

  /** What a failure timer needs to be acted on. `exact`: as in a process that was never lost with one. */
  ghost predicate Supported(cfg: Config, st: EgressState, samples: seq<Sample>, exact: bool)
    requires st.failedSince.Some?
  {
    if exact then Counted(cfg, st, samples) else exists from: nat :: Windowed(cfg, st, samples, from)
  }

  /** The latest sample came so long after the last probe the state knows of that the next one resets the timers. */
  predicate Lapsed(cfg: Config, st: EgressState, samples: seq<Sample>) {
    samples != []
    && st.lastProbeAt.Some?
    && samples[|samples| - 1].at - st.lastProbeAt.value > 3 * cfg.probeInterval
  }

  /** The cooldown outlasts every window that the next sample can begin without resetting the timers. */
  predicate Cooled(cfg: Config, st: EgressState) {
    st.lastProbeAt.Some?
    && st.lastProbeAt.value + 3 * cfg.probeInterval + cfg.failoverAfter <= st.cooldownUntil
  }

  /** A failure timer on the primary will not be acted on before it is backed. */
  ghost predicate Grounded(cfg: Config, st: EgressState, samples: seq<Sample>, exact: bool) {
    st.active == Primary && st.failedSince.Some? ==>
      Supported(cfg, st, samples, exact) || (!exact && (Lapsed(cfg, st, samples) || Cooled(cfg, st)))
  }

  /** The latest sample saw the primary failing and MAX not ready. */
  predicate Failing(samples: seq<Sample>) {
    samples != [] && Evidence(Fallback, samples[|samples| - 1])
  }

  ghost predicate FailoversProven(cfg: Config, attempts: seq<Attempt>, samples: seq<Sample>) {
    forall a :: a in attempts && a.target == Fallback ==>
      a.seen <= |samples|
      && Proven(cfg, samples, 0, a.seen, Fallback, cfg.failoverAfter)
  }

  /** Between ticks. */
  ghost predicate Ready(cfg: Config, w: World) {
    && Durable(cfg, w)
    && Storable(cfg, w.mem, w)
    && (w.initialized ==> Settled(w.mem))
    && Clean(w)
    && Fifo(w)
    && Recovering(cfg, w)
    && (w.mem.healthySince.Some? ==> w.mem.lastProbeAt.Some?)
    && (if w.initialized then w.route == w.mem.active && w.disk == w.mem else w.mem.healthySince.None?)
  }

  /** The clock has not run back behind the latest sample. */
  ghost predicate Punctual(o: Oracle, w: World) {
    w.samples != [] ==> w.samples[|w.samples| - 1].at <= o(w.pos).now
  }

  lemma WindowGrows(cfg: Config, samples: seq<Sample>, x: Sample, from: nat, to: nat, target: Route)
    requires Window(cfg, samples, from, to, target)
    ensures Window(cfg, samples + [x], from, to, target)
  {
  }

  lemma TimedGrows(cfg: Config, samples: seq<Sample>, x: Sample, from: nat, target: Route, since: int)
    requires Timed(cfg, samples, from, target, since) && Close(cfg, samples, x.at) && Evidence(target, x)
    ensures Timed(cfg, samples + [x], from, target, since)
  {
  }

  lemma TimedStarts(cfg: Config, samples: seq<Sample>, x: Sample, target: Route)
    requires Evidence(target, x)
    ensures Timed(cfg, samples + [x], |samples|, target, x.at)
  {
  }

  lemma ProvenGrows(cfg: Config, samples: seq<Sample>, x: Sample, floor: nat, to: nat, target: Route, span: int)
    requires Proven(cfg, samples, floor, to, target, span)
    ensures Proven(cfg, samples + [x], floor, to, target, span)
  {
    var from: nat :| floor <= from && Window(cfg, samples, from, to, target)
                     && samples[to - 1].at - samples[from].at >= span;
    WindowGrows(cfg, samples, x, from, to, target);
  }

  /** One more sample takes nothing away from the evidence of earlier attempts. */
  lemma SampleKeeps(cfg: Config, w: World, x: Sample)
    requires Durable(cfg, w) && (w.samples != [] ==> w.samples[|w.samples| - 1].at <= x.at)
    ensures Durable(cfg, w.(samples := w.samples + [x]))
    ensures FailoversProven(cfg, w.attempts, w.samples) ==> FailoversProven(cfg, w.attempts, w.samples + [x])
  {
    forall a | a in w.attempts && a.target == Primary
      ensures Proven(cfg, w.samples + [x], a.born, a.seen, Primary, cfg.recoveryStable)
    {
      ProvenGrows(cfg, w.samples, x, a.born, a.seen, Primary, cfg.recoveryStable);
    }
    if FailoversProven(cfg, w.attempts, w.samples) {
      forall a | a in w.attempts && a.target == Fallback
        ensures Proven(cfg, w.samples + [x], 0, a.seen, Fallback, cfg.failoverAfter)
      {
        ProvenGrows(cfg, w.samples, x, 0, a.seen, Fallback, cfg.failoverAfter);
      }
    }
  }

  /** A stage that reaches the adapter at most once, on evidence, keeps the failovers proven. */
  lemma TriedKeeps(cfg: Config, w: World, after: World, target: Route)
    requires TriedOnly(w, after, target) && FailoversProven(cfg, w.attempts, w.samples)
    requires target == Fallback ==> Proven(cfg, w.samples, 0, |w.samples|, Fallback, cfg.failoverAfter)
    ensures FailoversProven(cfg, after.attempts, after.samples)
  {
    if after.attempts != w.attempts {
      assert after.attempts == w.attempts + [after.attempts[|w.attempts|]];
    }
  }

  /** What one half of the policy leaves. */
  ghost predicate Policed(cfg: Config, w: World, r: Step) {
    && Durable(cfg, r.world)
    && r.world.samples == w.samples
    && r.world.born == w.born
    && r.world.initialized == w.initialized
    && r.world.mem.lastProbeAt == w.mem.lastProbeAt
    && w.pos <= r.world.pos
    && (r.Running? ==> Steady(cfg, r.world) && Recovering(cfg, r.world))
  }

  /** All failovers so far were proven, and the failure timer in memory, or one in the file of a failing process, is grounded. */
  ghost predicate Tracked(cfg: Config, r: Step, exact: bool) {
    && FailoversProven(cfg, r.world.attempts, r.world.samples)
    && (r.Running? ==> Grounded(cfg, r.world.mem, r.world.samples, exact))
    && (Failing(r.world.samples) ==> exact || Grounded(cfg, r.world.disk, r.world.samples, false))
  }

  lemma CarriedSupported(cfg: Config, st: EgressState, later: EgressState, samples: seq<Sample>, exact: bool)
    requires SameTimer(st, later) && st.failedSince.Some? && Supported(cfg, st, samples, exact)
    ensures Supported(cfg, later, samples, exact)
  {
    if !exact {
      var from: nat :| Windowed(cfg, st, samples, from);
      assert Windowed(cfg, later, samples, from);
    }
  }

  lemma CarriedGrounded(cfg: Config, st: EgressState, later: EgressState, samples: seq<Sample>, exact: bool)
    requires Carried(st, later) && (later.active == Primary ==> st.active == Primary) && Grounded(cfg, st, samples, exact)
    ensures Grounded(cfg, later, samples, exact)
  {
    if later.active == Primary && st.failedSince.Some? && Supported(cfg, st, samples, exact) {
      CarriedSupported(cfg, st, later, samples, exact);
    }
  }

  /** A failing sample leaves a grounded timer grounded: it continues the window, opens one, or comes too late. */
  lemma GroundedGrows(cfg: Config, st: EgressState, samples: seq<Sample>, x: Sample)
    requires Grounded(cfg, st, samples, false) || (st.failedSince.Some? && x.at + cfg.failoverAfter <= st.cooldownUntil)
    requires Probed(st, samples) && Evidence(Fallback, x) && (samples != [] ==> samples[|samples| - 1].at <= x.at)
    ensures Grounded(cfg, st, samples + [x], false)
  {
    if st.active == Primary && st.failedSince.Some? && !Lapsed(cfg, st, samples + [x]) && !Cooled(cfg, st) {
      SupportGrows(cfg, st, samples, x, false);
    }
  }

  /** A failing sample that comes soon enough for the state supports the timer further. */
  lemma SupportGrows(cfg: Config, st: EgressState, samples: seq<Sample>, x: Sample, exact: bool)
    requires st.active == Primary && st.failedSince.Some? && Probed(st, samples) && Evidence(Fallback, x)
    requires samples != [] ==> samples[|samples| - 1].at <= x.at
    requires x.at - st.lastProbeAt.value <= 3 * cfg.probeInterval
    requires Grounded(cfg, st, samples, exact) || (!exact && x.at + cfg.failoverAfter <= st.cooldownUntil)
    ensures Supported(cfg, st.(failures := st.failures + 1), samples + [x], exact)
    ensures !exact ==> Supported(cfg, st, samples + [x], false)
  {
    if exact {
      TimedGrows(cfg, samples, x, |samples| - st.failures, Fallback, st.failedSince.value);
    } else {
      var from: nat := |samples|;
      if x.at + cfg.failoverAfter <= st.cooldownUntil {
        TimedStarts(cfg, samples, x, Fallback);
      } else {
        from :| Windowed(cfg, st, samples, from);
        TimedGrows(cfg, samples, x, from, Fallback, samples[from].at);
      }
      assert Windowed(cfg, st, samples + [x], from);
      assert Windowed(cfg, st.(failures := st.failures + 1), samples + [x], from);
    }
  }

  /** After a failing sample is counted, the failure timer is supported. */
  lemma CountSupports(cfg: Config, st: EgressState, samples: seq<Sample>, x: Sample, exact: bool)
    requires st.active == Primary && (st.failedSince.None? <==> st.failures == 0) && Evidence(Fallback, x)
    requires st.failedSince.Some? ==>
               && Probed(st, samples) && (samples != [] ==> samples[|samples| - 1].at <= x.at)
               && x.at - st.lastProbeAt.value <= 3 * cfg.probeInterval
               && (Grounded(cfg, st, samples, exact) || (!exact && x.at + cfg.failoverAfter <= st.cooldownUntil))
    ensures Supported(cfg, CountFailure(st, x.at), samples + [x], exact)
  {
    if st.failedSince.Some? {
      SupportGrows(cfg, st, samples, x, exact);
      CarriedSupported(cfg, st.(failures := st.failures + 1), CountFailure(st, x.at), samples + [x], exact);
    } else {
      TimedStarts(cfg, samples, x, Fallback);
      if !exact {
        assert Windowed(cfg, CountFailure(st, x.at), samples + [x], |samples|);
      }
    }
  }

  lemma PrimaryUpKeeps(cfg: Config, o: Oracle, w: World)
    requires cfg.Valid() && Steady(cfg, w) && w.mem.active == Primary
    requires w.mem.phase.OnPrimary? || w.mem.phase.Waiting? || w.mem.phase.AuthBlocked?
    requires !Failing(w.samples)
    ensures var r := PrimaryUp(o, w);
            Policed(cfg, w, r) && forall exact :: FailoversProven(cfg, w.attempts, w.samples) ==> Tracked(cfg, r, exact)
  {
    hide Emit;
    if w.mem.announced && o(w.pos).ready {
      EmitKeeps(cfg, o, w.(pos := w.pos + 1), ShortRecovery, Ops);
    }
  }

  lemma CountKeeps(cfg: Config, w: World, now: int)
    requires Storable(cfg, w.mem, w) && Settled(w.mem) && w.mem.active == Primary && w.mem.lastProbeAt == Some(now)
    ensures var st := CountFailure(w.mem, now); Storable(cfg, st, w) && Settled(st)
  {
  }

  lemma TellOutageKeeps(cfg: Config, o: Oracle, w: World)
    requires Steady(cfg, w)
    ensures var r := TellOutage(o, w);
            && Durable(cfg, r.world)
            && Fifo(r.world)
            && Talked(w.(mem := r.world.mem), r.world)
            && r.world.mem == w.mem.(announced := r.world.mem.announced, sequence := r.world.mem.sequence,
                                     pending := r.world.mem.pending)
            && (r.Running? ==> Steady(cfg, r.world))
  {
    hide Emit;
    if w.mem.failures >= 2 && !w.mem.announced {
      EmitKeeps(cfg, o, w.(mem := w.mem.(announced := true)), Outage, Ops);
    }
  }

  lemma TryFailOverKeeps(cfg: Config, o: Oracle, w: World, now: int)
    requires cfg.Valid() && Clocked(o) && Steady(cfg, w) && w.mem.active == Primary && now <= o(w.pos).now
    requires MayFailOver(cfg, w.mem, now)
    ensures Policed(cfg, w, TryFailOver(cfg, o, w, now))
    ensures TriedOnly(w, TryFailOver(cfg, o, w, now).world, Fallback)
    ensures var r := TryFailOver(cfg, o, w, now);
            r.Running? ==> r.world.mem.failedSince == w.mem.failedSince && r.world.mem.failures == w.mem.failures
  {
    hide Switch, Emit;
    var probed := w.(pos := w.pos + 1);
    if o(w.pos).survives {
      if o(w.pos).ok {
        assert o(w.pos).now <= o(probed.pos).now;
        SwitchKeeps(cfg, o, probed, Fallback);
      } else {
        EmitKeeps(cfg, o, probed.(mem := w.mem.(cooldownUntil := now + cfg.retryCooldown)), BothUnavailable, Both);
      }
    }
  }

  /** A failover decided on a supported failure timer is itself proven. */
  lemma TryFailOverTracks(cfg: Config, o: Oracle, w: World, now: int, exact: bool)
    requires cfg.Valid() && Clocked(o) && Steady(cfg, w) && w.mem.active == Primary && now <= o(w.pos).now
    requires MayFailOver(cfg, w.mem, now) && Supported(cfg, w.mem, w.samples, exact)
    requires FailoversProven(cfg, w.attempts, w.samples)
    requires w.samples != [] && w.samples[|w.samples| - 1].at == now
    ensures var after := TryFailOver(cfg, o, w, now).world; FailoversProven(cfg, after.attempts, after.samples)
  {
    hide TryFailOver;
    TryFailOverKeeps(cfg, o, w, now);
    SupportedProves(cfg, w.mem, w.samples, now, exact);
    TriedKeeps(cfg, w, TryFailOver(cfg, o, w, now).world, Fallback);
  }

  lemma SupportedProves(cfg: Config, st: EgressState, samples: seq<Sample>, now: int, exact: bool)
    requires MayFailOver(cfg, st, now) && Supported(cfg, st, samples, exact)
    requires samples != [] && samples[|samples| - 1].at == now
    ensures Proven(cfg, samples, 0, |samples|, Fallback, cfg.failoverAfter)
  {
    var from: nat :| Window(cfg, samples, from, |samples|, Fallback) && now - samples[from].at >= cfg.failoverAfter;
  }

  lemma PrimaryDownKeeps(cfg: Config, o: Oracle, w: World, now: int)
    requires cfg.Valid() && Clocked(o) && Steady(cfg, w) && w.mem.active == Primary && now <= o(w.pos).now
    requires w.mem.lastProbeAt == Some(now)
    ensures Policed(cfg, w, PrimaryDown(cfg, o, w, now))
  {
    hide TellOutage, TryFailOver;
    var counted := w.(mem := CountFailure(w.mem, now));
    CountKeeps(cfg, w, now);
    TellOutageKeeps(cfg, o, counted);
    var told := TellOutage(o, counted);
    if told.Running? && MayFailOver(cfg, told.world.mem, now) {
      assert o(w.pos).now <= o(told.world.pos).now;
      TryFailOverKeeps(cfg, o, told.world, now);
    }
  }

  lemma PrimaryDownProves(cfg: Config, o: Oracle, w: World, now: int, exact: bool)
    requires cfg.Valid() && Clocked(o) && Steady(cfg, w) && w.mem.active == Primary && now <= o(w.pos).now
    requires w.mem.lastProbeAt == Some(now) && Supported(cfg, CountFailure(w.mem, now), w.samples, exact)
    requires FailoversProven(cfg, w.attempts, w.samples)
    requires w.samples != [] && w.samples[|w.samples| - 1].at == now
    ensures var after := PrimaryDown(cfg, o, w, now).world; FailoversProven(cfg, after.attempts, after.samples)
  {
    hide TellOutage, TryFailOver, Supported;
    var counted := w.(mem := CountFailure(w.mem, now));
    CountKeeps(cfg, w, now);
    TellOutageKeeps(cfg, o, counted);
    TellOutageCarries(o, counted);
    var told := TellOutage(o, counted);
    if told.Running? && MayFailOver(cfg, told.world.mem, now) {
      assert o(w.pos).now <= o(told.world.pos).now;
      CarriedSupported(cfg, counted.mem, told.world.mem, w.samples, exact);
      TryFailOverTracks(cfg, o, told.world, now, exact);
    }
  }

  /** An outage whose timer is supported is tracked wherever the tick ends. */
  lemma PrimaryDownTracks(cfg: Config, o: Oracle, w: World, now: int, exact: bool)
    requires cfg.Valid() && Clocked(o) && Steady(cfg, w) && w.mem.active == Primary && now <= o(w.pos).now
    requires w.mem.lastProbeAt == Some(now) && Supported(cfg, CountFailure(w.mem, now), w.samples, exact)
    requires FailoversProven(cfg, w.attempts, w.samples)
    requires w.samples != [] && w.samples[|w.samples| - 1].at == now
    requires exact || Grounded(cfg, w.disk, w.samples, false)
    ensures Tracked(cfg, PrimaryDown(cfg, o, w, now), exact)
  {
    hide WatchOutage, Supported, Failing;
    var counted := w.(mem := CountFailure(w.mem, now));
    PrimaryDownKeeps(cfg, o, w, now);
    PrimaryDownProves(cfg, o, w, now, exact);
    WatchOutageCarries(cfg, o, counted, now);
    var r := PrimaryDown(cfg, o, w, now);
    if r.Running? {
      CarriedSupported(cfg, counted.mem, r.world.mem, w.samples, exact);
    }
    if !exact && r.world.disk != w.disk {
      CarriedSupported(cfg, counted.mem, r.world.disk, w.samples, false);
    }
  }

  lemma StartRecoveryKeeps(cfg: Config, o: Oracle, w: World, now: int)
    requires Steady(cfg, w) && w.mem.active == Fallback
    ensures var r := StartRecovery(o, w, now);
            && Durable(cfg, r.world)
            && Fifo(r.world)
            && Talked(w.(mem := r.world.mem), r.world)
            && r.world.mem == w.mem.(healthySince := r.world.mem.healthySince, sequence := r.world.mem.sequence,
                                     pending := r.world.mem.pending)
            && r.world.mem.healthySince == Some(if w.mem.healthySince.Some? then w.mem.healthySince.value else now)
            && (r.Running? ==> Steady(cfg, r.world))
  {
    hide Emit;
    if w.mem.healthySince.None? {
      EmitKeeps(cfg, o, w.(mem := w.mem.(healthySince := Some(now))), RecoveryStarted, Ops);
    }
  }

  lemma ReturnKeeps(cfg: Config, o: Oracle, w: World, now: int)
    requires cfg.Valid() && Clocked(o) && Steady(cfg, w) && w.mem.active == Fallback && now <= o(w.pos).now
    requires MayReturn(cfg, w.mem, now) && Recovering(cfg, w)
    requires w.samples != [] && w.samples[|w.samples| - 1].at == now
    ensures var r := Switch(cfg, o, w, Primary);
            && Policed(cfg, w, r)
            && TriedOnly(w, r.world, Primary)
            && (r.Running? && r.world.mem.active == Primary ==> r.world.mem.failedSince.None?)
  {
    hide Switch;
    var from: nat :| w.born <= from && Timed(cfg, w.samples, from, Primary, w.mem.healthySince.value);
    assert Window(cfg, w.samples, from, |w.samples|, Primary);
    SwitchKeeps(cfg, o, w, Primary);
  }

  lemma TimeRecoveryKeeps(cfg: Config, o: Oracle, w: World, now: int)
    requires cfg.Valid() && Clocked(o) && Steady(cfg, w) && w.mem.active == Fallback && now <= o(w.pos).now
    requires Recovering(cfg, w)
    requires w.samples != [] && w.samples[|w.samples| - 1].at == now
    requires w.mem.healthySince.None? ==> w.born < |w.samples| && Timed(cfg, w.samples, |w.samples| - 1, Primary, now)
    ensures var r := TimeRecovery(cfg, o, w, now);
            && Policed(cfg, w, r)
            && TriedOnly(w, r.world, Primary)
            && (r.Running? && r.world.mem.active == Primary ==> r.world.mem.failedSince.None?)
  {
    hide StartRecovery, Switch;
    StartRecoveryKeeps(cfg, o, w, now);
    var timed := StartRecovery(o, w, now);
    if timed.Running? {
      if w.mem.healthySince.None? {
        assert Timed(cfg, timed.world.samples, |w.samples| - 1, Primary, timed.world.mem.healthySince.value);
      }
      if MayReturn(cfg, timed.world.mem, now) {
        assert o(w.pos).now <= o(timed.world.pos).now;
        ReturnKeeps(cfg, o, timed.world, now);
      }
    }
  }

  lemma RemindKeeps(cfg: Config, o: Oracle, w: World, now: int)
    requires Steady(cfg, w) && Recovering(cfg, w)
    ensures var r := Remind(o, w, now);
            && Policed(cfg, w, r)
            && r.world.attempts == w.attempts
            && r.world.mem.active == w.mem.active
            && r.world.mem.failedSince == w.mem.failedSince
            && r.world.mem.failures == w.mem.failures
  {
    hide Emit;
    var probed := w.(pos := w.pos + 1);
    if o(w.pos).survives && now - probed.mem.lastReminderAt >= 4 * 3600 {
      EmitKeeps(cfg, o, probed.(mem := probed.mem.(lastReminderAt := now)), Reminder, Both);
    }
  }
}
