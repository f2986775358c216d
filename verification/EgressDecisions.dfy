/**
 What a tick decides, for every environment: which route it tries and when, what it leaves in memory, and what it
 tells the operators.
 */
module EgressDecisions {
  import opened Wrappers
  import opened EgressModel
  import opened EgressInvariants
  import opened EgressSteps
  import opened EgressFiles
  import opened EgressTicks
  import opened EgressRuns
  import opened EgressSwitching

  // --- where a tick takes its sample ---

  /** The process, and the time, at which a tick reads its probe of the primary, if it gets there. */
  function ToSample(cfg: Config, o: Oracle, w: World): Option<(World, int)> {
    match FlushEvents(o, w)
    case Died(_) => None
    case Running(flushed) =>
      var now := o(flushed.pos).now;
      var begun := flushed.(pos := flushed.pos + 1);
      if begun.initialized then
        if begun.mem.lastProbeAt.Some? && now - begun.mem.lastProbeAt.value < cfg.probeInterval then None else Some((begun, now))
      else
        match Restore(cfg, o, begun, now)
        case Died(_) => None
        case Running(restored) => Some((restored, now))
  }

  /** A tick that gets to its sample has tried nothing yet, and goes on from there. */
  lemma SampleReached(cfg: Config, o: Oracle, w: World)
    requires cfg.Valid() && Clocked(o) && Ready(cfg, w) && Punctual(o, w) && ToSample(cfg, o, w).Some?
    ensures var (x, now) := ToSample(cfg, o, w).value;
            && Tick(cfg, o, w) == SampleRoutes(cfg, o, x, now)
            && Steady(cfg, x)
            && x.initialized
            && now <= o(x.pos).now
            && (x.samples != [] ==> x.samples[|x.samples| - 1].at <= now)
            && Recovering(cfg, x)
            && (x.mem.healthySince.Some? ==> x.samples != [] && x.mem.lastProbeAt.Some?)
            && x.attempts == w.attempts
            && x.mem.active == w.mem.active
            && x.mem.failedSince == w.mem.failedSince
            && x.mem.failures == w.mem.failures
            && x.mem.lastProbeAt == w.mem.lastProbeAt
            && x.mem.cooldownUntil >= w.mem.cooldownUntil
  {
    hide FlushEvents, Restore, SampleRoutes;
    FlushKeeps(cfg, o, w);
    FlushCarries(o, w);
    var flushed := FlushEvents(o, w);
    assert o(w.pos).now <= o(flushed.world.pos).now;
    if flushed.Running? {
      var now := o(flushed.world.pos).now;
      var begun := flushed.world.(pos := flushed.world.pos + 1);
      assert now <= o(begun.pos).now;
      if !begun.initialized {
        RestoreKeeps(cfg, o, begun, now);
        RestoreCarries(cfg, o, begun, now);
        assert now <= o(Restore(cfg, o, begun, now).world.pos).now;
      }
    }
  }

  /** A tick that does not get to its sample tries nothing, and leaves the timers and the route alone. */
  lemma SampleNotReached(cfg: Config, o: Oracle, w: World)
    requires cfg.Valid() && Clocked(o) && Ready(cfg, w) && Punctual(o, w) && ToSample(cfg, o, w).None?
    ensures var r := Tick(cfg, o, w);
            && r.world.attempts == w.attempts
            && r.world.samples == w.samples
            && (r.Running? ==> r.world.mem == w.mem.(pending := r.world.mem.pending) && r.world.route == w.route
                               && HandedOver(o, w, r.world, w.mem.pending, r.world.pos - 1))
  {
    hide FlushEvents, Restore, SampleRoutes, HandedOver;
    FlushKeeps(cfg, o, w);
    FlushCarries(o, w);
    var flushed := FlushEvents(o, w);
    if flushed.Running? {
      FlushedHandsOver(o, w);
    }
    if flushed.Running? && !flushed.world.initialized {
      var now := o(flushed.world.pos).now;
      RestoreKeeps(cfg, o, flushed.world.(pos := flushed.world.pos + 1), now);
    }
  }

  lemma FlushedHandsOver(o: Oracle, w: World)
    requires FlushEvents(o, w).Running?
    ensures var flushed := FlushEvents(o, w).world;
            HandedOver(o, w, flushed.(pos := flushed.pos + 1), w.mem.pending, flushed.pos)
  {
    hide FlushEvents, HandedOver;
    FlushHandsOver(o, w);
    var flushed := FlushEvents(o, w).world;
    HandedOverAnyway(o, w, flushed, flushed.(pos := flushed.pos + 1), w.mem.pending, flushed.pos);
  }

  lemma HandedOverAnyway(o: Oracle, w: World, after: World, later: World, events: seq<Event>, end: nat)
    requires HandedOver(o, w, after, events, end) && later == after.(pos := later.pos)
    ensures HandedOver(o, w, later, events, end)
  {
  }

  /**
   The first tick of a process brings the adapter to the route of the file, or gives the process up; a switch that was broken
   off is left for a calm phase, with a new cooldown and a message.
   */
  lemma RestoreDecides(cfg: Config, o: Oracle, w: World, now: int)
    ensures var r := Restore(cfg, o, w, now);
            var active := if w.mem.active in {Primary, Fallback} then w.mem.active else Primary;
            && (w.route != active && o(w.pos).survives && o(w.pos).ok && !w.mem.phase.InTransit() ==> r.Running?)
            && (w.route == active && !w.mem.phase.InTransit() ==> r.Running?)
            && (r.Running? ==>
              && r.world.initialized && r.world.route == active
              && (w.route != active ==> o(w.pos).ok)
              && Told(w, r.world, if w.mem.phase.InTransit() then [(RestartRecovered, Ops)] else [])
              && r.world.mem ==
                 (if w.mem.phase.InTransit() then
                    w.mem.(active := active, phase := if active == Fallback then OnFallback else Waiting, deadline := None,
                           cooldownUntil := r.world.mem.cooldownUntil,
                           sequence := r.world.mem.sequence, pending := r.world.mem.pending)
                  else w.mem.(active := active))
              && (w.mem.phase.InTransit() ==>
                    && r.world.disk == r.world.mem
                    && r.world.mem.cooldownUntil >= w.mem.cooldownUntil
                    && r.world.mem.cooldownUntil >= now + cfg.retryCooldown
                    && r.world.mem.cooldownUntil in {w.mem.cooldownUntil, now + cfg.retryCooldown}))
  {
    hide Emit;
    var known := if w.mem.active.Foreign? then Moved(w, Primary) else w;
    var routed := if known.route != known.mem.active then CallAdapter(o, known, known.mem.active) else Running(known);
    if routed.Running? && w.mem.phase.InTransit() {
      hide Told, Carries, Stays;
      EmitLeaves(o, LeaveTransit(cfg, routed.world, now), RestartRecovered, Ops);
      TellsFrom(w, routed.world, Emit(o, LeaveTransit(cfg, routed.world, now), RestartRecovered, Ops).world);
    }
  }

  lemma TellsFrom(w: World, later: World, after: World)
    requires later.lifeEmitted == w.lifeEmitted
    ensures forall notices :: Told(later, after, notices) ==> Told(w, after.(initialized := true), notices)
    ensures Told(w, later.(initialized := true), [])
  {
  }

  // --- on the primary ---

  /** The timers are kept: no long gap came before the sample. */
  predicate NoGap(cfg: Config, st: EgressState, now: int) {
    st.lastProbeAt.Some? ==> now - st.lastProbeAt.value <= 3 * cfg.probeInterval
  }

  /** Since when the primary has been failing, and how often, with this sample. */
  function FailingSince(cfg: Config, st: EgressState, now: int): int {
    if st.failedSince.Some? && NoGap(cfg, st, now) then st.failedSince.value else now
  }

  function FailuresBy(cfg: Config, st: EgressState, now: int): nat {
    if NoGap(cfg, st, now) then st.failures + 1 else 1
  }

  predicate FailoverDue(cfg: Config, st: EgressState, now: int) {
    now - FailingSince(cfg, st, now) >= cfg.failoverAfter
    && now >= st.cooldownUntil
  }

  lemma PrimaryUpDecides(o: Oracle, w: World)
    ensures var r := PrimaryUp(o, w);
            && r.world.attempts == w.attempts
            && (r.Running? ==>
                  && r.world.mem.active == w.mem.active
                  && r.world.mem.phase.OnPrimary?
                  && r.world.mem.failedSince.None?
                  && r.world.mem.failures == 0
                  && r.world.mem.announced == (w.mem.announced && !o(w.pos).ready)
                  && Told(w, r.world, if w.mem.announced && o(w.pos).ready then [(ShortRecovery, Ops)] else []))
  {
    hide Emit;
    EmitCarries(o, w.(pos := w.pos + 1), ShortRecovery, Ops);
    EmitLeaves(o, w.(pos := w.pos + 1), ShortRecovery, Ops);
  }

  /** The primary or MAX itself is up: the timer stops, and an announced outage is called over once MAX is ready. */
  lemma UpDecides(cfg: Config, o: Oracle, x: World, now: int)
    requires cfg.Valid() && x.mem.active == Primary && o(x.pos).survives && !o(x.pos + 1).reauth
    requires o(x.pos).ok || o(x.pos + 2).ready
    ensures var r := SampleRoutes(cfg, o, x, now);
            && r.world.attempts == x.attempts
            && (r.Running? ==>
                  && r.world.mem.active == Primary
                  && r.world.mem.phase.OnPrimary?
                  && r.world.disk == r.world.mem
                  && r.world.mem.failedSince.None?
                  && r.world.mem.failures == 0
                  && r.world.mem.announced == (x.mem.announced && !o(x.pos + 3).ready)
                  && Told(x, r.world, if x.mem.announced && o(x.pos + 3).ready then [(ShortRecovery, Ops)] else []))
  {
    hide PrimaryUp;
    var seen := BeginSampling(cfg, x, now).(pos := x.pos + 3, samples := x.samples + [Sample(now, Primary, o(x.pos).ok, false, false)]);
    PrimaryUpDecides(o, seen);
  }

  /** The primary fails and MAX is not ready: counted, and told at the second failure in a row. */
  ghost predicate Counts(cfg: Config, x: World, after: World, now: int) {
    && after.mem.active == Primary && after.mem.phase.Waiting?
    && after.mem.failedSince == Some(FailingSince(cfg, x.mem, now))
    && after.mem.failures == FailuresBy(cfg, x.mem, now)
    && after.mem.announced == (x.mem.announced || FailuresBy(cfg, x.mem, now) >= 2)
    && after.mem.incident == x.mem.incident + if after.mem.failures == 1 && !x.mem.announced then 1 else 0
  }

  function OutageTold(cfg: Config, x: World, now: int): seq<(Kind, Audience)> {
    if FailuresBy(cfg, x.mem, now) >= 2 && !x.mem.announced then [(Outage, Ops)] else []
  }

  /** The outage once counted and told, before the fallback is considered. */
  lemma DownCounts(cfg: Config, o: Oracle, x: World, now: int) returns (told: Step)
    requires cfg.Valid() && x.mem.active == Primary && o(x.pos).survives && !o(x.pos + 1).reauth
    requires !o(x.pos).ok && !o(x.pos + 2).ready && (x.mem.failedSince.None? <==> x.mem.failures == 0)
    ensures told.world.attempts == x.attempts
            && x.pos + 3 <= told.world.pos
            && told.world.born == x.born
    ensures told.world.samples == x.samples + [DownAt(now)]
            && told.world.arrived == x.arrived
    ensures told.Running? ==>
              && Counts(cfg, x, told.world, now)
              && Told(x, told.world, OutageTold(cfg, x, now))
              && told.world.mem.cooldownUntil == x.mem.cooldownUntil
              && told.world.mem.fallbackSince == x.mem.fallbackSince
              && (told.world.mem.incident > x.mem.incident ==> told.world.mem.sequence == 0)
    ensures SampleRoutes(cfg, o, x, now)
         == if told.Died? then told
            else
              var r := if FailoverDue(cfg, x.mem, now) then TryFailOver(cfg, o, told.world, now) else told;
              if r.Running? then Save(o, r.world) else r
  {
    hide TellOutage, TryFailOver, Save, Told;
    var seen := BeginSampling(cfg, x, now).(pos := x.pos + 3, samples := x.samples + [DownAt(now)]);
    var counted := seen.(mem := CountFailure(seen.mem, now));
    told := TellOutage(o, counted);
    OutageTells(o, counted);
    Untold(x, counted);
    forall notices | Told(counted, told.world, notices)
      ensures Told(x, told.world, notices)
    {
      ToldOn(x, counted, told.world, [], notices);
      assert [] + notices == notices;
    }
  }

  lemma OutageTells(o: Oracle, w: World)
    ensures var told := TellOutage(o, w); var after := told.world; var telling := w.mem.failures >= 2 && !w.mem.announced;
            && after.mem == w.mem.(announced := w.mem.announced || telling, sequence := after.mem.sequence, pending := after.mem.pending)
            && after.attempts == w.attempts
            && after.samples == w.samples
            && after.born == w.born
            && after.arrived == w.arrived
            && w.pos <= after.pos
            && Told(w, after, if telling then [(Outage, Ops)] else [])
            && (!telling ==> after == w)
  {
    hide Emit;
    var outage := w.(mem := w.mem.(announced := true));
    EmitCarries(o, outage, Outage, Ops);
    EmitLeaves(o, outage, Outage, Ops);
  }

  /** Where the fallback was probed, and what came of it. */
  ghost predicate FailoverOutcome(cfg: Config, o: Oracle, w: World, r: Step, now: int, probe: nat) {
    && w.pos <= probe
    && (r.world.attempts != w.attempts ==>
          o(probe).ok
          && |r.world.attempts| == |w.attempts| + 1
          && w.attempts <= r.world.attempts
          && r.world.attempts[|w.attempts|].target == Fallback && r.world.attempts[|w.attempts|].stamp >= o(probe).now)
    && (r.Running? ==>
          if o(probe).ok then
            r.world.attempts != w.attempts
          else
            && r.world.mem.cooldownUntil == now + cfg.retryCooldown
            && r.world.mem.active == w.mem.active
            && r.world.mem.phase == w.mem.phase
            && r.world.mem.failedSince == w.mem.failedSince
            && Told(w, r.world, [(BothUnavailable, Both)]))
  }

  lemma SwitchTries(cfg: Config, o: Oracle, w: World, target: Route)
    requires cfg.Valid() && Clocked(o)
    ensures var after := Switch(cfg, o, w, target).world;
            && (after.attempts == w.attempts
                || after.attempts == w.attempts + [Attempt(o(w.pos + 1).now, target, w.born, |w.samples|, w.arrived)])
            && (Switch(cfg, o, w, target).Running? ==> after.attempts != w.attempts)
            && after.samples == w.samples
  {
    hide Emit, Confirm;
    var begun := BeginSwitch(cfg, o, w, target);
    EmitCarries(o, begun, SwitchStarted(w.mem.active, target), Ops);
    EmitLeaves(o, begun, SwitchStarted(w.mem.active, target), Ops);
    var announced := Emit(o, begun, SwitchStarted(w.mem.active, target), Ops);
    if announced.Running? {
      var called := CallAdapter(o, LogAttempt(announced.world, o(w.pos + 1).now, target), target).world;
      EmitCarries(o, called, CloseFailed, Both);
      ConfirmTries(cfg, o, called, target, w.mem.active);
    }
  }

  lemma TryFailOverDecides(cfg: Config, o: Oracle, w: World, now: int)
    requires cfg.Valid() && Clocked(o)
    ensures FailoverOutcome(cfg, o, w, TryFailOver(cfg, o, w, now), now, w.pos)
  {
    hide Emit, Switch;
    var probed := w.(pos := w.pos + 1);
    assert o(w.pos).now <= o(probed.pos + 1).now;
    SwitchTries(cfg, o, probed, Fallback);
    var cooled := probed.(mem := w.mem.(cooldownUntil := now + cfg.retryCooldown));
    EmitCarries(o, cooled, BothUnavailable, Both);
    EmitLeaves(o, cooled, BothUnavailable, Both);
  }

  /** What a switch tells, depending on where it ends. */
  function SwitchNotices(previous: Route, target: Route, landed: bool, seconds: int, online: bool): seq<(Kind, Audience)> {
    [(SwitchStarted(previous, target), Ops)]
    + if landed then [Confirmation(target, seconds)] else [(SwitchFailed, Both), (RollbackFinished(online), Both)]
  }

  lemma SwitchNotifies(cfg: Config, o: Oracle, w: World, target: Route) returns (seconds: int, online: bool)
    requires cfg.Valid() && Clocked(o) && target != w.mem.active
    ensures var r := Switch(cfg, o, w, target);
            r.Running? ==>
              && Told(w, r.world, SwitchNotices(w.mem.active, target, r.world.mem.active == target, seconds, online))
              && (if r.world.mem.active == target then Settles(w, r.world, target) else Retreats(w, r.world, w.mem.active))
              && r.world.route == r.world.mem.active
  {
    hide Switch, Settles, Retreats;
    seconds, online := SwitchDecides(cfg, o, w, target);
    var started := (SwitchStarted(w.mem.active, target), Ops);
    assert SwitchNotices(w.mem.active, target, true, seconds, online) == [started, Confirmation(target, seconds)];
    assert SwitchNotices(w.mem.active, target, false, seconds, online)
        == [started, (SwitchFailed, Both), (RollbackFinished(online), Both)];
  }

  /**
   The primary fails and MAX is not ready: the outage is counted and told, and the fallback is tried exactly if the outage has
   lasted long enough, the cooldown is over and the fallback answers.
   */
  lemma DownDecides(cfg: Config, o: Oracle, x: World, now: int) returns (probe: nat, seconds: int, online: bool)
    requires cfg.Valid() && Clocked(o) && x.mem.active == Primary && o(x.pos).survives && !o(x.pos + 1).reauth
    requires !o(x.pos).ok && !o(x.pos + 2).ready && (x.mem.failedSince.None? <==> x.mem.failures == 0) && now <= o(x.pos).now
    ensures var r := SampleRoutes(cfg, o, x, now);
            && x.pos + 3 <= probe
            && (r.world.attempts != x.attempts ==>
                  && FailoverDue(cfg, x.mem, now) && o(probe).ok && Tried(x, r.world, Fallback, now))
            && (r.Running? ==>
                  if !FailoverDue(cfg, x.mem, now) then
                    r.world.attempts == x.attempts
                    && Counts(cfg, x, r.world, now)
                    && Told(x, r.world, OutageTold(cfg, x, now))
                  else if !o(probe).ok then
                    && r.world.attempts == x.attempts
                    && Counts(cfg, x, r.world, now)
                    && r.world.mem.cooldownUntil == now + cfg.retryCooldown
                    && Told(x, r.world, OutageTold(cfg, x, now) + [(BothUnavailable, Both)])
                  else
                    && r.world.attempts != x.attempts
                    && r.world.route == r.world.mem.active
                    && Told(x, r.world, OutageTold(cfg, x, now)
                                        + SwitchNotices(Primary, Fallback, r.world.mem.active == Fallback, seconds, online))
                    && (if r.world.mem.active == Fallback then r.world.mem.phase.OnFallback? && r.world.mem.fallbackSince.Some?
                        else Counts(cfg, x, r.world, now)))
  {
    hide SampleRoutes, TryFailOver, TellOutage, Told, SwitchNotices, OutageTold;
    seconds, online := 0, false;
    var told := DownCounts(cfg, o, x, now);
    probe := told.world.pos;
    if told.Running? && FailoverDue(cfg, x.mem, now) {
      assert o(x.pos).now <= o(told.world.pos).now;
      seconds, online := FailoverDecides(cfg, o, x, told.world, now);
      var r := TryFailOver(cfg, o, told.world, now);
      SaveTold(o, r, x);
    }
    SaveTold(o, told, x);
  }

  /** One more attempt, at `now` or later. */
  ghost predicate Tried(x: World, after: World, target: Route, now: int) {
    && |after.attempts| == |x.attempts| + 1
    && x.attempts <= after.attempts
    && after.attempts[|x.attempts|].target == target
    && after.attempts[|x.attempts|].arrived == x.arrived
    && now <= after.attempts[|x.attempts|].stamp
  }

  lemma SaveTold(o: Oracle, r: Step, x: World)
    ensures var s := if r.Running? then Save(o, r.world) else r;
            && s.world.attempts == r.world.attempts
            && s.world.mem == r.world.mem
            && s.world.route == r.world.route
            && (s.Running? ==> r.Running?)
            && (forall notices :: Told(x, r.world, notices) ==> Told(x, s.world, notices))
  {
  }

  lemma FailoverDecides(cfg: Config, o: Oracle, x: World, w: World, now: int) returns (seconds: int, online: bool)
    requires cfg.Valid() && Clocked(o) && w.mem.active == Primary && Told(x, w, OutageTold(cfg, x, now))
    requires Counts(cfg, x, w, now) && w.attempts == x.attempts && w.arrived == x.arrived && now <= o(w.pos).now
    ensures var r := TryFailOver(cfg, o, w, now);
            && (r.world.attempts != x.attempts ==> o(w.pos).ok && Tried(x, r.world, Fallback, now))
            && (r.Running? ==>
                  if !o(w.pos).ok then
                    && r.world.attempts == x.attempts
                    && Counts(cfg, x, r.world, now)
                    && r.world.mem.cooldownUntil == now + cfg.retryCooldown
                    && Told(x, r.world, OutageTold(cfg, x, now) + [(BothUnavailable, Both)])
                  else
                    && r.world.attempts != x.attempts
                    && r.world.route == r.world.mem.active
                    && Told(x, r.world, OutageTold(cfg, x, now)
                                        + SwitchNotices(Primary, Fallback, r.world.mem.active == Fallback, seconds, online))
                    && (if r.world.mem.active == Fallback then r.world.mem.phase.OnFallback? && r.world.mem.fallbackSince.Some?
                        else Counts(cfg, x, r.world, now)))
  {
    hide Emit, Switch, Told, SwitchNotices, OutageTold;
    var probed := w.(pos := w.pos + 1);
    var cooled := probed.(mem := w.mem.(cooldownUntil := now + cfg.retryCooldown));
    seconds, online := 0, false;
    if o(w.pos).ok {
      SwitchTries(cfg, o, probed, Fallback);
      assert o(w.pos).now <= o(probed.pos + 1).now;
      seconds, online := SwitchNotifies(cfg, o, probed, Fallback);
      var r := TryFailOver(cfg, o, w, now);
      if r.Running? {
        ToldFrom(x, w, probed, r.world, OutageTold(cfg, x, now),
                 SwitchNotices(Primary, Fallback, r.world.mem.active == Fallback, seconds, online));
      }
    } else {
      EmitCarries(o, cooled, BothUnavailable, Both);
      EmitLeaves(o, cooled, BothUnavailable, Both);
      ToldFrom(x, w, cooled, Emit(o, cooled, BothUnavailable, Both).world, OutageTold(cfg, x, now), [(BothUnavailable, Both)]);
    }
  }

  lemma ToldFrom(x: World, w: World, later: World, after: World, first: seq<(Kind, Audience)>, second: seq<(Kind, Audience)>)
    requires Told(x, w, first) && later.lifeEmitted == w.lifeEmitted && Told(later, after, second)
    ensures Told(x, after, first + second)
  {
    ToldOn(x, later, after, first, second);
  }

  // --- on the fallback ---

  /** Since when the primary has answered every probe, with this one. */
  function HealthySince(cfg: Config, st: EgressState, now: int): int {
    if st.healthySince.Some? && NoGap(cfg, st, now) then st.healthySince.value else now
  }

  /** How long MAX has been on the fallback, as far as the state knows. */
  function Residence(st: EgressState, now: int): int {
    now - if st.fallbackSince.Some? then st.fallbackSince.value else 0
  }

  predicate ReturnDue(cfg: Config, st: EgressState, now: int) {
    && now - HealthySince(cfg, st, now) >= cfg.recoveryStable
    && Residence(st, now) >= cfg.minimumResidence
    && now >= st.cooldownUntil
  }

  function RecoveryTold(cfg: Config, st: EgressState, now: int): seq<(Kind, Audience)> {
    if st.healthySince.Some? && NoGap(cfg, st, now) then [] else [(RecoveryStarted, Ops)]
  }

  function ReminderTold(st: EgressState, now: int): seq<(Kind, Audience)> {
    if now - st.lastReminderAt >= 14400 then [(Reminder, Both)] else []
  }

  /** On the fallback as before, with the recovery timer as given. */
  ghost predicate Remains(x: World, after: World, healthy: Option<int>) {
    && after.mem.active == Fallback
    && after.mem.phase.OnFallback?
    && after.mem.healthySince == healthy
    && after.mem.fallbackSince == x.mem.fallbackSince
    && after.attempts == x.attempts
  }

  lemma RecoveryDecides(cfg: Config, o: Oracle, w: World, now: int, x: World) returns (seconds: int, online: bool)
    requires now <= o(w.pos).now && cfg.Valid() && Clocked(o) && w.mem.active == Fallback && w.mem.phase.OnFallback?
    requires w.attempts == x.attempts && w.arrived == x.arrived && w.mem.fallbackSince == x.mem.fallbackSince
    requires w.mem.cooldownUntil == x.mem.cooldownUntil && w.lifeEmitted == x.lifeEmitted && w.mem.lastReminderAt == x.mem.lastReminderAt
    requires w.mem.healthySince == if x.mem.healthySince.Some? && NoGap(cfg, x.mem, now) then x.mem.healthySince else None
    ensures var r := TimeRecovery(cfg, o, w, now);
            && (r.world.attempts != x.attempts ==> ReturnDue(cfg, x.mem, now) && Tried(x, r.world, Primary, now))
            && (r.Running? ==>
                  && r.world.mem.lastReminderAt == x.mem.lastReminderAt
                  && if ReturnDue(cfg, x.mem, now) then
                    && r.world.attempts != x.attempts
                    && r.world.route == r.world.mem.active
                    && Told(x, r.world, RecoveryTold(cfg, x.mem, now)
                                        + SwitchNotices(Fallback, Primary, r.world.mem.active == Primary, seconds, online))
                    && (if r.world.mem.active == Primary then
                          r.world.mem.phase.OnPrimary?
                          && r.world.mem.failedSince.None?
                          && !r.world.mem.announced
                        else r.world.mem.phase.OnFallback? && r.world.mem.fallbackSince == x.mem.fallbackSince)
                  else
                    && Remains(x, r.world, Some(HealthySince(cfg, x.mem, now)))
                    && Told(x, r.world, RecoveryTold(cfg, x.mem, now)))
  {
    hide Switch, Told, SwitchNotices, Emit;
    seconds, online := 0, false;
    var timed := RecoveryTimes(cfg, o, w, now, x);
    if timed.Running? && ReturnDue(cfg, x.mem, now) {
      SwitchTries(cfg, o, timed.world, Primary);
      assert o(w.pos).now <= o(timed.world.pos + 1).now;
      seconds, online := SwitchNotifies(cfg, o, timed.world, Primary);
      var r := Switch(cfg, o, timed.world, Primary);
      if r.Running? {
        ToldFrom(x, timed.world, timed.world, r.world, RecoveryTold(cfg, x.mem, now),
                 SwitchNotices(Fallback, Primary, r.world.mem.active == Primary, seconds, online));
      }
    }
  }

  lemma RecoveryTimes(cfg: Config, o: Oracle, w: World, now: int, x: World) returns (timed: Step)
    requires cfg.Valid() && w.mem.active == Fallback && w.mem.phase.OnFallback?
    requires w.attempts == x.attempts && w.arrived == x.arrived && w.mem.fallbackSince == x.mem.fallbackSince
    requires w.mem.cooldownUntil == x.mem.cooldownUntil && w.lifeEmitted == x.lifeEmitted && w.mem.lastReminderAt == x.mem.lastReminderAt
    requires w.mem.healthySince == if x.mem.healthySince.Some? && NoGap(cfg, x.mem, now) then x.mem.healthySince else None
    ensures timed.world.attempts == x.attempts
            && w.pos <= timed.world.pos
    ensures timed.Running? ==>
              && Remains(x, timed.world, Some(HealthySince(cfg, x.mem, now)))
              && Told(x, timed.world, RecoveryTold(cfg, x.mem, now))
              && timed.world.arrived == x.arrived
              && timed.world.mem.lastReminderAt == x.mem.lastReminderAt
    ensures TimeRecovery(cfg, o, w, now)
         == if timed.Running? && ReturnDue(cfg, x.mem, now) then Switch(cfg, o, timed.world, Primary) else timed
  {
    hide Switch, Emit;
    timed := StartRecovery(o, w, now);
    var started := w.(mem := w.mem.(healthySince := Some(now)));
    EmitCarries(o, started, RecoveryStarted, Ops);
    EmitLeaves(o, started, RecoveryStarted, Ops);
  }

  lemma RemindDecides(o: Oracle, w: World, now: int)
    ensures var r := Remind(o, w, now);
            && r.world.attempts == w.attempts
            && (r.Running? ==>
                  && Told(w, r.world, ReminderTold(w.mem, now))
                  && r.world.mem == w.mem.(lastReminderAt := if now - w.mem.lastReminderAt >= 14400 then now else w.mem.lastReminderAt,
                                           sequence := r.world.mem.sequence, pending := r.world.mem.pending)
                  && r.world.route == w.route)
  {
    hide Emit;
    var reminded := w.(pos := w.pos + 1, mem := w.mem.(lastReminderAt := now));
    EmitCarries(o, reminded, Reminder, Both);
    EmitLeaves(o, reminded, Reminder, Both);
  }

  /** The world in which the tick on the fallback times the recovery. */
  function OnFallbackSeen(cfg: Config, o: Oracle, x: World, now: int): World {
    BeginSampling(cfg, x, now).(pos := x.pos + 2, mem := BeginSampling(cfg, x, now).mem.(phase := OnFallback),
                                samples := x.samples + [Sample(now, Fallback, o(x.pos).ok, false, false)])
  }

  /**
   On the fallback the primary is tried exactly if it has answered every probe for long enough, MAX has been on the fallback for
   long enough, and the cooldown is over; the operators are told when a recovery starts, and every four hours.
   */
  lemma FallbackDecides(cfg: Config, o: Oracle, x: World, now: int) returns (seconds: int, online: bool)
    requires cfg.Valid() && Clocked(o) && x.mem.active == Fallback && o(x.pos).survives && !o(x.pos + 1).reauth && now <= o(x.pos).now
    ensures var r := SampleRoutes(cfg, o, x, now);
            && (r.world.attempts != x.attempts ==>
                  o(x.pos).ok && ReturnDue(cfg, x.mem, now) && Tried(x, r.world, Primary, now))
            && (r.Running? ==>
                  && r.world.mem.lastReminderAt == (if now - x.mem.lastReminderAt >= 14400 then now else x.mem.lastReminderAt)
                  && if !o(x.pos).ok then
                    Remains(x, r.world, None)
                    && Told(x, r.world, ReminderTold(x.mem, now))
                  else if !ReturnDue(cfg, x.mem, now) then
                    && Remains(x, r.world, Some(HealthySince(cfg, x.mem, now)))
                    && Told(x, r.world, RecoveryTold(cfg, x.mem, now) + ReminderTold(x.mem, now))
                  else
                    && r.world.attempts != x.attempts
                    && r.world.route == r.world.mem.active
                    && Told(x, r.world, RecoveryTold(cfg, x.mem, now)
                                        + SwitchNotices(Fallback, Primary, r.world.mem.active == Primary, seconds, online)
                                        + ReminderTold(x.mem, now))
                    && (if r.world.mem.active == Primary then
                          r.world.mem.phase.OnPrimary?
                          && r.world.mem.failedSince.None?
                          && !r.world.mem.announced
                        else r.world.mem.phase.OnFallback? && r.world.mem.fallbackSince == x.mem.fallbackSince))
  {
    hide TimeRecovery, Remind, Told, SwitchNotices, RecoveryTold, ReminderTold, ReturnDue, SampleRoutes;
    seconds, online := 0, false;
    var seen := OnFallbackSeen(cfg, o, x, now);
    SampledOnFallback(cfg, o, x, now);
    assert o(x.pos).now <= o(seen.pos).now;
    if o(x.pos).ok {
      seconds, online := RecoveryDecides(cfg, o, seen, now, x);
    } else {
      Untold(x, seen.(mem := seen.mem.(healthySince := None)));
    }
    var moved := if o(x.pos).ok then TimeRecovery(cfg, o, seen, now) else Running(seen.(mem := seen.mem.(healthySince := None)));
    if moved.Running? {
      RemindDecides(o, moved.world, now);
      SameReminder(x.mem, moved.world.mem, now);
      var r := Remind(o, moved.world, now);
      if r.Running? {
        var told := if !o(x.pos).ok then []
                    else if !ReturnDue(cfg, x.mem, now) then RecoveryTold(cfg, x.mem, now)
                    else RecoveryTold(cfg, x.mem, now)
                         + SwitchNotices(Fallback, Primary, moved.world.mem.active == Primary, seconds, online);
        ToldFrom(x, moved.world, moved.world, r.world, told, ReminderTold(x.mem, now));
        assert [] + ReminderTold(x.mem, now) == ReminderTold(x.mem, now);
      }
      SaveTold(o, r, x);
    }
  }

  function Reminded(o: Oracle, moved: Step, now: int): Step {
    if moved.Died? then moved
    else
      var r := Remind(o, moved.world, now);
      if r.Running? then Save(o, r.world) else r
  }

  lemma SampledOnFallback(cfg: Config, o: Oracle, x: World, now: int)
    requires cfg.Valid() && x.mem.active == Fallback && o(x.pos).survives && !o(x.pos + 1).reauth
    ensures var seen := OnFallbackSeen(cfg, o, x, now);
            var moved := if o(x.pos).ok then TimeRecovery(cfg, o, seen, now) else Running(seen.(mem := seen.mem.(healthySince := None)));
            SampleRoutes(cfg, o, x, now) == Reminded(o, moved, now)
  {
    hide TimeRecovery, Remind, Save;
  }

  lemma Untold(x: World, w: World)
    requires w.lifeEmitted == x.lifeEmitted
    ensures Told(x, w, [])
  {
  }

  lemma SameReminder(st: EgressState, later: EgressState, now: int)
    requires later.lastReminderAt == st.lastReminderAt
    ensures ReminderTold(later, now) == ReminderTold(st, now)
  {
  }

  // --- reauthorisation ---

  lemma ReauthSample(cfg: Config, o: Oracle, x: World, now: int)
    requires cfg.Valid() && Steady(cfg, x) && o(x.pos).survives
    ensures var r := SampleRoutes(cfg, o, x, now);
            o(x.pos + 1).reauth ==>
              && r.world.attempts == x.attempts
              && r.world.mem.active == x.mem.active
              && r.world.route == x.route
              && Told(x, r.world, [])
              && (r.Running? ==>
                    && r.world.mem.phase.AuthBlocked?
                    && r.world.mem.failedSince.None?
                    && r.world.mem.healthySince.None?
                    && r.world.mem.failures == 0 && r.world.disk == r.world.mem)
  {
    hide TickOnPrimary, TickOnFallback;
  }

  lemma NotBlocked(cfg: Config, o: Oracle, x: World, now: int)
    requires cfg.Valid() && Clocked(o) && Steady(cfg, x) && SampleRoutes(cfg, o, x, now).Running? && now <= o(x.pos).now
    ensures o(x.pos).survives
            && (!o(x.pos + 1).reauth ==> !SampleRoutes(cfg, o, x, now).world.mem.phase.AuthBlocked?)
  {
    hide Police, Told, SwitchNotices;
    if o(x.pos).survives && !o(x.pos + 1).reauth {
      if x.mem.active == Fallback {
        var _, _ := FallbackDecides(cfg, o, x, now);
      } else if o(x.pos).ok || o(x.pos + 2).ready {
        UpDecides(cfg, o, x, now);
      } else {
        var _, _, _ := DownDecides(cfg, o, x, now);
      }
    }
  }

  /**
   When MAX asks for reauthorisation, a tick stops there: whatever else it sees, it tries no route, tells nothing about one, and
   ends blocked with its timers cleared, on file too. Only then does a tick end blocked that has taken a sample.
   */
  lemma ReauthorisationStopsTheTick(cfg: Config, o: Oracle, w: World)
    requires cfg.Valid() && Clocked(o) && Ready(cfg, w) && Punctual(o, w) && ToSample(cfg, o, w).Some?
    ensures var x := ToSample(cfg, o, w).value.0;
            var r := Tick(cfg, o, w);
            && (o(x.pos).survives && o(x.pos + 1).reauth ==>
                  && r.world.attempts == w.attempts
                  && r.world.mem.active == w.mem.active
                  && r.world.route == w.mem.active
                  && Told(x, r.world, [])
                  && (r.Running? ==> r.world.mem.failedSince.None? && r.world.mem.healthySince.None? && r.world.mem.failures == 0
                                     && r.world.disk == r.world.mem))
            && (r.Running? ==> o(x.pos).survives && (r.world.mem.phase.AuthBlocked? <==> o(x.pos + 1).reauth))
  {
    hide Tick, SampleRoutes, ToSample;
    SampleReached(cfg, o, w);
    var (x, now) := ToSample(cfg, o, w).value;
    if o(x.pos).survives {
      ReauthSample(cfg, o, x, now);
    }
    if SampleRoutes(cfg, o, x, now).Running? {
      NotBlocked(cfg, o, x, now);
    }
  }
}
