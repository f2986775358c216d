/**
 How the stages of the policy go in given environments, in which no notification is accepted.
 A notification that is refused takes three answers: the time it is stamped with, the writing of the file, and the
 refusal. Every stage therefore takes a known number of answers, and each lemma says where the next stage begins and
 what memory, file and history are then, leaving open what is queued. They are put together where an environment has
 to be shown that leads a process somewhere: in the two runs in which a failover is not backed by an outage, in the
 run in which a return comes too early, and for every file that can do harm.
 */
module EgressScripts {
  import opened Wrappers
  import opened EgressModel
  import opened EgressInvariants

  ghost predicate Core(st: EgressState, core: EgressState) {
    st == core.(sequence := st.sequence, pending := st.pending)
  }

  /** A notification that is refused: it is numbered, queued and saved. */
  lemma EmitRefused(o: Oracle, w: World, kind: Kind, audience: Audience)
    requires o(w.pos + 1).survives && o(w.pos + 2).survives && !o(w.pos + 2).ok
    ensures var r := Emit(o, w, kind, audience);
            && r.Running?
            && Talked(w, r.world)
            && r.world.disk == r.world.mem
            && r.world.pos == w.pos + 3
            && r.world.mem.pending != []
  {
  }

  lemma FlushRefused(o: Oracle, w: World)
    requires w.mem.pending != [] && o(w.pos).survives && !o(w.pos).ok
    ensures var r := FlushEvents(o, w);
            r.Running?
            && r.world == w.(pos := w.pos + 1, handed := r.world.handed)
  {
  }

  /** A tick of a running process, in which no gap has come up, to where its sample is judged. */
  lemma TickSamples(cfg: Config, o: Oracle, w: World, p: nat) returns (s: World)
    requires cfg.Valid() && w.initialized && p == (if w.mem.pending != [] then w.pos + 1 else w.pos)
    requires (w.mem.pending != [] ==> o(w.pos).survives && !o(w.pos).ok) && o(p + 1).survives && !o(p + 2).reauth
    requires w.mem.lastProbeAt.Some? && cfg.probeInterval <= o(p).now - w.mem.lastProbeAt.value <= 3 * cfg.probeInterval
    ensures s == w.(pos := p + 3, mem := w.mem.(lastProbeAt := Some(o(p).now)), handed := s.handed)
    ensures Tick(cfg, o, w) == Police(cfg, o, s, o(p).now, o(p + 1).ok, false)
  {
    hide Police;
    s := w.(pos := p + 3, mem := w.mem.(lastProbeAt := Some(o(p).now)));
    if w.mem.pending != [] {
      FlushRefused(o, w);
      s := s.(handed := FlushEvents(o, w).world.handed);
    }
  }

  /** A first tick that finds nothing to restore, to where its sample is judged. */
  lemma FirstTickSamples(cfg: Config, o: Oracle, w: World, p: nat) returns (s: World)
    requires cfg.Valid() && !w.initialized && p == (if w.mem.pending != [] then w.pos + 1 else w.pos)
    requires w.mem.active == w.route && !w.route.Foreign? && !w.mem.phase.InTransit()
    requires (w.mem.pending != [] ==> o(w.pos).survives && !o(w.pos).ok) && o(p + 1).survives && !o(p + 2).reauth
    requires w.mem.lastProbeAt.Some? ==> o(p).now - w.mem.lastProbeAt.value <= 3 * cfg.probeInterval
    ensures s == w.(pos := p + 3, mem := w.mem.(lastProbeAt := Some(o(p).now)), handed := s.handed, initialized := true)
    ensures Tick(cfg, o, w) == Police(cfg, o, s, o(p).now, o(p + 1).ok, false)
  {
    hide Police;
    s := w.(pos := p + 3, mem := w.mem.(lastProbeAt := Some(o(p).now)), initialized := true);
    if w.mem.pending != [] {
      FlushRefused(o, w);
      s := s.(handed := FlushEvents(o, w).world.handed);
    }
  }

  /** A failing sample that is counted and no more. */
  lemma CountsDown(cfg: Config, o: Oracle, w: World, now: int)
    requires cfg.Valid()
    requires w.mem.active == Primary && !o(w.pos).ready && o(w.pos + 1).survives
    requires var st := CountFailure(w.mem, now); (st.failures < 2 || st.announced) && !MayFailOver(cfg, st, now)
    ensures Police(cfg, o, w, now, false, false)
         == Running(w.(mem := CountFailure(w.mem, now), disk := CountFailure(w.mem, now), pos := w.pos + 2,
                       samples := w.samples + [Sample(now, Primary, false, true, false)]))
  {
  }

  /** A failing sample on which the outage is told, and no more. */
  lemma TellsDown(cfg: Config, o: Oracle, w: World, now: int) returns (c: World)
    requires cfg.Valid() && w.mem.active == Primary && !o(w.pos).ready && !w.mem.announced
    requires var st := CountFailure(w.mem, now); st.failures >= 2 && !MayFailOver(cfg, st, now)
    requires o(w.pos + 2).survives && o(w.pos + 3).survives && !o(w.pos + 3).ok && o(w.pos + 4).survives
    ensures Police(cfg, o, w, now, false, false) == Running(c)
    ensures c.pos == w.pos + 5
            && c.route == w.route
            && c.initialized == w.initialized
            && c.mem.pending != []
    ensures Core(c.mem, CountFailure(w.mem, now).(announced := true))
    ensures c.samples == w.samples + [Sample(now, Primary, false, true, false)]
  {
    hide Emit, TryFailOver;
    var outage := w.(pos := w.pos + 1, samples := w.samples + [Sample(now, Primary, false, true, false)],
                     mem := CountFailure(w.mem, now).(announced := true));
    EmitRefused(o, outage, Outage, Ops);
    c := Emit(o, outage, Outage, Ops).world;
    c := c.(pos := c.pos + 1, disk := c.mem);
  }

  /** A failing sample on which the policy fails over, telling of the outage first if it has not done so. */
  lemma FailsOver(cfg: Config, o: Oracle, w: World, now: int) returns (told: World)
    requires cfg.Valid()
    requires w.mem.active == Primary && !o(w.pos).ready
    requires var st := CountFailure(w.mem, now); st.failures >= 2 && MayFailOver(cfg, st, now)
    requires !w.mem.announced ==> o(w.pos + 2).survives && o(w.pos + 3).survives && !o(w.pos + 3).ok
    requires var p := w.pos + if w.mem.announced then 1 else 4; o(p).survives && o(p).ok
    ensures told.pos == w.pos + (if w.mem.announced then 2 else 5)
            && told.route == w.route
    ensures Core(told.mem, CountFailure(w.mem, now).(announced := true))
    ensures told.samples == w.samples + [Sample(now, Primary, false, true, false)]
            && told.initialized == w.initialized
    ensures told.attempts == w.attempts && told.born == w.born
    ensures var r := Switch(cfg, o, told, Fallback);
            Police(cfg, o, w, now, false, false) == if r.Running? then Save(o, r.world) else r
  {
    hide Switch, Emit, Save;
    var seen := w.(pos := w.pos + 1, samples := w.samples + [Sample(now, Primary, false, true, false)],
                   mem := CountFailure(w.mem, now));
    if w.mem.announced {
      told := seen.(pos := seen.pos + 1);
    } else {
      var outage := seen.(mem := seen.mem.(announced := true));
      EmitRefused(o, outage, Outage, Ops);
      told := Emit(o, outage, Outage, Ops).world;
      told := told.(pos := told.pos + 1);
    }
  }

  /** A switch as far as the adapter's success. */
  lemma SwitchReaches(cfg: Config, o: Oracle, w: World, target: Route) returns (a: World)
    requires cfg.Valid()
    requires o(w.pos + 3).survives && o(w.pos + 4).survives && !o(w.pos + 4).ok
    requires o(w.pos + 5).survives && o(w.pos + 5).ok
    ensures a.pos == w.pos + 6
            && a.route == target
            && a.samples == w.samples
            && a.initialized == w.initialized
    ensures Core(a.mem, BeginSwitch(cfg, o, w, target).mem)
            && a.mem.pending != []
            && a.born == w.born
    ensures a.attempts == w.attempts + [Attempt(o(w.pos + 1).now, target, w.born, |w.samples|, w.arrived)]
    ensures Switch(cfg, o, w, target) == Confirm(cfg, o, a, target, w.mem.active)
  {
    hide Emit, Confirm;
    var begun := BeginSwitch(cfg, o, w, target);
    EmitRefused(o, begun, SwitchStarted(w.mem.active, target), Ops);
    var announced := Emit(o, begun, SwitchStarted(w.mem.active, target), Ops).world;
    a := CallAdapter(o, LogAttempt(announced, o(w.pos + 1).now, target), target).world;
  }

  /** A switch whose process is lost inside the adapter: the attempt has been made. */
  lemma SwitchDies(cfg: Config, o: Oracle, w: World, target: Route) returns (d: World)
    requires cfg.Valid()
    requires o(w.pos + 3).survives && o(w.pos + 4).survives && !o(w.pos + 4).ok && !o(w.pos + 5).survives
    ensures Switch(cfg, o, w, target) == Died(d)
    ensures d.samples == w.samples
            && d.attempts == w.attempts + [Attempt(o(w.pos + 1).now, target, w.born, |w.samples|, w.arrived)]
  {
    hide Emit, Confirm;
    var begun := BeginSwitch(cfg, o, w, target);
    EmitRefused(o, begun, SwitchStarted(w.mem.active, target), Ops);
    d := LogAttempt(Emit(o, begun, SwitchStarted(w.mem.active, target), Ops).world, o(w.pos + 1).now, target);
  }

  /** What is in memory, on file and in the history when MAX comes up at once on the new route. */
  function OnTarget(o: Oracle, w: World, target: Route): World {
    Entered(w.(mem := w.mem.(active := target), disk := w.mem.(active := target), pos := w.pos + 2), target, o(w.pos).now)
  }

  /** The rest of a switch on which MAX comes up at once. */
  lemma ConfirmReaches(cfg: Config, o: Oracle, w: World, target: Route, previous: Route)
    requires cfg.Valid()
    requires o(w.pos).survives && o(w.pos + 1).ready && !o(w.pos + 1).expired && !o(w.pos + 1).reauth
    ensures Confirm(cfg, o, w, target, previous) == Connected(o, OnTarget(o, w, target), target)
  {
    hide Connected, RollBack;
  }

  lemma ConnectedReaches(o: Oracle, w: World, target: Route) returns (c: World)
    requires o(w.pos + 3).survives && o(w.pos + 4).survives && !o(w.pos + 4).ok && o(w.pos + 5).survives
    ensures Connected(o, w, target) == Running(c)
    ensures c.pos == w.pos + 6
            && c.route == w.route
            && c.samples == w.samples
            && c.initialized == w.initialized
    ensures Core(c.mem, Arrived(o, w, target).mem)
            && c.mem.pending != []
    ensures c.attempts == w.attempts && c.born == w.born
  {
    hide Emit;
    EmitRefused(o, Arrived(o, w, target), Greeting(o, w, target), Both);
    c := Emit(o, Arrived(o, w, target), Greeting(o, w, target), Both).world;
    c := c.(disk := c.mem, pos := c.pos + 1);
  }

  /** A switch that succeeds throughout. */
  lemma SwitchArrives(cfg: Config, o: Oracle, w: World, target: Route) returns (c: World)
    requires cfg.Valid()
    requires o(w.pos + 3).survives && o(w.pos + 4).survives && !o(w.pos + 4).ok
    requires o(w.pos + 5).survives && o(w.pos + 5).ok && o(w.pos + 6).survives
    requires o(w.pos + 7).ready && !o(w.pos + 7).expired && !o(w.pos + 7).reauth
    requires o(w.pos + 11).survives && o(w.pos + 12).survives && !o(w.pos + 12).ok && o(w.pos + 13).survives
    ensures Switch(cfg, o, w, target) == Running(c)
    ensures c.pos == w.pos + 14
            && c.route == target
            && c.samples == w.samples
            && c.initialized == w.initialized
    ensures var before := BeginSwitch(cfg, o, w, target);
            Core(c.mem, Arrived(o, before.(mem := before.mem.(active := target), pos := w.pos + 8), target).mem)
    ensures c.mem.pending != []
  {
    hide Switch, Confirm, Connected, BeginSwitch;
    var a := SwitchReaches(cfg, o, w, target);
    ConfirmReaches(cfg, o, a, target, w.mem.active);
    c := ConnectedReaches(o, OnTarget(o, a, target), target);
  }

  /** A sample that ends an announced outage, whose process is lost while it tells of the recovery. */
  lemma RecoveryIsLost(cfg: Config, o: Oracle, s: World, now: int, primaryOk: bool) returns (d: World)
    requires cfg.Valid() && s.mem.active == Primary && s.mem.announced && o(s.pos).ready && o(s.pos + 1).ready
    requires o(s.pos + 3).survives && !o(s.pos + 4).survives
    ensures Police(cfg, o, s, now, primaryOk, false) == Died(d)
    ensures d.pos == s.pos + 4
            && Core(d.disk, s.mem)
            && d.disk.pending != []
    ensures d.samples == s.samples + [Sample(now, Primary, primaryOk, false, false)]
            && d.attempts == s.attempts
  {
    var seen := s.(pos := s.pos + 2, samples := s.samples + [Sample(now, Primary, primaryOk, false, false)]);
    d := Append(o, seen, ShortRecovery, Ops);
    d := d.(disk := d.mem, pos := d.pos + 1);
  }

  /** A first good probe on the fallback. */
  lemma StartsRecovery(cfg: Config, o: Oracle, s: World, now: int) returns (c: World)
    requires cfg.Valid()
    requires s.mem.active == Fallback && s.mem.healthySince.None? && now - s.mem.lastReminderAt < 4 * 3600
    requires o(s.pos + 1).survives && o(s.pos + 2).survives && !o(s.pos + 2).ok
    requires o(s.pos + 3).survives && o(s.pos + 4).survives
    ensures Police(cfg, o, s, now, true, false) == Running(c)
    ensures c.pos == s.pos + 5
            && c.route == s.route
            && c.initialized == s.initialized
            && c.mem.pending != []
            && c.arrived == s.arrived
    ensures Core(c.mem, s.mem.(phase := OnFallback, healthySince := Some(now)))
    ensures c.samples == s.samples + [Sample(now, Fallback, true, false, false)]
  {
    hide Emit, Switch;
    var seen := s.(mem := s.mem.(phase := OnFallback, healthySince := Some(now)),
                   samples := s.samples + [Sample(now, Fallback, true, false, false)]);
    EmitRefused(o, seen, RecoveryStarted, Ops);
    c := Emit(o, seen, RecoveryStarted, Ops).world;
    c := c.(pos := c.pos + 2, disk := c.mem);
  }

  /** A good probe on which the policy returns, losing its process. */
  lemma Returns(cfg: Config, o: Oracle, s: World, now: int) returns (seen: World)
    requires cfg.Valid()
    requires s.mem.active == Fallback && s.mem.phase.OnFallback? && MayReturn(cfg, s.mem, now)
    ensures seen == s.(samples := s.samples + [Sample(now, Fallback, true, false, false)])
    ensures Switch(cfg, o, seen, Primary).Died? ==>
              Police(cfg, o, s, now, true, false) == Switch(cfg, o, seen, Primary)
  {
    hide Emit, Switch;
    seen := s.(samples := s.samples + [Sample(now, Fallback, true, false, false)]);
    assert s.mem.(phase := OnFallback) == s.mem;
  }

  lemma ConnectedDies(o: Oracle, w: World, target: Route) returns (d: World)
    requires !o(w.pos + 3).survives
    ensures Connected(o, w, target) == Died(d)
    ensures d.pos == w.pos + 3
            && d.disk == w.disk
            && d.samples == w.samples
    ensures d.arrived == if target == Fallback then Some(o(w.pos).now) else w.arrived
  {
    hide FlushEvents;
    d := Append(o, Arrived(o, w, target), Greeting(o, w, target), Both);
  }

  lemma FlushNothing(o: Oracle, w: World)
    requires w.mem.pending == []
    ensures FlushEvents(o, w) == Running(w)
  {
  }

  lemma RestoreLeaves(cfg: Config, o: Oracle, w: World, now: int) returns (left: World)
    requires w.mem.active == w.route && !w.route.Foreign? && w.mem.phase.InTransit()
    requires o(w.pos + 1).survives && o(w.pos + 2).survives && !o(w.pos + 2).ok
    ensures Restore(cfg, o, w, now) == Running(left)
    ensures left.pos == w.pos + 3
            && left.route == w.route
            && left.initialized
            && left.samples == w.samples
            && left.arrived == w.arrived
    ensures Core(left.mem, LeaveTransit(cfg, w, now).mem)
            && left.mem.pending != []
  {
    hide Emit;
    var leaving := LeaveTransit(cfg, w, now);
    EmitRefused(o, leaving, RestartRecovered, Ops);
    left := Emit(o, leaving, RestartRecovered, Ops).world;
    left := left.(initialized := true);
  }

  /** A first tick that leaves a broken-off switch, to where its sample is judged. */
  lemma RestoreSamples(cfg: Config, o: Oracle, w: World, p: nat) returns (s: World)
    requires !w.initialized && p == (if w.mem.pending != [] then w.pos + 1 else w.pos)
    requires w.mem.active == w.route && !w.route.Foreign? && w.mem.phase.InTransit()
    requires w.mem.pending != [] ==> o(w.pos).survives && !o(w.pos).ok
    requires o(p + 2).survives && o(p + 3).survives && !o(p + 3).ok && o(p + 4).survives
    requires w.mem.lastProbeAt.Some? && o(p).now - w.mem.lastProbeAt.value <= 3 * cfg.probeInterval
    requires cfg.Valid() && !o(p + 5).reauth
    ensures s.pos == p + 6
            && s.route == w.route
            && s.initialized
            && s.samples == w.samples
            && s.mem.pending != []
            && s.arrived == w.arrived
    ensures var now := o(p).now;
            && Core(s.mem, LeaveTransit(cfg, w, now).mem.(lastProbeAt := Some(now)))
            && Tick(cfg, o, w) == Police(cfg, o, s, now, o(p + 4).ok, false)
  {
    hide Police, FlushEvents, Restore;
    var flushed := w;
    if w.mem.pending != [] {
      FlushRefused(o, w);
      flushed := FlushEvents(o, w).world;
    } else {
      FlushNothing(o, w);
    }
    var now := o(p).now;
    var left := RestoreLeaves(cfg, o, flushed.(pos := p + 1), now);
    s := left.(pos := left.pos + 2, mem := left.mem.(lastProbeAt := Some(now)));
  }
}
