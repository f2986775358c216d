/**
 The MAX egress policy as functions on values (src/runtime/max_egress.py).

 Everything the controller cannot decide for itself (the clock, a probe, MAX being ready, a
 notification being accepted, the adapter managing to switch, the process surviving at all) is one
 `Answer` of an oracle.  Each interaction reads the answer at `pos` and moves on to the next, so a
 statement about every oracle is a statement about every environment and every crash point.
 */
module EgressModel {
  import opened Wrappers

  /** The configured primary and fallback profiles, distinct by construction, or any other profile. */
  datatype Route = Primary | Fallback | Foreign(id: nat)

  datatype Config = Config(
    probeInterval: int, failoverAfter: int, recoveryStable: int, minimumResidence: int,
    retryCooldown: int, connectTimeout: int, drainTimeout: int)
  {
    /** What the configuration loader enforces. */
    predicate Valid() {
      && 0 < probeInterval && 0 < failoverAfter && 0 < recoveryStable && 0 < minimumResidence
      && 0 < retryCooldown && 0 < connectTimeout && 0 < drainTimeout
    }
  }

  datatype Phase = OnPrimary | Waiting | Switching | OnFallback | Returning | RollingBack | AuthBlocked {
    /** The phases that exist only inside one switch. */
    predicate InTransit() {
      Switching? || Returning? || RollingBack?
    }
  }

  datatype Kind =
    | SwitchStarted(from: Route, to: Route) | CloseFailed | FallbackConnected
    | PrimaryConnected(seconds: int) | SwitchFailed | RollbackFinished(online: bool)
    | RestartRecovered | ShortRecovery | Outage | BothUnavailable | RecoveryStarted | Reminder

  datatype Audience = Ops | Both

  datatype EventId = EventId(incident: nat, sequence: nat)

  /** A queued notification: its id and everything its text is rendered from. */
  datatype Event = Event(id: EventId, kind: Kind, audience: Audience, stamp: int, active: Route, online: bool)

  /** The persisted dictionary, without the purely diagnostic probe details. */
  datatype EgressState = EgressState(
    active: Route, phase: Phase, incident: nat, sequence: nat,
    failedSince: Option<int>, healthySince: Option<int>, failures: nat,
    fallbackSince: Option<int>, cooldownUntil: int, deadline: Option<int>,
    lastProbeAt: Option<int>, pending: seq<Event>, lastReminderAt: int, announced: bool)
  {
    function Id(): EventId {
      EventId(incident, sequence)
    }
  }

  const FRESH := EgressState(Primary, OnPrimary, 0, 0, None, None, 0, None, 0, None, None, [], 0, false)

  /** One reply of the environment; each interaction uses the fields that concern it. */
  datatype Answer = Answer(now: int, ok: bool, ready: bool, reauth: bool, expired: bool, survives: bool, route: Route)

  type Oracle = nat -> Answer

  ghost predicate Clocked(o: Oracle) {
    forall i: nat, j: nat :: i <= j ==> o(i).now <= o(j).now
  }

  /** What one sampled tick saw. `down`: the primary probe failed and MAX was not ready either. */
  datatype Sample = Sample(at: int, active: Route, primaryOk: bool, down: bool, reauth: bool)

  /** A `_switch` that called the adapter, whether or not the process lived to see the outcome: its cooldown stamp,
      the samples behind the decision (all up to `seen`, those of the deciding process starting at `born`), and
      when MAX had last come to the fallback. */
  datatype Attempt = Attempt(stamp: int, target: Route, born: nat, seen: nat, arrived: Option<int>)

  /** The process, its state file, and the history of the run so far. `arrived` is when the fallback was last saved as the
      route, or, later, when MAX was last confirmed there. */
  datatype World = World(
    mem: EgressState, disk: EgressState, route: Route, initialized: bool, pos: nat,
    samples: seq<Sample>, attempts: seq<Attempt>, handed: seq<Event>,
    born: nat, lifeAccepted: seq<Event>, lifeEmitted: seq<Event>, arrived: Option<int>)

  /** A computation either goes on in a world or has lost its process in one. */
  datatype Step = Running(world: World) | Died(world: World) {
    predicate IsFailure() {
      Died?
    }

    function PropagateFailure(): Step
      requires Died?
    {
      this
    }

    function Extract(): World
      requires Running?
    {
      world
    }
  }

  function Save(o: Oracle, w: World): Step {
    if o(w.pos).survives then Running(w.(disk := w.mem, pos := w.pos + 1)) else Died(w)
  }

  function FlushEvents(o: Oracle, w: World): Step
    decreases |w.mem.pending|
  {
    if w.mem.pending == [] then Running(w)
    else
      var answer := o(w.pos);
      var event := w.mem.pending[0];
      if !answer.survives then Died(w)
      else
        var asked := w.(pos := w.pos + 1, handed := w.handed + [event]);
        if !answer.ok then Running(asked)
        else
          var popped := asked.(mem := w.mem.(pending := w.mem.pending[1..]), lifeAccepted := w.lifeAccepted + [event]);
          var saved :- Save(o, popped);
          FlushEvents(o, saved)
  }

  function NewEvent(o: Oracle, w: World, kind: Kind, audience: Audience): Event {
    Event(EventId(w.mem.incident, w.mem.sequence + 1), kind, audience, o(w.pos).now, w.mem.active, o(w.pos).ready)
  }

  function Append(o: Oracle, w: World, kind: Kind, audience: Audience): World {
    var event := NewEvent(o, w, kind, audience);
    w.(mem := w.mem.(sequence := w.mem.sequence + 1, pending := w.mem.pending + [event]),
       pos := w.pos + 1, lifeEmitted := w.lifeEmitted + [event])
  }

  function Emit(o: Oracle, w: World, kind: Kind, audience: Audience): Step {
    var saved :- Save(o, Append(o, w, kind, audience));
    FlushEvents(o, saved)
  }

  /** Polls every quarter second until ready, a reauthorisation issue, or the timeout. */
  function WaitReady(o: Oracle, pos: nat, polls: nat): (r: (nat, bool))
    ensures pos < r.0
    ensures r.1 ==> o(r.0 - 1).ready && !o(r.0 - 1).reauth
    decreases polls
  {
    var answer := o(pos);
    if polls == 0 || answer.expired || answer.reauth then (pos + 1, false)
    else if answer.ready then (pos + 1, true)
    else WaitReady(o, pos + 1, polls - 1)
  }

  /** As many quarter seconds as fit into the connect timeout. */
  function Polls(cfg: Config): nat {
    if 0 < cfg.connectTimeout then 4 * cfg.connectTimeout else 0
  }

  /** The adapter's `switch_egress`: moves the client to `target`, or raises and leaves the route. */
  function CallAdapter(o: Oracle, w: World, target: Route): Step {
    var answer := o(w.pos);
    if !answer.survives then Died(w)
    else Running(w.(pos := w.pos + 1, route := if answer.ok then target else w.route))
  }

  function TransitDeadline(cfg: Config, now: int): int {
    now + cfg.drainTimeout + cfg.connectTimeout + 30
  }

  function BeginSwitch(cfg: Config, o: Oracle, w: World, target: Route): World {
    w.(pos := w.pos + 2,
       mem := w.mem.(phase := if target == Primary then Returning else Switching,
                     deadline := Some(TransitDeadline(cfg, o(w.pos).now)),
                     cooldownUntil := o(w.pos + 1).now + cfg.retryCooldown))
  }

  function Moved(w: World, target: Route): World {
    w.(mem := w.mem.(active := target))
  }

  function Entered(w: World, target: Route, at: int): World {
    if target == Fallback then w.(arrived := Some(at)) else w
  }

  function LogAttempt(w: World, stamp: int, target: Route): World {
    w.(attempts := w.attempts + [Attempt(stamp, target, w.born, |w.samples|, w.arrived)])
  }

  function Switch(cfg: Config, o: Oracle, w: World, target: Route): Step
    requires cfg.Valid()
  {
    var announced :- Emit(o, BeginSwitch(cfg, o, w, target), SwitchStarted(w.mem.active, target), Ops);
    var attempted := LogAttempt(announced, o(w.pos + 1).now, target);
    var called :- CallAdapter(o, attempted, target);
    if !o(announced.pos).ok then
      var reported :- Emit(o, called, CloseFailed, Both);
      Died(reported)
    else Confirm(cfg, o, called, target, w.mem.active)
  }

  /** The adapter is on `target`: commit the route, then wait for MAX to come up there. */
  function Confirm(cfg: Config, o: Oracle, w: World, target: Route, previous: Route): Step
    requires cfg.Valid()
  {
    var saved :- Save(o, Moved(w, target));
    var moved := Entered(saved, target, o(w.pos).now);
    var (pos, ready) := WaitReady(o, moved.pos, Polls(cfg));
    if ready then Connected(o, moved.(pos := pos), target) else RollBack(cfg, o, moved.(pos := pos), previous)
  }

  /** The state a confirmed switch leaves, before its closing notification. */
  function Arrived(o: Oracle, w: World, target: Route): World {
    var settled := w.mem.(deadline := None, healthySince := None);
    w.(pos := w.pos + 2,
       arrived := if target == Fallback then Some(o(w.pos).now) else w.arrived,
       mem := if target == Fallback then
         settled.(phase := OnFallback, fallbackSince := Some(o(w.pos).now), lastReminderAt := o(w.pos + 1).now)
       else
         settled.(phase := OnPrimary, failedSince := None, fallbackSince := None, failures := 0, announced := false))
  }

  function Greeting(o: Oracle, w: World, target: Route): Kind {
    if target == Fallback then FallbackConnected
    else if w.mem.fallbackSince.None? || w.mem.fallbackSince.value == 0 then
      PrimaryConnected(o(w.pos).now - o(w.pos + 1).now)
    else PrimaryConnected(o(w.pos).now - w.mem.fallbackSince.value)
  }

  function Connected(o: Oracle, w: World, target: Route): Step {
    var done :- Emit(o, Arrived(o, w, target), Greeting(o, w, target), Both);
    Save(o, done)
  }

  function BeginRollBack(cfg: Config, o: Oracle, w: World): World {
    w.(pos := w.pos + 1,
       mem := w.mem.(phase := RollingBack, deadline := Some(TransitDeadline(cfg, o(w.pos).now))))
  }

  function RolledBack(cfg: Config, o: Oracle, w: World, previous: Route): World {
    w.(pos := w.pos + 1,
       mem := w.mem.(phase := if previous == Fallback then OnFallback else Waiting, deadline := None,
                     healthySince := None, cooldownUntil := o(w.pos).now + cfg.retryCooldown))
  }

  function RollBack(cfg: Config, o: Oracle, w: World, previous: Route): Step
    requires cfg.Valid()
  {
    var announced :- Emit(o, BeginRollBack(cfg, o, w), SwitchFailed, Both);
    var called :- CallAdapter(o, announced, previous);
    if !o(announced.pos).ok then Died(called) else Reconnect(cfg, o, called, previous)
  }

  /** The adapter is back on `previous`, where the rollback ends whether or not MAX comes up. */
  function Reconnect(cfg: Config, o: Oracle, w: World, previous: Route): Step
    requires cfg.Valid()
  {
    var moved :- Save(o, Moved(w, previous));
    var (pos, ready) := WaitReady(o, moved.pos, Polls(cfg));
    Emit(o, RolledBack(cfg, o, moved.(pos := pos), previous), RollbackFinished(ready), Both)
  }

  function LeaveTransit(cfg: Config, w: World, now: int): World {
    w.(mem := w.mem.(phase := if w.mem.active == Fallback then OnFallback else Waiting, deadline := None,
                     cooldownUntil := Max(w.mem.cooldownUntil, now + cfg.retryCooldown)))
  }

  /** The first tick of a process: bring the adapter to the durable route, leave a broken-off switch. */
  function Restore(cfg: Config, o: Oracle, w: World, now: int): Step {
    var known := if w.mem.active.Foreign? then Moved(w, Primary) else w;
    var routed :- if known.route != known.mem.active then CallAdapter(o, known, known.mem.active) else Running(known);
    if routed.route != routed.mem.active then Died(routed)
    else
      var settled :-
        if routed.mem.phase.InTransit() then Emit(o, LeaveTransit(cfg, routed, now), RestartRecovered, Ops)
        else Running(routed);
      Running(settled.(initialized := true))
  }

  function Max(a: int, b: int): int {
    if a < b then b else a
  }

  function TickOnPrimary(cfg: Config, o: Oracle, w: World, now: int, primaryOk: bool): Step
    requires cfg.Valid()
  {
    var up := primaryOk || o(w.pos).ready;
    var seen := w.(pos := w.pos + 1, samples := w.samples + [Sample(now, w.mem.active, primaryOk, !up, false)]);
    if up then PrimaryUp(o, seen) else PrimaryDown(cfg, o, seen, now)
  }

  function PrimaryUp(o: Oracle, w: World): Step {
    var read := w.(pos := w.pos + 1);
    var told :-
      if w.mem.announced && o(w.pos).ready then
        var sent :- Emit(o, read, ShortRecovery, Ops);
        Running(sent.(mem := sent.mem.(announced := false)))
      else Running(read);
    Running(told.(mem := told.mem.(failedSince := None, failures := 0, phase := OnPrimary)))
  }

  /** The counters after one more failing sample; a first failure opens a new incident. */
  function CountFailure(st: EgressState, now: int): (r: EgressState)
    ensures r.failedSince.Some?
  {
    var open :=
      if st.failedSince.Some? then st
      else if st.announced then st.(failedSince := Some(now))
      else st.(failedSince := Some(now), incident := st.incident + 1, sequence := 0);
    open.(failures := open.failures + 1, phase := Waiting)
  }

  function PrimaryDown(cfg: Config, o: Oracle, w: World, now: int): Step
    requires cfg.Valid()
  {
    WatchOutage(cfg, o, w.(mem := CountFailure(w.mem, now)), now)
  }

  function WatchOutage(cfg: Config, o: Oracle, w: World, now: int): Step
    requires cfg.Valid()
  {
    var told :- TellOutage(o, w);
    if MayFailOver(cfg, told.mem, now) then TryFailOver(cfg, o, told, now) else Running(told)
  }

  /** The second failure in a row of an unannounced incident is worth a message. */
  function TellOutage(o: Oracle, w: World): Step {
    if w.mem.failures >= 2 && !w.mem.announced then
      Emit(o, w.(mem := w.mem.(announced := true)), Outage, Ops)
    else Running(w)
  }

  predicate MayFailOver(cfg: Config, st: EgressState, now: int) {
    st.failedSince.Some?
    && now - st.failedSince.value >= cfg.failoverAfter
    && now >= st.cooldownUntil
  }

  function TryFailOver(cfg: Config, o: Oracle, w: World, now: int): Step
    requires cfg.Valid()
  {
    var probe := o(w.pos);
    var probed := w.(pos := w.pos + 1);
    if !probe.survives then Died(w)
    else if probe.ok then Switch(cfg, o, probed, Fallback)
    else Emit(o, probed.(mem := w.mem.(cooldownUntil := now + cfg.retryCooldown)), BothUnavailable, Both)
  }

  /** Whether the residence, stability and cooldown guards all let the controller try the primary. */
  predicate MayReturn(cfg: Config, st: EgressState, now: int) {
    && st.healthySince.Some?
    && now - st.healthySince.value >= cfg.recoveryStable
    && now - (if st.fallbackSince.Some? then st.fallbackSince.value else 0) >= cfg.minimumResidence
    && now >= st.cooldownUntil
  }

  function TickOnFallback(cfg: Config, o: Oracle, w: World, now: int, primaryOk: bool): Step
    requires cfg.Valid()
  {
    var seen := w.(mem := w.mem.(phase := OnFallback),
                   samples := w.samples + [Sample(now, w.mem.active, primaryOk, false, false)]);
    var moved :-
      if primaryOk then TimeRecovery(cfg, o, seen, now)
      else Running(seen.(mem := seen.mem.(healthySince := None)));
    Remind(o, moved, now)
  }

  function StartRecovery(o: Oracle, w: World, now: int): Step {
    if w.mem.healthySince.None? then
      Emit(o, w.(mem := w.mem.(healthySince := Some(now))), RecoveryStarted, Ops)
    else Running(w)
  }

  function TimeRecovery(cfg: Config, o: Oracle, w: World, now: int): Step
    requires cfg.Valid()
  {
    var timed :- StartRecovery(o, w, now);
    if MayReturn(cfg, timed.mem, now) then Switch(cfg, o, timed, Primary) else Running(timed)
  }

  /** Probes the fallback, whose result decides nothing, and reminds every four hours. */
  function Remind(o: Oracle, w: World, now: int): Step {
    if !o(w.pos).survives then Died(w)
    else
      var probed := w.(pos := w.pos + 1);
      if now - probed.mem.lastReminderAt >= 4 * 3600 then
        Emit(o, probed.(mem := probed.mem.(lastReminderAt := now)), Reminder, Both)
      else Running(probed)
  }

  /** A long monitoring gap proves neither a continuous failure nor a continuous recovery. */
  function AfterGap(cfg: Config, st: EgressState, now: int): EgressState {
    if st.lastProbeAt.Some? && now - st.lastProbeAt.value > cfg.probeInterval * 3 then
      st.(failedSince := None, healthySince := None, failures := 0)
    else st
  }

  function BlockOnAuth(st: EgressState): EgressState {
    st.(phase := AuthBlocked, failedSince := None, healthySince := None, failures := 0)
  }

  function BeginSampling(cfg: Config, w: World, now: int): World {
    w.(mem := AfterGap(cfg, w.mem, now).(lastProbeAt := Some(now)))
  }

  /** The part of a tick that runs when a probe is due. */
  function SampleRoutes(cfg: Config, o: Oracle, w: World, now: int): Step
    requires cfg.Valid()
  {
    var due := BeginSampling(cfg, w, now);
    if !o(w.pos).survives then Died(due)
    else Police(cfg, o, due.(pos := w.pos + 2), now, o(w.pos).ok, o(w.pos + 1).reauth)
  }

  function Police(cfg: Config, o: Oracle, w: World, now: int, primaryOk: bool, reauth: bool): Step
    requires cfg.Valid()
  {
    var done :-
      if reauth then
        Running(w.(mem := BlockOnAuth(w.mem), samples := w.samples + [Sample(now, w.mem.active, primaryOk, false, true)]))
      else if w.mem.active == Primary then TickOnPrimary(cfg, o, w, now, primaryOk)
      else TickOnFallback(cfg, o, w, now, primaryOk);
    Save(o, done)
  }

  predicate TooSoon(cfg: Config, st: EgressState, now: int) {
    st.lastProbeAt.Some?
    && now - st.lastProbeAt.value < cfg.probeInterval
  }

  function Tick(cfg: Config, o: Oracle, w: World): Step
    requires cfg.Valid()
  {
    var flushed :- FlushEvents(o, w);
    var now := o(flushed.pos).now;
    var begun := flushed.(pos := flushed.pos + 1);
    if begun.initialized then
      if TooSoon(cfg, begun.mem, now) then Running(begun) else SampleRoutes(cfg, o, begun, now)
    else
      var restored :- Restore(cfg, o, begun, now);
      SampleRoutes(cfg, o, restored, now)
  }

  /** What `__init__` makes of the state file. */
  function Load(disk: EgressState): EgressState {
    disk.(healthySince := None, active := if disk.active.Foreign? then Primary else disk.active)
  }

  /** A process starts over from the state file; the adapter comes up on whatever route it likes. */
  function Boot(o: Oracle, w: World): World {
    w.(mem := Load(w.disk), route := o(w.pos).route, initialized := false, pos := w.pos + 1,
       born := |w.samples|, lifeAccepted := [], lifeEmitted := w.disk.pending)
  }

  function Start(o: Oracle): World {
    Boot(o, World(FRESH, FRESH, Primary, false, 0, [], [], [], 0, [], [], None))
  }

  /** The run of `n` process steps an oracle leads to: a tick, or a restart if the process was lost. */
  function Run(cfg: Config, o: Oracle, n: nat): Step
    requires cfg.Valid()
  {
    if n == 0 then Running(Start(o))
    else
      match Run(cfg, o, n - 1)
      case Running(w) => Tick(cfg, o, w)
      case Died(w) => Running(Boot(o, w))
  }
}
