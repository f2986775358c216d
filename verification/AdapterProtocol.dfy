/** The live-client protocol of the MAX adapter in automatic egress mode. */
module AdapterProtocol {
  import opened Wrappers
  import opened EgressModel

  // The actors are the start loop (`MaxAdapter.start`), the lifecycle task (`MaxLifecycleService.start`), the switcher
  // (`MaxAdapter.switch_egress`) and the guarded operations. A step runs from one suspension point to the next. An asyncio
  // event that is set releases its waiters at once, even if it is cleared again before they run: `woken` records that.

  datatype Client = Client(route: Route, generation: nat, live: bool)

  datatype LoopState = AwaitingResume(woken: bool) | AwaitingTask | LoopEnded

  datatype TaskState =
    | NoTask | Created | AwaitingGate(woken: bool) | Connected | ClosingOwn | Sleeping | Cancelled | Failed
  {
    /** `task is not None and not task.done()` */
    predicate Unfinished() {
      !NoTask? && !Cancelled? && !Failed?
    }
  }

  datatype SwitchState =
    | Idle | Draining(target: Route, snapshot: set<nat>) | StoppingTask(target: Route) | ClosingClient(target: Route, id: nat)

  /** A guarded operation waiting for the gate, and whether an opening has released it. */
  datatype Waiter = Waiter(generation: nat, woken: bool)

  datatype Adapter = Adapter(
    clients: seq<Client>, connection: Option<nat>,
    backend: Route, egress: Route, selection: Route,
    gateOpen: bool, generation: nat, resume: bool,
    loop: LoopState, task: TaskState, cancelling: bool, switcher: SwitchState,
    running: map<nat, nat>, waiting: map<nat, Waiter>)

  function Initial(route: Route): Adapter {
    Adapter([], None, route, route, route, true, 0, true, AwaitingResume(true), NoTask, false, Idle, map[], map[])
  }

  datatype Action =
    | LoopSpawns | LoopResumes | Shutdown
    | TaskEnters(created: bool) | TaskPassesGate(created: bool) | ClientEnds | OwnCloseDone | OwnCloseFails | TaskCancelled
    | ClientDrops(id: nat)
    | SwitchBegins(target: Route) | SwitchDrained | DrainFails | TaskStopped | StopFails | ClientClosed | CloseFails
    | OperationCalled(op: nat, client: nat) | OperationResumes(op: nat) | OperationEnds(op: nat)
    | RouteRestored(route: Route)

  predicate Enabled(s: Adapter, a: Action) {
    match a
    case LoopSpawns => s.loop == AwaitingResume(true)
    case LoopResumes => s.loop.AwaitingTask? && (s.task.Cancelled? || s.task.Failed?)
    case Shutdown => !s.loop.LoopEnded?
    case TaskEnters(_) => (s.task.Created? || s.task.Sleeping?) && !s.cancelling
    case TaskPassesGate(_) => s.task == AwaitingGate(true) && !s.cancelling
    case ClientEnds => s.task.Connected? && !s.cancelling
    case OwnCloseDone => s.task.ClosingOwn? && s.connection.Some? && !s.cancelling
    case OwnCloseFails => s.task.ClosingOwn? && !s.cancelling
    case TaskCancelled => s.task.Unfinished() && s.cancelling
    case ClientDrops(id) => id < |s.clients|
    case SwitchBegins(_) => s.switcher.Idle?
    case SwitchDrained => s.switcher.Draining? && s.switcher.snapshot !! s.running.Keys
    case DrainFails => s.switcher.Draining?
    case TaskStopped => s.switcher.StoppingTask? && !s.task.Unfinished()
    case StopFails => s.switcher.StoppingTask?
    case ClientClosed => s.switcher.ClosingClient? && s.switcher.id < |s.clients|
    case CloseFails => s.switcher.ClosingClient?
    case OperationCalled(op, client) => op !in s.running && op !in s.waiting && client < |s.clients|
    case OperationResumes(op) => op in s.waiting && s.waiting[op].woken
    case OperationEnds(op) => op in s.running
    case RouteRestored(_) => s.task.NoTask? && s.connection.None? && s.switcher.Idle?
  }

  /** The lifecycle task from past the gate to `await client.start()`; creating the client may raise. */
  function Connect(s: Adapter, created: bool): Adapter {
    if created then
      s.(clients := s.clients + [Client(s.backend, s.generation, true)], connection := Some(|s.clients|), task := Connected)
    else if s.connection.Some? then s.(task := ClosingOwn)
    else s.(task := Sleeping)
  }

  function Close(clients: seq<Client>, id: nat): seq<Client>
    requires id < |clients|
  {
    clients[id := clients[id].(live := false)]
  }

  /** The switcher once the lifecycle task is out of the way: close what is connected, if anything. */
  function TakeClient(s: Adapter, target: Route): Adapter {
    if s.connection.Some? then s.(switcher := ClosingClient(target, s.connection.value)) else FinishSwitch(s, target)
  }

  /** The synchronous tail of `switch_egress`: the new route everywhere, a new generation, everyone released. */
  function FinishSwitch(s: Adapter, target: Route): Adapter {
    s.(connection := None, backend := target, egress := target, selection := target,
       generation := s.generation + 1, gateOpen := true, resume := true, switcher := Idle,
       task := if s.task.AwaitingGate? then AwaitingGate(true) else s.task,
       loop := if s.loop.AwaitingResume? then AwaitingResume(true) else s.loop,
       waiting := map op | op in s.waiting :: s.waiting[op].(woken := true))
  }

  function Apply(s: Adapter, a: Action): Adapter
    requires Enabled(s, a)
  {
    match a
    case LoopSpawns => s.(loop := AwaitingTask, task := Created, cancelling := false)
    case LoopResumes => s.(loop := if s.task.Failed? then LoopEnded else AwaitingResume(s.resume))
    case Shutdown => s.(loop := LoopEnded, cancelling := s.cancelling || s.loop.AwaitingTask?)
    case TaskEnters(created) => if s.gateOpen then Connect(s, created) else s.(task := AwaitingGate(false))
    case TaskPassesGate(created) => Connect(s, created)
    case ClientEnds => s.(task := if s.connection.Some? then ClosingOwn else Sleeping)
    case OwnCloseDone =>
      if s.connection.value < |s.clients| then
        s.(clients := Close(s.clients, s.connection.value), connection := None, task := Sleeping)
      else s.(connection := None, task := Sleeping)
    case OwnCloseFails => s.(task := Failed)
    case TaskCancelled => s.(task := Cancelled)
    case ClientDrops(id) => s.(clients := Close(s.clients, id))
    case SwitchBegins(target) => s.(resume := false, gateOpen := false, switcher := Draining(target, s.running.Keys))
    case SwitchDrained =>
      if s.task.Unfinished() then s.(cancelling := true, switcher := StoppingTask(s.switcher.target))
      else TakeClient(s, s.switcher.target)
    case DrainFails => s.(switcher := Idle)
    case TaskStopped => TakeClient(s, s.switcher.target)
    case StopFails => s.(switcher := Idle)
    case ClientClosed => FinishSwitch(s.(clients := Close(s.clients, s.switcher.id)), s.switcher.target)
    case CloseFails => s.(switcher := Idle)
    case OperationCalled(op, client) => Admit(s, op, s.clients[client].generation)
    case OperationResumes(op) => Check(s.(waiting := s.waiting - {op}), op, s.waiting[op].generation)
    case OperationEnds(op) => s.(running := s.running - {op})
    case RouteRestored(route) => s.(backend := route, egress := route, selection := route)
  }

  /** `OperationGate.run`: wait for the gate, then refuse an expired generation. */
  function Admit(s: Adapter, op: nat, generation: nat): Adapter {
    if s.gateOpen then Check(s, op, generation) else s.(waiting := s.waiting[op := Waiter(generation, false)])
  }

  function Check(s: Adapter, op: nat, generation: nat): Adapter {
    if generation == s.generation then s.(running := s.running[op := generation]) else s
  }

  /** The state an interleaving leads to, if every step of it could be taken. */
  function Execute(start: Route, actions: seq<Action>): Option<Adapter> {
    if actions == [] then Some(Initial(start))
    else
      match Execute(start, actions[..|actions| - 1])
      case None => None
      case Some(s) =>
        var a := actions[|actions| - 1];
        if Enabled(s, a) then Some(Apply(s, a)) else None
  }

  predicate AllClosed(clients: seq<Client>) {
    forall c :: c in clients ==> !c.live
  }

  /** Every unclosed client is the connected one and was created on the current route and generation. */
  ghost predicate ClientsSafe(s: Adapter) {
    && s.backend == s.egress == s.selection
    && (s.connection.Some? ==> s.connection.value < |s.clients|)
    && (forall i :: 0 <= i < |s.clients| && s.clients[i].live ==>
          s.connection == Some(i) && s.clients[i].route == s.backend && s.clients[i].generation == s.generation)
    && (forall i :: 0 <= i < |s.clients| ==> s.clients[i].generation <= s.generation)
  }

  /** Nobody is about to create a client while one is connected. */
  ghost predicate ActorsSafe(s: Adapter) {
    && (s.task.Created? || s.task.AwaitingGate? || s.task.Sleeping? || s.task.NoTask? ==> s.connection.None?)
    && (s.task.Unfinished() ==> s.loop.AwaitingTask? || s.loop.LoopEnded?)
    && (s.loop.AwaitingTask? ==> !s.task.NoTask?)
    && (s.loop == AwaitingResume(true) ==> s.connection.None?)
    && (s.resume && s.task.Cancelled? && !s.loop.LoopEnded? ==> s.connection.None?)
    && (s.loop.AwaitingResume? ==> s.task.NoTask? || s.task.Cancelled?)
    && (s.cancelling && s.task.Unfinished() && !s.loop.LoopEnded? ==> !s.resume)
    && (!s.switcher.Idle? ==> !s.resume && !s.gateOpen)
    && s.resume == s.gateOpen
    && (s.resume && s.loop.AwaitingResume? ==> s.loop.woken)
    && (s.gateOpen && s.task.AwaitingGate? ==> s.task.woken)
    && (s.task.ClosingOwn? && !s.cancelling ==> s.connection.Some?)
    && (s.switcher.StoppingTask? ==> !s.task.NoTask?)
    && (s.switcher.ClosingClient? ==> s.connection == Some(s.switcher.id) && !s.task.Unfinished())
  }

  /** No running operation belongs to an earlier generation, and none survives a drain. */
  ghost predicate OperationsSafe(s: Adapter) {
    && (forall op :: op in s.running ==> s.running[op] == s.generation)
    && (forall op :: op in s.waiting ==> s.waiting[op].generation <= s.generation)
    && (forall op :: op in s.waiting && s.waiting[op].woken ==> s.waiting[op].generation < s.generation)
    && s.running.Keys !! s.waiting.Keys
    && (s.switcher.Draining? ==> s.running.Keys <= s.switcher.snapshot)
    && (s.switcher.StoppingTask? || s.switcher.ClosingClient? ==> s.running == map[])
  }

  ghost predicate Safe(s: Adapter) {
    ClientsSafe(s) && ActorsSafe(s) && OperationsSafe(s)
  }

  predicate BySwitcher(a: Action) {
    a.SwitchBegins? || a.SwitchDrained? || a.DrainFails? || a.TaskStopped? || a.StopFails? || a.ClientClosed? || a.CloseFails?
  }

  predicate ByTask(a: Action) {
    a.TaskEnters? || a.TaskPassesGate? || a.ClientEnds? || a.OwnCloseDone? || a.OwnCloseFails? || a.TaskCancelled?
  }

  lemma ClientsKeptBySwitcher(s: Adapter, a: Action)
    requires ClientsSafe(s) && ActorsSafe(s) && Enabled(s, a) && BySwitcher(a)
    ensures ClientsSafe(Apply(s, a))
  {
  }

  lemma ActorsKeptBySwitcher(s: Adapter, a: Action)
    requires ClientsSafe(s) && ActorsSafe(s) && Enabled(s, a) && BySwitcher(a)
    ensures ActorsSafe(Apply(s, a))
  {
  }

  lemma ClientsKeptByTask(s: Adapter, a: Action)
    requires ClientsSafe(s) && ActorsSafe(s) && Enabled(s, a) && ByTask(a)
    ensures ClientsSafe(Apply(s, a))
  {
  }

  lemma ActorsKeptByTask(s: Adapter, a: Action)
    requires ClientsSafe(s) && ActorsSafe(s) && Enabled(s, a) && ByTask(a)
    ensures ActorsSafe(Apply(s, a))
  {
  }

  lemma ClientsKeptByOthers(s: Adapter, a: Action)
    requires ClientsSafe(s) && ActorsSafe(s) && Enabled(s, a) && !BySwitcher(a) && !ByTask(a)
    ensures ClientsSafe(Apply(s, a))
  {
  }

  lemma ActorsKeptByOthers(s: Adapter, a: Action)
    requires ClientsSafe(s) && ActorsSafe(s) && Enabled(s, a) && !BySwitcher(a) && !ByTask(a)
    ensures ActorsSafe(Apply(s, a))
  {
  }

  lemma OperationsKeptBySwitcher(s: Adapter, a: Action)
    requires Safe(s) && Enabled(s, a) && BySwitcher(a)
    ensures OperationsSafe(Apply(s, a))
  {
  }

  lemma OperationsKeptByTask(s: Adapter, a: Action)
    requires Safe(s) && Enabled(s, a) && ByTask(a)
    ensures OperationsSafe(Apply(s, a))
  {
  }

  lemma OperationsKeptByOthers(s: Adapter, a: Action)
    requires Safe(s) && Enabled(s, a) && !BySwitcher(a) && !ByTask(a)
    ensures OperationsSafe(Apply(s, a))
  {
  }

  lemma StepKeeps(s: Adapter, a: Action)
    requires Safe(s) && Enabled(s, a)
    ensures Safe(Apply(s, a))
  {
    hide Apply, Enabled, ClientsSafe, ActorsSafe, OperationsSafe;
    if BySwitcher(a) {
      ClientsKeptBySwitcher(s, a);
      ActorsKeptBySwitcher(s, a);
      OperationsKeptBySwitcher(s, a);
    } else if ByTask(a) {
      ClientsKeptByTask(s, a);
      ActorsKeptByTask(s, a);
      OperationsKeptByTask(s, a);
    } else {
      ClientsKeptByOthers(s, a);
      ActorsKeptByOthers(s, a);
      OperationsKeptByOthers(s, a);
    }
  }

  lemma {:induction false} AlwaysSafe(start: Route, actions: seq<Action>)
    requires Execute(start, actions).Some?
    ensures Safe(Execute(start, actions).value)
  {
    hide Apply, Safe;
    if actions == [] {
      InitiallySafe(start);
    } else {
      AlwaysSafe(start, actions[..|actions| - 1]);
      StepKeeps(Execute(start, actions[..|actions| - 1]).value, actions[|actions| - 1]);
    }
  }

  lemma InitiallySafe(start: Route)
    ensures Safe(Initial(start))
  {
  }

  /** Under every interleaving there is at most one unclosed client, connected on the one current route. */
  lemma OneLiveClientOnOneRoute(start: Route, actions: seq<Action>, i: nat, j: nat)
    requires Execute(start, actions).Some?
    requires var s := Execute(start, actions).value;
             i < |s.clients| && j < |s.clients| && s.clients[i].live && s.clients[j].live
    ensures var s := Execute(start, actions).value;
            && i == j && s.connection == Some(i)
            && s.clients[i].route == s.backend == s.egress == s.selection
            && s.clients[i].generation == s.generation
  {
    hide Execute;
    AlwaysSafe(start, actions);
  }

  /** A client is only ever created when every earlier one has been closed. */
  lemma CreatedAlone(start: Route, actions: seq<Action>, a: Action)
    requires Execute(start, actions + [a]).Some? && Execute(start, actions).Some?
    requires |Execute(start, actions + [a]).value.clients| > |Execute(start, actions).value.clients|
    ensures AllClosed(Execute(start, actions).value.clients)
  {
    assert (actions + [a])[..|actions|] == actions;
    AlwaysSafe(start, actions);
  }

  function TargetOf(sw: SwitchState): Route
    requires !sw.Idle?
  {
    match sw
    case Draining(target, _) => target
    case StoppingTask(target) => target
    case ClosingClient(target, _) => target
  }

  /** A switch has succeeded: everything is on its target and everything older is gone. */
  predicate Landed(s: Adapter, target: Route) {
    && s.egress == s.backend == s.selection == target
    && s.gateOpen
    && s.resume
    && AllClosed(s.clients)
    && s.connection.None?
    && s.running == map[]
  }

  /** A switch has raised: the route is the old one, and no new client or operation gets through. */
  predicate Abandoned(s: Adapter, before: Adapter) {
    && s.egress == before.egress
    && s.backend == before.backend
    && s.selection == before.selection
    && s.generation == before.generation
    && !s.gateOpen
    && !s.resume
  }

  /** One step of a switch under way leaves it under way on the old route, lands it, or abandons it. */
  lemma SwitchStep(s: Adapter, a: Action)
    requires Safe(s) && Enabled(s, a) && !s.switcher.Idle?
    ensures var after := Apply(s, a);
            if after.switcher.Idle? then
              Abandoned(after, s) || (Landed(after, TargetOf(s.switcher)) && after.generation == s.generation + 1)
            else
              Abandoned(after, s)
              && TargetOf(after.switcher) == TargetOf(s.switcher)
  {
  }

  /** Runs `actions` while the switch that is under way has not ended. */
  function During(s: Adapter, actions: seq<Action>): Option<Adapter>
    decreases |actions|
  {
    if actions == [] then Some(s)
    else if s.switcher.Idle? || !Enabled(s, actions[0]) then None
    else During(Apply(s, actions[0]), actions[1..])
  }

  /** However the actors interleave with it, a switch that returns has moved everything, one that raises nothing. */
  lemma {:induction false} SwitchIsAllOrNothing(s: Adapter, target: Route, actions: seq<Action>)
    requires Safe(s) && !s.switcher.Idle? && TargetOf(s.switcher) == target
    requires During(s, actions).Some? && During(s, actions).value.switcher.Idle?
    ensures var after := During(s, actions).value;
            Abandoned(after, s) || (Landed(after, target) && after.generation == s.generation + 1)
    decreases |actions|
  {
    hide Apply, Safe;
    StepKeeps(s, actions[0]);
    SwitchStep(s, actions[0]);
    var next := Apply(s, actions[0]);
    if next.switcher.Idle? {
      assert actions[1..] == [];
    } else {
      SwitchIsAllOrNothing(next, target, actions[1..]);
    }
  }

  /** To the controller this is the atomic call its policy model makes. */
  lemma SwitchRefinesCall(start: Route, before: seq<Action>, target: Route, actions: seq<Action>, o: Oracle, w: World)
    requires Execute(start, before).Some?
    requires var s := Execute(start, before).value;
             && s.switcher.Idle? && w.route == s.egress
             && During(Apply(s, SwitchBegins(target)), actions).Some?
             && During(Apply(s, SwitchBegins(target)), actions).value.switcher.Idle?
             && o(w.pos).survives
             && o(w.pos).ok == During(Apply(s, SwitchBegins(target)), actions).value.gateOpen
    ensures var s := Execute(start, before).value;
            CallAdapter(o, w, target).world.route == During(Apply(s, SwitchBegins(target)), actions).value.egress
  {
    hide Execute, During;
    AlwaysSafe(start, before);
    var s := Execute(start, before).value;
    StepKeeps(s, SwitchBegins(target));
    SwitchIsAllOrNothing(Apply(s, SwitchBegins(target)), target, actions);
  }

  /** No guarded operation ever runs against a route other than the one it was admitted on. */
  lemma OperationsNeverSpanSwitches(start: Route, actions: seq<Action>, a: Action)
    requires Execute(start, actions).Some? && Enabled(Execute(start, actions).value, a)
    ensures var s := Execute(start, actions).value;
            && (forall op :: op in s.running ==> s.running[op] == s.generation)
            && (Apply(s, a).generation != s.generation ==> s.running == map[] && Apply(s, a).running == map[])
            && (forall op :: op in Apply(s, a).running && op !in s.running ==> Apply(s, a).running[op] == s.generation)
  {
    hide Execute;
    AlwaysSafe(start, actions);
    StepKeeps(Execute(start, actions).value, a);
  }

  /**
   An operation that is called runs exactly if the gate is open and its client is of the current generation, as the live
   client is; it waits if the gate is closed, and is refused otherwise. Nothing else changes.
   */
  lemma CalledOperationRunsIff(start: Route, actions: seq<Action>, op: nat, client: nat)
    requires Execute(start, actions).Some? && Enabled(Execute(start, actions).value, OperationCalled(op, client))
    ensures var s := Execute(start, actions).value; var after := Apply(s, OperationCalled(op, client));
            && (op in after.running <==> s.gateOpen && s.clients[client].generation == s.generation)
            && (op in after.running ==> after.running[op] == s.clients[client].generation)
            && (s.gateOpen && s.clients[client].live ==> op in after.running)
            && (op in after.waiting <==> !s.gateOpen)
            && (op in after.waiting ==> after.waiting[op] == Waiter(s.clients[client].generation, false))
            && after.running - {op} == s.running
            && after.waiting - {op} == s.waiting
            && after == s.(running := after.running, waiting := after.waiting)
  {
    hide Execute;
    AlwaysSafe(start, actions);
  }

  /** An operation that waited at the gate did so through a switch: once released it is refused, whatever it belongs to. */
  lemma ReleasedOperationIsRefused(start: Route, actions: seq<Action>, op: nat)
    requires Execute(start, actions).Some? && Enabled(Execute(start, actions).value, OperationResumes(op))
    ensures var s := Execute(start, actions).value; var after := Apply(s, OperationResumes(op));
            && s.waiting[op].generation < s.generation
            && op !in after.running
            && after == s.(waiting := s.waiting - {op})
  {
    hide Execute;
    AlwaysSafe(start, actions);
  }

  /** A running operation goes on until it ends, and one that waits goes on waiting until it is released. */
  lemma OperationsStayUntilTheyEnd(start: Route, actions: seq<Action>, a: Action, op: nat)
    requires Execute(start, actions).Some? && Enabled(Execute(start, actions).value, a)
    ensures var s, after := Execute(start, actions).value, Apply(Execute(start, actions).value, a);
            && (op in s.running && a != OperationEnds(op) ==> op in after.running && after.running[op] == s.running[op])
            && (op in s.waiting && a != OperationResumes(op) ==>
                  op in after.waiting && after.waiting[op].generation == s.waiting[op].generation)
            && (op in s.waiting && after.generation != s.generation ==> op in after.waiting && after.waiting[op].woken)
  {
    hide Execute;
    AlwaysSafe(start, actions);
  }

  predicate IsActorStep(a: Action) {
    a in {LoopSpawns, LoopResumes, TaskEnters(true), TaskPassesGate(true), ClientEnds, OwnCloseDone}
  }

  /** The state after `actions`, if each can be taken in turn. */
  function Follow(s: Adapter, actions: seq<Action>): Option<Adapter>
    decreases |actions|
  {
    if actions == [] then Some(s)
    else if Enabled(s, actions[0]) then Follow(Apply(s, actions[0]), actions[1..])
    else None
  }

  lemma {:induction false} FollowJoins(s: Adapter, first: seq<Action>, second: seq<Action>)
    requires Follow(s, first).Some?
    ensures Follow(s, first + second) == Follow(Follow(s, first).value, second)
    decreases |first|
  {
    hide Apply, Enabled;
    if first == [] {
      assert first + second == second;
    } else {
      assert (first + second)[1..] == first[1..] + second;
      FollowJoins(Apply(s, first[0]), first[1..], second);
    }
  }

  /** A step of a switch in which nothing fails. */
  predicate IsSmooth(a: Action) {
    a.SwitchBegins? || a.OperationEnds? || a.SwitchDrained? || a.TaskCancelled? || a.TaskStopped? || a.ClientClosed?
  }

  lemma {:induction false} DrainCanEnd(s: Adapter) returns (way: seq<Action>)
    requires Safe(s) && s.switcher.Draining?
    ensures Follow(s, way) == Some(s.(running := map[])) && forall a :: a in way ==> IsSmooth(a)
    decreases |s.running|
  {
    way := [];
    if s.running != map[] {
      var op :| op in s.running;
      var next := Apply(s, OperationEnds(op));
      StepKeeps(s, OperationEnds(op));
      assert |next.running| < |s.running| by {
        assert next.running.Keys < s.running.Keys;
        SmallerSet(next.running.Keys, s.running.Keys);
        assert |next.running.Keys| == |next.running| && |s.running.Keys| == |s.running|;
      }
      hide Safe;
      var rest := DrainCanEnd(next);
      way := [OperationEnds(op)] + rest;
    }
  }

  lemma SmallerSet(a: set<nat>, b: set<nat>)
    requires a < b
    ensures |a| < |b|
  {
    var x :| x in b && x !in a;
    assert a <= b - {x};
    SubsetSize(a, b - {x});
  }

  lemma {:induction false} SubsetSize(a: set<nat>, b: set<nat>)
    requires a <= b
    ensures |a| <= |b|
  {
    if x :| x in a {
      SubsetSize(a - {x}, b - {x});
    }
  }

  /** What is left for the switcher to do once every operation has ended. */
  function WayToLand(s: Adapter): seq<Action> {
    [SwitchDrained]
    + (if s.task.Unfinished() then [TaskCancelled, TaskStopped] else [])
    + (if s.connection.Some? then [ClientClosed] else [])
  }

  lemma WayLands(s: Adapter)
    requires Safe(s) && s.switcher.Draining? && s.running == map[]
    ensures Follow(s, WayToLand(s)).Some?
            && Landed(Follow(s, WayToLand(s)).value, s.switcher.target)
    ensures Follow(s, WayToLand(s)).value.generation == s.generation + 1
  {
    hide OperationsSafe, Landed;
    var way, rest := WayToLand(s), if s.connection.Some? then [ClientClosed] else [];
    var drained := Apply(s, SwitchDrained);
    StepKeeps(s, SwitchDrained);
    SwitchStep(s, SwitchDrained);
    if s.task.Unfinished() {
      var cancelled := Apply(drained, TaskCancelled);
      StepKeeps(drained, TaskCancelled);
      SwitchStep(cancelled, TaskStopped);
      var stopped := Apply(cancelled, TaskStopped);
      StepKeeps(cancelled, TaskStopped);
      LandsFrom(stopped, s, rest);
      hide Apply, Enabled, Safe;
      assert way[1..] == [TaskCancelled, TaskStopped] + rest;
      assert way[1..][1..] == [TaskStopped] + rest;
      assert way[1..][1..][1..] == rest;
      assert Follow(drained, way[1..]) == Follow(stopped, rest);
    } else {
      assert way[1..] == rest;
      LandsFrom(drained, s, rest);
    }
  }

  lemma LandsFrom(at: Adapter, s: Adapter, rest: seq<Action>)
    requires Safe(at) && s.switcher.Draining?
    requires rest == if s.connection.Some? then [ClientClosed] else []
    requires if s.connection.Some? then
               && at.switcher == ClosingClient(s.switcher.target, s.connection.value) && at.generation == s.generation
             else at.switcher.Idle? && Landed(at, s.switcher.target) && at.generation == s.generation + 1
    ensures Follow(at, rest).Some?
            && Landed(Follow(at, rest).value, s.switcher.target)
    ensures Follow(at, rest).value.generation == s.generation + 1
  {
    if s.connection.Some? {
      SwitchStep(at, ClientClosed);
      assert Follow(Apply(at, ClientClosed), []) == Some(Apply(at, ClientClosed));
    }
  }

  /** From every state without a switch under way, any route can be reached by a switch in which nothing fails. */
  lemma SwitchCanLand(start: Route, actions: seq<Action>, target: Route)
    requires Execute(start, actions).Some? && Execute(start, actions).value.switcher.Idle?
    ensures var s := Execute(start, actions).value;
            exists way :: && Follow(s, way).Some? && (forall a :: a in way ==> IsSmooth(a))
                          && Landed(Follow(s, way).value, target)
                          && Follow(s, way).value.generation == s.generation + 1
  {
    hide Execute, Landed;
    AlwaysSafe(start, actions);
    var s := Execute(start, actions).value;
    var begun := Apply(s, SwitchBegins(target));
    StepKeeps(s, SwitchBegins(target));
    var ends := DrainCanEnd(begun);
    var drained := begun.(running := map[]);
    assert Safe(drained);
    WayLands(drained);
    FollowJoins(begun, ends, WayToLand(drained));
    hide Safe;
    var way := [SwitchBegins(target)] + (ends + WayToLand(drained));
    assert way[1..] == ends + WayToLand(drained);
    assert forall a :: a in way ==> IsSmooth(a);
    assert Follow(s, way) == Follow(begun, way[1..]);
  }

  /** A client is connected and not closed. */
  predicate Online(s: Adapter) {
    s.task.Connected?
    && s.connection.Some?
    && s.connection.value < |s.clients|
    && s.clients[s.connection.value].live
  }

  /** The steps the start loop and the lifecycle task have to take from here to be online. */
  function WayOnline(s: Adapter): seq<Action> {
    if Online(s) then []
    else if s.loop.AwaitingResume? then [LoopSpawns, TaskEnters(true)]
    else
      match s.task
      case AwaitingGate(_) => [TaskPassesGate(true)]
      case Connected => if s.connection.Some? then [ClientEnds, OwnCloseDone, TaskEnters(true)] else [ClientEnds, TaskEnters(true)]
      case ClosingOwn => [OwnCloseDone, TaskEnters(true)]
      case Cancelled => [LoopResumes, LoopSpawns, TaskEnters(true)]
      case _ => [TaskEnters(true)]
  }

  lemma {:induction false} WayLeadsOnline(s: Adapter)
    requires Safe(s) && s.gateOpen && !s.loop.LoopEnded? && !s.task.Failed?
    ensures Follow(s, WayOnline(s)).Some?
            && Online(Follow(s, WayOnline(s)).value)
    ensures Follow(s, WayOnline(s)).value.backend == s.backend
    decreases |WayOnline(s)|
  {
    if WayOnline(s) != [] {
      FirstStepOnline(s);
      StepKeeps(s, WayOnline(s)[0]);
      hide WayOnline, Apply, Enabled, Safe;
      WayLeadsOnline(Apply(s, WayOnline(s)[0]));
    }
  }

  lemma FirstStepOnline(s: Adapter)
    requires Safe(s) && s.gateOpen && !s.loop.LoopEnded? && !s.task.Failed? && WayOnline(s) != []
    ensures var a := WayOnline(s)[0];
            && Enabled(s, a)
            && var next := Apply(s, a);
               && next.gateOpen
               && !next.loop.LoopEnded?
               && !next.task.Failed?
               && next.backend == s.backend
               && WayOnline(next) == WayOnline(s)[1..]
  {
  }

  /**
   While no switch holds the gate, the reconnecting actors are at most three steps of their own from a live client on the current
   route, unless the start loop has ended or is about to because its task failed.
   */
  lemma ReconnectNeverStuck(start: Route, actions: seq<Action>)
    requires Execute(start, actions).Some?
    requires Execute(start, actions).value.gateOpen && !Execute(start, actions).value.loop.LoopEnded?
    ensures var s := Execute(start, actions).value;
            if s.task.Failed? then Enabled(s, LoopResumes) && Apply(s, LoopResumes).loop.LoopEnded?
            else
              exists way :: |way| <= 3 && (forall a :: a in way ==> IsActorStep(a)) && Follow(s, way).Some?
                            && Online(Follow(s, way).value)
                            && Follow(s, way).value.backend == s.backend
  {
    hide Execute, Follow;
    AlwaysSafe(start, actions);
    var s := Execute(start, actions).value;
    if !s.task.Failed? {
      WayLeadsOnline(s);
      var way := WayOnline(s);
      assert |way| <= 3 && forall a :: a in way ==> IsActorStep(a);
    }
  }
}
