/**
 What a switch leaves and tells, for every environment, and when it ends on its target.
 */
module EgressSwitching {
  import opened Wrappers
  import opened EgressModel
  import opened EgressFiles

  /** What was emitted in between: kinds and audiences, in order. */
  ghost predicate Told(w: World, after: World, notices: seq<(Kind, Audience)>) {
    && |after.lifeEmitted| == |w.lifeEmitted| + |notices|
    && w.lifeEmitted <= after.lifeEmitted
    && forall i :: 0 <= i < |notices| ==>
         after.lifeEmitted[|w.lifeEmitted| + i].kind == notices[i].0
         && after.lifeEmitted[|w.lifeEmitted| + i].audience == notices[i].1
  }

  lemma ToldOn(w: World, middle: World, after: World, first: seq<(Kind, Audience)>, second: seq<(Kind, Audience)>)
    requires Told(w, middle, first) && Told(middle, after, second)
    ensures Told(w, after, first + second)
  {
  }

  /** Handing over writes at most what is in memory, and changes nothing else but the queue. */
  lemma {:induction false} FlushLeaves(o: Oracle, w: World)
    ensures var r := FlushEvents(o, w); var after := r.world;
            && (after.disk == w.disk || after.disk == w.mem.(pending := after.disk.pending))
            && after.mem == w.mem.(pending := after.mem.pending)
            && (r.Running? && w.disk == w.mem ==> after.disk == after.mem)
            && after.lifeEmitted == w.lifeEmitted
            && Moves(w, after)
    decreases |w.mem.pending|
  {
    hide Save;
    if w.mem.pending != [] && o(w.pos).survives && o(w.pos).ok {
      var popped := w.(pos := w.pos + 1, handed := w.handed + [w.mem.pending[0]],
                       mem := w.mem.(pending := w.mem.pending[1..]), lifeAccepted := w.lifeAccepted + [w.mem.pending[0]]);
      SaveCarries(o, popped);
      if Save(o, popped).Running? {
        FlushLeaves(o, Save(o, popped).world);
      }
    }
  }

  /** Nothing but the state, the file and the notifications has changed. */
  ghost predicate Moves(w: World, after: World) {
    w.pos <= after.pos
    && (after.route, after.arrived, after.initialized, after.born, after.attempts, after.samples)
    == (w.route, w.arrived, w.initialized, w.born, w.attempts, w.samples)
  }

  /** Telling of an event writes at most what is in memory with it, and changes nothing else but the queue. */
  lemma EmitLeaves(o: Oracle, w: World, kind: Kind, audience: Audience)
    ensures var r := Emit(o, w, kind, audience); var after := r.world;
            && Told(w, after, [(kind, audience)])
            && (after.disk == w.disk || after.disk == w.mem.(sequence := after.disk.sequence, pending := after.disk.pending))
            && after.mem == w.mem.(sequence := after.mem.sequence, pending := after.mem.pending)
            && (r.Running? ==> after.disk == after.mem)
            && Moves(w, after)
  {
    hide FlushEvents, Save;
    var queued := Append(o, w, kind, audience);
    SaveCarries(o, queued);
    if Save(o, queued).Running? {
      FlushLeaves(o, Save(o, queued).world);
    }
  }

  /** By `end` the notifier was offered `events` in turn, accepted all but what is left, and refused the first of that. */
  ghost predicate HandedOver(o: Oracle, w: World, after: World, events: seq<Event>, end: nat) {
    var left := after.mem.pending;
    && |left| <= |events| && left == events[|events| - |left|..]
    && after.handed == w.handed + events[..|events| - |left|] + left[..if left == [] then 0 else 1]
    && after.lifeAccepted == w.lifeAccepted + events[..|events| - |left|]
    && (left != [] ==> w.pos < end && !o(end - 1).ok)
  }

  /** What is queued is offered in order until the notifier refuses something, and what it accepts leaves the file too. */
  lemma {:induction false} FlushHandsOver(o: Oracle, w: World)
    requires FlushEvents(o, w).Running?
    ensures var r := FlushEvents(o, w);
            HandedOver(o, w, r.world, w.mem.pending, r.world.pos)
            && (r.world.mem.pending != w.mem.pending ==> r.world.disk == r.world.mem)
    decreases |w.mem.pending|
  {
    if w.mem.pending != [] && o(w.pos).ok {
      var popped := w.(pos := w.pos + 1, handed := w.handed + [w.mem.pending[0]],
                       mem := w.mem.(pending := w.mem.pending[1..]), lifeAccepted := w.lifeAccepted + [w.mem.pending[0]]);
      var saved := Save(o, popped).world;
      hide HandedOver, FlushEvents;
      assert FlushEvents(o, w) == FlushEvents(o, saved) by {
        FlushesOn(o, w, saved);
      }
      FlushHandsOver(o, saved);
      OfferedFirst(o, w, saved, FlushEvents(o, saved).world);
      FlushLeaves(o, saved);
    }
  }

  lemma FlushesOn(o: Oracle, w: World, saved: World)
    requires w.mem.pending != [] && o(w.pos).survives && o(w.pos).ok
    requires Save(o, w.(pos := w.pos + 1, handed := w.handed + [w.mem.pending[0]], mem := w.mem.(pending := w.mem.pending[1..]),
                        lifeAccepted := w.lifeAccepted + [w.mem.pending[0]])) == Running(saved)
    ensures FlushEvents(o, w) == FlushEvents(o, saved)
  {
  }

  lemma SameHandOver(o: Oracle, w: World, later: World, after: World, events: seq<Event>, end: nat)
    requires HandedOver(o, later, after, events, end) && w.pos <= later.pos
    requires later.handed == w.handed && later.lifeAccepted == w.lifeAccepted
    ensures HandedOver(o, w, after, events, end)
  {
  }

  lemma OfferedFirst(o: Oracle, w: World, later: World, after: World)
    requires w.mem.pending != [] && HandedOver(o, later, after, w.mem.pending[1..], after.pos) && w.pos <= later.pos
    requires later.handed == w.handed + [w.mem.pending[0]] && later.lifeAccepted == w.lifeAccepted + [w.mem.pending[0]]
    ensures HandedOver(o, w, after, w.mem.pending, after.pos)
            && after.mem.pending != w.mem.pending
  {
    var n := |w.mem.pending| - |after.mem.pending|;
    assert w.mem.pending[..n] == [w.mem.pending[0]] + w.mem.pending[1..][..n - 1];
  }

  /** A new event is queued behind the others, and all of them are offered. */
  lemma EmitHandsOver(o: Oracle, w: World, kind: Kind, audience: Audience)
    requires Emit(o, w, kind, audience).Running?
    ensures var r := Emit(o, w, kind, audience);
            && r.world.lifeEmitted == w.lifeEmitted + [Event(EventId(w.mem.incident, w.mem.sequence + 1), kind, audience, o(w.pos).now,
                                                             w.mem.active, o(w.pos).ready)]
            && HandedOver(o, w, r.world, w.mem.pending + [r.world.lifeEmitted[|r.world.lifeEmitted| - 1]], r.world.pos)
  {
    hide FlushEvents, HandedOver;
    var queued := Append(o, w, kind, audience);
    var saved := Save(o, queued).world;
    FlushLeaves(o, saved);
    FlushHandsOver(o, saved);
    SameHandOver(o, w, saved, FlushEvents(o, saved).world, saved.mem.pending, FlushEvents(o, saved).world.pos);
  }

  // --- waiting and switching ---

  /** The poll at `at` finds MAX ready, and none since `from` ended the wait before. */
  ghost predicate ReadyAt(o: Oracle, from: nat, at: nat) {
    && from <= at
    && o(at).ready
    && !o(at).reauth
    && !o(at).expired
    && forall j: nat :: from <= j < at ==> !o(j).ready && !o(j).reauth && !o(j).expired
  }

  /** Waiting succeeds exactly if MAX is ready at some poll in time, before a request for reauthorisation. */
  lemma {:induction false} WaitReadyIff(o: Oracle, pos: nat, polls: nat)
    ensures WaitReady(o, pos, polls).1 <==> exists at: nat :: at < pos + polls && ReadyAt(o, pos, at)
    decreases polls
  {
    var answer := o(pos);
    if polls > 0 && !answer.expired && !answer.reauth && !answer.ready {
      WaitReadyIff(o, pos + 1, polls - 1);
      var next := pos + 1;
      if at: nat :| at < pos + polls && ReadyAt(o, next, at) {
        assert ReadyAt(o, pos, at);
      }
      if at: nat :| at < pos + polls && ReadyAt(o, pos, at) {
        assert ReadyAt(o, pos + 1, at);
      }
    } else if polls > 0 && answer.ready && !answer.expired && !answer.reauth {
      assert ReadyAt(o, pos, pos);
    }
  }

  /** What a confirmed switch leaves and tells. */
  ghost predicate Settles(w: World, after: World, target: Route) {
    && after.mem.active == target
    && after.mem.deadline.None?
    && after.mem.healthySince.None?
    && after.mem.incident == w.mem.incident
    && (if target == Fallback then
          && after.mem.phase.OnFallback?
          && after.mem.fallbackSince.Some?
          && after.arrived == after.mem.fallbackSince
          && after.mem.fallbackSince.value <= after.mem.lastReminderAt
          && after.mem.failedSince == w.mem.failedSince
          && after.mem.failures == w.mem.failures
          && after.mem.announced == w.mem.announced
        else
          && after.mem.phase.OnPrimary?
          && after.mem.fallbackSince.None?
          && after.arrived == w.arrived
          && after.mem.lastReminderAt == w.mem.lastReminderAt
          && after.mem.failedSince.None? && after.mem.failures == 0 && !after.mem.announced)
  }

  /** What a switch that was rolled back leaves. */
  ghost predicate Retreats(w: World, after: World, previous: Route) {
    && after.mem.active == previous
    && after.mem.deadline.None?
    && after.mem.healthySince.None?
    && (if previous == Fallback then after.mem.phase.OnFallback? else after.mem.phase.Waiting?)
    && after.mem.fallbackSince == w.mem.fallbackSince
    && after.mem.lastReminderAt == w.mem.lastReminderAt
    && after.mem.failedSince == w.mem.failedSince
    && after.mem.failures == w.mem.failures
    && after.mem.announced == w.mem.announced
    && after.mem.incident == w.mem.incident
  }

  function Confirmation(target: Route, seconds: int): (Kind, Audience) {
    (if target == Fallback then FallbackConnected else PrimaryConnected(seconds), Both)
  }

  lemma ConnectedDecides(o: Oracle, w: World, target: Route) returns (seconds: int)
    requires w.mem.active == target && Clocked(o)
    ensures var r := Connected(o, w, target);
            && Told(w, r.world, [Confirmation(target, seconds)])
            && (r.Running? ==> Settles(w, r.world, target) && r.world.route == w.route && r.world.disk == r.world.mem)
            && (w.mem.fallbackSince.Some? && w.mem.fallbackSince.value != 0 ==>
                  o(w.pos).now - w.mem.fallbackSince.value <= seconds <= o(r.world.pos).now - w.mem.fallbackSince.value)
            && (r.Running? && target == Fallback ==>
                  o(w.pos).now <= r.world.mem.fallbackSince.value <= r.world.mem.lastReminderAt <= o(r.world.pos).now)
  {
    hide Emit, Save;
    var arrived := Arrived(o, w, target);
    var kind := Greeting(o, w, target);
    seconds := if kind.PrimaryConnected? then kind.seconds
               else if w.mem.fallbackSince.Some? then o(w.pos).now - w.mem.fallbackSince.value else 0;
    EmitCarries(o, arrived, kind, Both);
    EmitLeaves(o, arrived, kind, Both);
    var done := Emit(o, arrived, kind, Both);
    assert o(w.pos).now <= o(done.world.pos).now;
    if done.Running? {
      SaveCarries(o, done.world);
      assert o(w.pos).now <= o(done.world.pos + 1).now;
    }
  }

  lemma ReconnectDecides(cfg: Config, o: Oracle, w: World, previous: Route) returns (online: bool)
    requires cfg.Valid()
    ensures var r := Reconnect(cfg, o, w, previous);
            (r.Running? ==>
                  && Told(w, r.world, [(RollbackFinished(online), Both)])
                  && Retreats(w, r.world, previous)
                  && r.world.route == w.route
                  && r.world.disk == r.world.mem
                  && r.world.arrived == w.arrived
                  && exists at: nat :: r.world.mem.cooldownUntil == o(at).now + cfg.retryCooldown && w.pos <= at < r.world.pos)
  {
    hide Emit, Save, WaitReady;
    var moving := Moved(w, previous);
    SaveCarries(o, moving);
    if Save(o, moving).Running? {
      var moved := Save(o, moving).world;
      var (pos, ready) := WaitReady(o, moved.pos, Polls(cfg));
      online := ready;
      var back := RolledBack(cfg, o, moved.(pos := pos), previous);
      EmitCarries(o, back, RollbackFinished(ready), Both);
      EmitLeaves(o, back, RollbackFinished(ready), Both);
    } else {
      online := false;
    }
  }

  lemma RollBackDecides(cfg: Config, o: Oracle, w: World, previous: Route) returns (online: bool)
    requires cfg.Valid()
    ensures var r := RollBack(cfg, o, w, previous);
            (r.Running? ==>
                  && Told(w, r.world, [(SwitchFailed, Both), (RollbackFinished(online), Both)])
                  && Retreats(w, r.world, previous)
                  && r.world.route == previous
                  && r.world.disk == r.world.mem
                  && r.world.arrived == w.arrived
                  && exists at: nat :: r.world.mem.cooldownUntil == o(at).now + cfg.retryCooldown && w.pos <= at < r.world.pos)
  {
    hide Emit, Reconnect;
    var entering := BeginRollBack(cfg, o, w);
    EmitCarries(o, entering, SwitchFailed, Both);
    EmitLeaves(o, entering, SwitchFailed, Both);
    var announced := Emit(o, entering, SwitchFailed, Both);
    online := false;
    if announced.Running? && o(announced.world.pos).survives && o(announced.world.pos).ok {
      var called := CallAdapter(o, announced.world, previous).world;
      online := ReconnectDecides(cfg, o, called, previous);
      if Reconnect(cfg, o, called, previous).Running? {
        ToldOn(w, called, Reconnect(cfg, o, called, previous).world, [(SwitchFailed, Both)], [(RollbackFinished(online), Both)]);
        assert [(SwitchFailed, Both)] + [(RollbackFinished(online), Both)] == [(SwitchFailed, Both), (RollbackFinished(online), Both)];
      }
    }
  }

  /** The outcome of a switch that keeps its process: on the target exactly if MAX came up in time, else back on the old route. */
  ghost predicate SwitchOutcome(cfg: Config, o: Oracle, w: World, r: Step, target: Route, seconds: int, online: bool) {
    r.Running? ==>
      && r.world.disk == r.world.mem
      && r.world.route == r.world.mem.active
      && (exists from: nat :: w.pos <= from && (r.world.mem.active == target <==> ReadyWithin(cfg, o, from)))
      && (if r.world.mem.active == target then
            && Settles(w, r.world, target)
            && Told(w, r.world, [(SwitchStarted(w.mem.active, target), Ops), Confirmation(target, seconds)])
            && (w.mem.fallbackSince.Some? && w.mem.fallbackSince.value != 0 ==>
                  o(w.pos).now <= w.mem.fallbackSince.value + seconds <= o(r.world.pos).now)
          else
            && Retreats(w, r.world, w.mem.active)
            && Told(w, r.world, [(SwitchStarted(w.mem.active, target), Ops), (SwitchFailed, Both), (RollbackFinished(online), Both)])
            && exists at: nat :: r.world.mem.cooldownUntil == o(at).now + cfg.retryCooldown && w.pos <= at < r.world.pos)
  }

  /** MAX comes up on the new route, once its file is written, before the connect timeout. */
  ghost predicate ReadyWithin(cfg: Config, o: Oracle, from: nat) {
    exists at: nat :: at < from + 4 * cfg.connectTimeout && ReadyAt(o, from, at)
  }

  /** Moving to the target changes nothing that a switch is judged by. */
  lemma FromMoved(w: World, moved: World, after: World, target: Route)
    requires moved.mem == w.mem.(active := target) && moved.lifeEmitted == w.lifeEmitted
    requires target != Fallback ==> moved.arrived == w.arrived
    ensures Settles(moved, after, target) ==> Settles(w, after, target)
    ensures forall previous :: Retreats(moved, after, previous) ==> Retreats(w, after, previous)
    ensures forall notices :: Told(moved, after, notices) ==> Told(w, after, notices)
    ensures Settles(w, after, target) ==> after.mem.active == target
    ensures forall previous :: Retreats(w, after, previous) ==> after.mem.active == previous
  {
  }

  lemma ConfirmDecides(cfg: Config, o: Oracle, w: World, target: Route, previous: Route) returns (seconds: int, online: bool)
    requires cfg.Valid() && Clocked(o) && target != previous && w.route == target
    ensures var r := Confirm(cfg, o, w, target, previous);
            r.Running? ==>
              && r.world.disk == r.world.mem
              && r.world.route == r.world.mem.active
              && (r.world.mem.active == target <==> ReadyWithin(cfg, o, w.pos + 1))
              && (if r.world.mem.active == target then
                    && Settles(w, r.world, target)
                    && Told(w, r.world, [Confirmation(target, seconds)])
                    && (w.mem.fallbackSince.Some? && w.mem.fallbackSince.value != 0 ==>
                          o(w.pos).now <= w.mem.fallbackSince.value + seconds <= o(r.world.pos).now)
                  else
                    && Retreats(w, r.world, previous)
                    && Told(w, r.world, [(SwitchFailed, Both), (RollbackFinished(online), Both)])
                    && exists at: nat :: r.world.mem.cooldownUntil == o(at).now + cfg.retryCooldown && w.pos <= at < r.world.pos)
  {
    hide Connected, RollBack, Save, WaitReady, ReadyAt, Told, Settles, Retreats;
    seconds, online := 0, false;
    var moving := Moved(w, target);
    SaveCarries(o, moving);
    if Save(o, moving).Running? {
      var moved := Entered(Save(o, moving).world, target, o(w.pos).now);
      var (pos, ready) := WaitReady(o, moved.pos, Polls(cfg));
      WaitReadyIff(o, moved.pos, Polls(cfg));
      assert o(w.pos).now <= o(pos).now;
      FromMoved(w, moved.(pos := pos), Confirm(cfg, o, w, target, previous).world, target);
      if ready {
        seconds := ConnectedDecides(o, moved.(pos := pos), target);
      } else {
        online := RollBackDecides(cfg, o, moved.(pos := pos), previous);
      }
    }
  }

  /** A switch announces itself with a deadline that covers draining and connecting, and calls the adapter. */
  lemma SwitchAnnounces(cfg: Config, o: Oracle, w: World, target: Route) returns (called: World)
    requires cfg.Valid() && Clocked(o)
    ensures Switch(cfg, o, w, target).Running? ==>
              && Switch(cfg, o, w, target) == Confirm(cfg, o, called, target, w.mem.active)
              && Told(w, called, [(SwitchStarted(w.mem.active, target), Ops)])
              && called.attempts == w.attempts + [Attempt(o(w.pos + 1).now, target, w.born, |w.samples|, w.arrived)]
              && called.route == target
              && w.pos <= called.pos
              && called.arrived == w.arrived
              && called.disk == called.mem
              && called.mem == w.mem.(phase := if target == Primary then Returning else Switching,
                                      deadline := Some(o(w.pos).now + cfg.drainTimeout + cfg.connectTimeout + 30),
                                      cooldownUntil := o(w.pos + 1).now + cfg.retryCooldown,
                                      sequence := called.mem.sequence, pending := called.mem.pending)
  {
    hide Emit, Confirm;
    var begun := BeginSwitch(cfg, o, w, target);
    var notice := SwitchStarted(w.mem.active, target);
    EmitCarries(o, begun, notice, Ops);
    EmitLeaves(o, begun, notice, Ops);
    var announced := Emit(o, begun, notice, Ops);
    called := CallAdapter(o, LogAttempt(announced.world, o(w.pos + 1).now, target), target).world;
  }

  lemma SwitchDecides(cfg: Config, o: Oracle, w: World, target: Route) returns (seconds: int, online: bool)
    requires cfg.Valid() && Clocked(o) && target != w.mem.active
    ensures SwitchOutcome(cfg, o, w, Switch(cfg, o, w, target), target, seconds, online)
    ensures var r := Switch(cfg, o, w, target);
            r.Running? ==> r.world.attempts == w.attempts + [Attempt(o(w.pos + 1).now, target, w.born, |w.samples|, w.arrived)]
  {
    hide Switch, Confirm, ReadyAt;
    var called := SwitchAnnounces(cfg, o, w, target);
    seconds, online := 0, false;
    var r := Switch(cfg, o, w, target);
    if r.Running? {
      seconds, online := ConfirmDecides(cfg, o, called, target, w.mem.active);
      assert o(w.pos).now <= o(called.pos).now;
      ConfirmTries(cfg, o, called, target, w.mem.active);
      var notice := (SwitchStarted(w.mem.active, target), Ops);
      if r.world.mem.active == target {
        ToldOn(w, called, r.world, [notice], [Confirmation(target, seconds)]);
        assert [notice] + [Confirmation(target, seconds)] == [notice, Confirmation(target, seconds)];
      } else {
        ToldOn(w, called, r.world, [notice], [(SwitchFailed, Both), (RollbackFinished(online), Both)]);
        assert [notice] + [(SwitchFailed, Both), (RollbackFinished(online), Both)]
            == [notice, (SwitchFailed, Both), (RollbackFinished(online), Both)];
      }
    }
  }

  /** Nothing after the adapter's success is another attempt. */
  lemma ConfirmTries(cfg: Config, o: Oracle, w: World, target: Route, previous: Route)
    requires cfg.Valid()
    ensures var after := Confirm(cfg, o, w, target, previous).world; after.attempts == w.attempts && after.samples == w.samples
  {
    hide Emit, Save, WaitReady;
    var moving := Moved(w, target);
    SaveCarries(o, moving);
    if Save(o, moving).Running? {
      var moved := Entered(Save(o, moving).world, target, o(w.pos).now);
      var (pos, ready) := WaitReady(o, moved.pos, Polls(cfg));
      if ready {
        ConnectedTries(o, moved.(pos := pos), target);
      } else {
        RollBackTries(cfg, o, moved.(pos := pos), previous);
      }
    }
  }

  lemma ConnectedTries(o: Oracle, w: World, target: Route)
    ensures var after := Connected(o, w, target).world; after.attempts == w.attempts && after.samples == w.samples
  {
    hide Emit, Save;
    EmitCarries(o, Arrived(o, w, target), Greeting(o, w, target), Both);
    var done := Emit(o, Arrived(o, w, target), Greeting(o, w, target), Both);
    if done.Running? {
      SaveCarries(o, done.world);
    }
  }

  lemma RollBackTries(cfg: Config, o: Oracle, w: World, previous: Route)
    requires cfg.Valid()
    ensures var after := RollBack(cfg, o, w, previous).world; after.attempts == w.attempts && after.samples == w.samples
  {
    hide Emit, Save, WaitReady;
    var entering := BeginRollBack(cfg, o, w);
    EmitCarries(o, entering, SwitchFailed, Both);
    var announced := Emit(o, entering, SwitchFailed, Both);
    if announced.Running? && o(announced.world.pos).survives && o(announced.world.pos).ok {
      var moving := Moved(CallAdapter(o, announced.world, previous).world, previous);
      SaveCarries(o, moving);
      if Save(o, moving).Running? {
        var moved := Save(o, moving).world;
        var (pos, ready) := WaitReady(o, moved.pos, Polls(cfg));
        EmitCarries(o, RolledBack(cfg, o, moved.(pos := pos), previous), RollbackFinished(ready), Both);
      }
    }
  }
}
