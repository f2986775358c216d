/**
 What every step of the egress policy keeps, in memory and on disk, whatever the environment answers
 and wherever the process is lost.
 */
module EgressInvariants {
  import opened EgressModel
  import Rates

  ghost predicate Less(a: EventId, b: EventId) {
    a.incident < b.incident || (a.incident == b.incident && a.sequence < b.sequence)
  }

  ghost predicate AtMost(a: EventId, b: EventId) {
    a == b || Less(a, b)
  }

  /** The phase, the route, the deadline and the failure counters tell one story. */
  ghost predicate Coherent(st: EgressState) {
    && (st.deadline.Some? <==> st.phase.InTransit())
    && (st.phase.OnPrimary? || st.phase.Waiting? ==> st.active == Primary)
    && (st.phase.OnFallback? ==> st.active == Fallback)
    && !st.active.Foreign?
    && (st.failedSince.None? <==> st.failures == 0)
  }

  /** A state between ticks: no switch under way, no recovery being timed while on the primary. */
  ghost predicate Settled(st: EgressState) {
    && Coherent(st)
    && !st.phase.InTransit()
    && (st.healthySince.Some? ==> st.active == Fallback)
  }

  /** Queued events are in id order and no later than `last`; all handed out come before them. */
  ghost predicate Backlog(pending: seq<Event>, last: EventId, handed: seq<Event>) {
    && (forall i, j :: 0 <= i < j < |pending| ==> Less(pending[i].id, pending[j].id))
    && (forall e :: e in pending ==> AtMost(e.id, last))
    && (forall h :: h in handed ==>
          && AtMost(h.id, last)
          && (pending != [] ==> h == pending[0] || Less(h.id, pending[0].id)))
  }

  /** Later hand-overs are either repeats of the very same event or have a later id. */
  ghost predicate InOrder(handed: seq<Event>) {
    forall i, j :: 0 <= i < j < |handed| ==> handed[i] == handed[j] || Less(handed[i].id, handed[j].id)
  }

  ghost predicate Covers(cfg: Config, until: int, attempts: seq<Attempt>) {
    forall a :: a in attempts ==> a.stamp + cfg.retryCooldown <= until
  }

  function Stamps(attempts: seq<Attempt>): seq<int> {
    seq(|attempts|, i requires 0 <= i < |attempts| => attempts[i].stamp)
  }

  /** What a sample must show to speak for moving to `target`. */
  predicate Evidence(target: Route, x: Sample) {
    !x.reauth &&
    if target == Primary then x.active == Fallback && x.primaryOk else x.active == Primary && x.down
  }

  /** The samples from `from` up to `to` all speak for `target`, with no monitoring gap between them. */
  ghost predicate Window(cfg: Config, samples: seq<Sample>, from: nat, to: nat, target: Route) {
    && from < to <= |samples|
    && (forall i :: from <= i < to ==> Evidence(target, samples[i]))
    && (forall i, j :: from <= i && j == i + 1 < to ==> samples[j].at - samples[i].at <= 3 * cfg.probeInterval)
  }

  /** A window that began no earlier than `floor` and lasted at least `span` seconds. */
  ghost predicate Proven(cfg: Config, samples: seq<Sample>, floor: nat, to: nat, target: Route, span: int) {
    exists from: nat :: floor <= from && Window(cfg, samples, from, to, target)
                        && samples[to - 1].at - samples[from].at >= span
  }

  ghost predicate ReturnsProven(cfg: Config, attempts: seq<Attempt>, samples: seq<Sample>) {
    forall a :: a in attempts ==>
      && a.target in {Primary, Fallback}
      && a.born <= a.seen <= |samples|
      && (a.target == Primary ==> Proven(cfg, samples, a.born, a.seen, Primary, cfg.recoveryStable))
  }

  /** The last probe the state knows of was a sample, though perhaps not the latest; a failure timer began no later. */
  ghost predicate Probed(st: EgressState, samples: seq<Sample>) {
    && (st.lastProbeAt.Some? ==> samples != [] && st.lastProbeAt.value <= samples[|samples| - 1].at)
    && (st.failedSince.Some? ==> st.lastProbeAt.Some? && st.failedSince.value <= st.lastProbeAt.value)
  }

  /** What the state file may hold, given the history of the run. */
  ghost predicate Storable(cfg: Config, st: EgressState, w: World) {
    Coherent(st)
    && Covers(cfg, st.cooldownUntil, w.attempts)
    && Backlog(st.pending, st.Id(), w.handed)
    && Probed(st, w.samples)
  }

  /** The history of the run, whatever the state. */
  ghost predicate Lawful(cfg: Config, handed: seq<Event>, attempts: seq<Attempt>, samples: seq<Sample>, born: nat) {
    InOrder(handed)
    && Rates.Spaced(Stamps(attempts), cfg.retryCooldown)
    && born <= |samples|
    && ReturnsProven(cfg, attempts, samples)
  }

  /** What a crash at this very moment finds. */
  ghost predicate Durable(cfg: Config, w: World) {
    Storable(cfg, w.disk, w)
    && Lawful(cfg, w.handed, w.attempts, w.samples, w.born)
  }

  /** Within one process, accepted and pending events are exactly the emitted ones, in order. */
  ghost predicate Fifo(w: World) {
    w.lifeAccepted + w.mem.pending == w.lifeEmitted
  }

  ghost predicate Clean(w: World) {
    w.mem == w.disk.(healthySince := w.mem.healthySince)
  }

  /** Notifying touches nothing but the event counters, the queue, the file and the notification history. */
  ghost predicate Talked(w: World, after: World) {
    && after.mem == w.mem.(sequence := after.mem.sequence, pending := after.mem.pending)
    && after.route == w.route
    && after.initialized == w.initialized
    && w.pos <= after.pos
    && after.samples == w.samples
    && after.attempts == w.attempts
    && after.born == w.born
    && after.arrived == w.arrived
  }

  lemma SaveKeeps(cfg: Config, o: Oracle, w: World)
    requires Durable(cfg, w) && Storable(cfg, w.mem, w)
    ensures Durable(cfg, Save(o, w).world)
    ensures Save(o, w).world == if Save(o, w).Running? then w.(disk := w.mem, pos := w.pos + 1) else w
  {
  }

  lemma HandKeeps(cfg: Config, w: World, after: World)
    requires Durable(cfg, w) && Clean(w) && w.mem.pending != []
    requires after == w.(pos := after.pos, handed := w.handed + [w.mem.pending[0]])
    ensures Durable(cfg, after)
    ensures Storable(cfg, w.mem.(pending := w.mem.pending[1..]), after)
  {
    var event, rest := w.mem.pending[0], w.mem.pending[1..];
    assert forall h :: h in after.handed ==> h in w.handed || h == event;
    assert event in w.disk.pending;
    assert forall e :: e in rest ==> e in w.disk.pending;
    assert rest != [] ==> rest[0] == w.disk.pending[1];
  }

  lemma {:induction false} FlushKeeps(cfg: Config, o: Oracle, w: World)
    requires Durable(cfg, w) && Clean(w) && Fifo(w)
    ensures var r := FlushEvents(o, w);
            && Durable(cfg, r.world)
            && Fifo(r.world)
            && Talked(w, r.world)
            && r.world.mem.sequence == w.mem.sequence
            && (r.Running? ==> Clean(r.world) && (w.disk == w.mem ==> r.world.disk == r.world.mem))
    decreases |w.mem.pending|
  {
    hide Save;
    var answer := o(w.pos);
    if w.mem.pending != [] && answer.survives {
      var event := w.mem.pending[0];
      var asked := w.(pos := w.pos + 1, handed := w.handed + [event]);
      HandKeeps(cfg, w, asked);
      if answer.ok {
        var popped := asked.(mem := w.mem.(pending := w.mem.pending[1..]), lifeAccepted := w.lifeAccepted + [event]);
        assert popped.lifeAccepted + popped.mem.pending == w.lifeAccepted + w.mem.pending;
        SaveKeeps(cfg, o, popped);
        if Save(o, popped).Running? {
          FlushKeeps(cfg, o, Save(o, popped).world);
        }
      }
    }
  }

  lemma EmitKeeps(cfg: Config, o: Oracle, w: World, kind: Kind, audience: Audience)
    requires Durable(cfg, w) && Storable(cfg, w.mem, w) && Fifo(w)
    ensures var r := Emit(o, w, kind, audience);
            && Durable(cfg, r.world)
            && Fifo(r.world)
            && Talked(w, r.world)
            && w.pos < r.world.pos
            && (r.Running? ==> r.world.disk == r.world.mem)
  {
    var event := NewEvent(o, w, kind, audience);
    var queued := Append(o, w, kind, audience);
    assert forall e :: e in queued.mem.pending ==> e in w.mem.pending || e == event;
    assert forall e :: e in w.mem.pending ==> AtMost(e.id, w.mem.Id());
    assert forall i :: 0 <= i < |w.mem.pending| ==> w.mem.pending[i] in w.mem.pending;
    assert w.lifeAccepted + queued.mem.pending == (w.lifeAccepted + w.mem.pending) + [event];
    SaveKeeps(cfg, o, queued);
    if o(queued.pos).survives {
      FlushKeeps(cfg, o, Save(o, queued).world);
    }
  }
}
