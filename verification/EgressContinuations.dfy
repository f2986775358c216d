/**
 The exact condition for a lost process to do harm: some environment leads its successor, without a further loss
 before that, to a failover that no outage of the configured length backs.
 */
module EgressContinuations {
  import opened Wrappers
  import opened EgressModel
  import opened EgressInvariants
  import opened EgressTicks
  import opened EgressRuns
  import opened EgressTheorems
  import opened EgressScripts
  import opened EgressInheritance
  import opened EgressThresholds

  /** The successor of a lost process after `n` ticks, or where it was lost itself. */
  function Onward(cfg: Config, o: Oracle, w: World, n: nat): Step
    requires cfg.Valid()
  {
    if n == 0 then Running(Boot(o, w))
    else
      match Onward(cfg, o, w, n - 1)
      case Running(x) => Tick(cfg, o, x)
      case Died(x) => Died(x)
  }

  ghost predicate Unbacked(cfg: Config, r: Step) {
    !FailoversProven(cfg, r.world.attempts, r.world.samples)
  }

  // --- a harmless file does no harm ---

  lemma {:induction false} HarmlessOnward(cfg: Config, o: Oracle, w: World, n: nat)
    requires cfg.Valid() && Clocked(o) && Punctual(o, w) && Durable(cfg, w) && StillWatched(cfg, Died(w), false)
    requires Harmless(cfg, w, false)
    ensures var r := Onward(cfg, o, w, n);
            StillWatched(cfg, r, false)
            && (r.Running? ==> Ready(cfg, r.world) && Punctual(o, r.world))
  {
    hide Tick, Boot, Harmless;
    if n == 0 {
      BootKeeps(cfg, o, w);
      BootTracks(cfg, o, w, false);
    } else {
      HarmlessOnward(cfg, o, w, n - 1);
      var before := Onward(cfg, o, w, n - 1);
      if before.Running? {
        TickKeeps(cfg, o, before.world);
        TickTracks(cfg, o, before.world, false);
      }
    }
  }

  /** With a threshold no longer than the probe interval, only the first tick is in question. */
  lemma {:induction false} ShortThresholdOnward(cfg: Config, o: Oracle, w: World, n: nat)
    requires cfg.Valid() && Clocked(o) && Punctual(o, w) && Durable(cfg, w) && StillWatched(cfg, Died(w), false)
    requires cfg.failoverAfter <= cfg.probeInterval && !Ripe(cfg, w)
    ensures var r := Onward(cfg, o, w, n);
            && FailoversProven(cfg, r.world.attempts, r.world.samples)
            && (r.Running? ==> Ready(cfg, r.world) && Punctual(o, r.world) && (n > 0 ==> r.world.initialized && Fed(r.world)))
  {
    hide Tick, Boot, Ripe, Ready, Durable, FailoversProven, Fed;
    if n == 0 {
      BootKeeps(cfg, o, w);
      BootStays(cfg, o, w);
    } else {
      ShortThresholdOnward(cfg, o, w, n - 1);
      var before := Onward(cfg, o, w, n - 1);
      if before.Running? {
        TickKeeps(cfg, o, before.world);
        if n == 1 {
          BootKeeps(cfg, o, w);
          UnripeIsSafe(cfg, o, w);
        } else {
          TickProves(cfg, o, before.world);
        }
        TickFeeds(cfg, o, before.world);
      }
    }
  }

  lemma BootStays(cfg: Config, o: Oracle, w: World)
    requires FailoversProven(cfg, w.attempts, w.samples)
    ensures FailoversProven(cfg, Boot(o, w).attempts, Boot(o, w).samples)
  {
  }

  // --- any other can ---

  /** Nothing happens at `at`: no probe or notification succeeds, MAX is not ready, the process lives on. */
  predicate Bleak(a: Answer, at: int) {
    a.now == at
    && !a.ok
    && !a.ready
    && !a.reauth
    && a.survives
    && a.route == Primary
  }

  /** In an outage that has been told, at `pos`, with the timer of an earlier one. */
  ghost predicate Falling(x: World, since: int, cooldown: int, at: int, pos: nat, waiting: nat) {
    && x.initialized
    && x.route == Primary == x.mem.active
    && x.mem.announced
    && x.mem.failures > 0
    && x.mem.failedSince == Some(since)
    && x.mem.cooldownUntil == cooldown
    && x.mem.lastProbeAt == Some(at)
    && x.pos == pos && waiting == if x.mem.pending != [] then 1 else 0
  }

  /** One more failing sample, too early to act on. */
  lemma FallsOn(cfg: Config, o: Oracle, x: World, since: int, cooldown: int, at: int, next: int, waiting: nat) returns (y: World)
    requires cfg.Valid() && Falling(x, since, cooldown, at, x.pos, waiting)
    requires cfg.probeInterval <= next - at <= 3 * cfg.probeInterval && next < Max(since + cfg.failoverAfter, cooldown)
    requires forall i: nat :: x.pos <= i < x.pos + 5 + waiting ==> Bleak(o(i), next)
    ensures Tick(cfg, o, x) == Running(y)
    ensures Falling(y, since, cooldown, next, x.pos + 5 + waiting, waiting)
    ensures y.samples == x.samples + [DownAt(next)]
  {
    hide Tick, Police;
    var s := TickSamples(cfg, o, x, x.pos + waiting);
    CountsDown(cfg, o, s, next);
    y := Police(cfg, o, s, next, false, false).world;
  }

  /** The failing sample that is acted on. */
  lemma FallsOver(cfg: Config, o: Oracle, x: World, since: int, cooldown: int, at: int, next: int, waiting: nat) returns (d: World)
    requires cfg.Valid() && Falling(x, since, cooldown, at, x.pos, waiting)
    requires cfg.probeInterval <= next - at <= 3 * cfg.probeInterval && Max(since + cfg.failoverAfter, cooldown) <= next
    requires forall i: nat :: x.pos <= i < x.pos + 10 + waiting && i != x.pos + 4 + waiting ==> Bleak(o(i), next)
    requires o(x.pos + 4 + waiting).survives && o(x.pos + 4 + waiting).ok && !o(x.pos + 10 + waiting).survives
    ensures Tick(cfg, o, x) == Died(d)
    ensures d.samples == x.samples + [DownAt(next)]
    ensures exists a :: a in d.attempts && a.target == Fallback && a.seen == |d.samples|
  {
    hide Tick, Police, Switch;
    var s := TickSamples(cfg, o, x, x.pos + waiting);
    var told := FailsOver(cfg, o, s, next);
    d := SwitchDies(cfg, o, told, Fallback);
    assert d.attempts[|told.attempts|] in d.attempts;
  }

  /** The cooldown after a first tick at `at`. */
  function Cooldown(cfg: Config, st: EgressState, at: int): int {
    if st.phase.InTransit() then Max(st.cooldownUntil, at + cfg.retryCooldown) else st.cooldownUntil
  }

  /** Where the first tick judges its sample, and where it ends. */
  function Judges(w: World): nat {
    w.pos + 4 + (if w.disk.pending != [] then 1 else 0) + if w.disk.phase.InTransit() then 3 else 0
  }

  function Ends(w: World): nat {
    Judges(w) + if w.disk.announced then 2 else 5
  }

  function Waiting(w: World): nat {
    if w.disk.pending != [] || w.disk.phase.InTransit() || !w.disk.announced then 1 else 0
  }

  /** The first tick, up to its sample. */
  lemma FirstSample(cfg: Config, o: Oracle, w: World, at: int) returns (s: World)
    requires cfg.Valid() && w.disk.active == Primary
    requires w.disk.lastProbeAt.Some? && at - w.disk.lastProbeAt.value <= 3 * cfg.probeInterval
    requires forall i: nat :: w.pos <= i < Judges(w) ==> Bleak(o(i), at)
    ensures Tick(cfg, o, Boot(o, w)) == Police(cfg, o, s, at, false, false)
    ensures s.pos == Judges(w)
            && s.route == Primary == s.mem.active
            && s.initialized
            && s.samples == w.samples
    ensures s.mem.failedSince == w.disk.failedSince
            && s.mem.failures == w.disk.failures
            && s.mem.announced == w.disk.announced
    ensures s.mem.lastProbeAt == Some(at)
            && s.mem.cooldownUntil == Cooldown(cfg, w.disk, at)
    ensures s.mem.pending != [] <==> w.disk.pending != [] || w.disk.phase.InTransit()
  {
    hide Tick, Police;
    var p: nat := w.pos + 1 + if w.disk.pending != [] then 1 else 0;
    if w.disk.phase.InTransit() {
      s := RestoreSamples(cfg, o, Boot(o, w), p);
    } else {
      s := FirstTickSamples(cfg, o, Boot(o, w), p);
    }
  }

  /** A first tick that is too early to act on the timer. */
  lemma FirstFalls(cfg: Config, o: Oracle, w: World, at: int) returns (x: World)
    requires cfg.Valid() && w.disk.active == Primary && w.disk.failedSince.Some? && w.disk.failures > 0
    requires w.disk.lastProbeAt.Some? && at - w.disk.lastProbeAt.value <= 3 * cfg.probeInterval
    requires forall i: nat :: w.pos <= i < Ends(w) ==> Bleak(o(i), at)
    requires at < Max(w.disk.failedSince.value + cfg.failoverAfter, Cooldown(cfg, w.disk, at))
    ensures Tick(cfg, o, Boot(o, w)) == Running(x)
    ensures Falling(x, w.disk.failedSince.value, Cooldown(cfg, w.disk, at), at, Ends(w), Waiting(w))
    ensures x.samples == w.samples + [DownAt(at)]
  {
    hide Tick, Police, Boot, Cooldown;
    var s := FirstSample(cfg, o, w, at);
    if w.disk.announced {
      CountsDown(cfg, o, s, at);
      x := Police(cfg, o, s, at, false, false).world;
    } else {
      x := TellsDown(cfg, o, s, at);
    }
  }

  /** How many ticks go by at the shortest distance before the rest of the gap is at most three times that. */
  function Steps(gap: int, step: int): nat
    requires 0 < step
    decreases gap
  {
    if gap <= 3 * step then 0 else 1 + Steps(gap - step, step)
  }

  /** The time at position `i`: `at` before `begin`, then a tick of `length` answers for each step, then `finish`. */
  function TimeAt(begin: nat, length: nat, at: int, step: int, steps: nat, finish: int, i: nat): int
    decreases steps
  {
    if i < begin then at
    else if steps == 0 then finish
    else TimeAt(begin + length, length, at + step, step, steps - 1, finish, i)
  }

  /** The position of the probe of the fallback in the last tick. */
  function LastProbe(begin: nat, length: nat, steps: nat): nat
    requires 0 < length
    ensures begin <= LastProbe(begin, length, steps)
    decreases steps
  {
    if steps == 0 then begin + length - 1 else LastProbe(begin + length, length, steps - 1)
  }

  lemma {:induction false} TimeIsOrdered(begin: nat, length: nat, at: int, step: int, steps: nat, finish: int, i: nat, j: nat)
    requires 0 <= step && LastStep(at, step, steps) <= finish && i <= j
    ensures at <= TimeAt(begin, length, at, step, steps, finish, i) <= TimeAt(begin, length, at, step, steps, finish, j) <= finish
    decreases steps
  {
    LastStepLater(at, step, steps);
    if steps > 0 {
      TimeIsOrdered(begin + length, length, at + step, step, steps - 1, finish, i, j);
    }
  }

  /** The time of the last tick at the shortest distance. */
  function LastStep(at: int, step: int, steps: nat): int
    decreases steps
  {
    if steps == 0 then at else LastStep(at + step, step, steps - 1)
  }

  lemma {:induction false} LastStepLater(at: int, step: int, steps: nat)
    requires 0 <= step
    ensures at <= LastStep(at, step, steps)
    decreases steps
  {
    if steps > 0 {
      LastStepLater(at + step, step, steps - 1);
    }
  }

  lemma {:induction false} LastStepInTime(at: int, step: int, goal: int)
    requires 0 < step
    ensures LastStep(at, step, Steps(goal - at, step)) <= Max(goal, at + step)
    decreases goal - at
  {
    if goal - at > 3 * step {
      LastStepInTime(at + step, step, goal);
    }
  }

  /** The outage goes on at the shortest distance as long as need be, then the fallback answers. */
  function Persistent(begin: nat, length: nat, at: int, step: int, steps: nat, finish: int): Oracle
    requires 0 < length
  {
    (i: nat) => Answer(TimeAt(begin, length, at, step, steps, finish, i), i == LastProbe(begin, length, steps), false, false, false,
                       i != LastProbe(begin, length, steps) + 6, Primary)
  }

  /** The samples since the loss are not earlier than `start`. */
  ghost predicate Since(before: seq<Sample>, samples: seq<Sample>, start: int) {
    && |before| < |samples| && samples[..|before|] == before
    && forall i :: |before| <= i < |samples| ==> start <= samples[i].at
  }

  /** A window that cannot reach back before the loss is too short. */
  lemma TooShort(cfg: Config, before: seq<Sample>, samples: seq<Sample>, start: int)
    requires Since(before, samples, start) && !Failing(before) && samples[|samples| - 1].at < start + cfg.failoverAfter
    ensures !Proven(cfg, samples, 0, |samples|, Fallback, cfg.failoverAfter)
  {
    if before != [] {
      assert samples[|before| - 1] == before[|before| - 1];
    }
  }

  ghost predicate Answers(o: Oracle, begin: nat, length: nat, at: int, step: int, steps: nat, finish: int)
    requires 0 < length
  {
    forall i: nat :: begin <= i ==>
      o(i) == Answer(TimeAt(begin, length, at, step, steps, finish, i), i == LastProbe(begin, length, steps), false, false, false,
                     i != LastProbe(begin, length, steps) + 6, Primary)
  }

  lemma AnswersOn(o: Oracle, begin: nat, length: nat, at: int, step: int, steps: nat, finish: int)
    requires 0 < length && 0 < steps && Answers(o, begin, length, at, step, steps, finish)
    ensures Answers(o, begin + length, length, at + step, step, steps - 1, finish)
    ensures forall i: nat :: begin <= i < begin + length ==> Bleak(o(i), at + step)
  {
    forall i: nat | begin <= i < begin + length
      ensures Bleak(o(i), at + step)
    {
      assert TimeAt(begin, length, at, step, steps, finish, i) == TimeAt(begin + length, length, at + step, step, steps - 1, finish, i);
    }
  }

  /** From a first failing sample that came too early to the one that is acted on. */
  lemma {:induction false} FallsInTheEnd(
    cfg: Config, o: Oracle, w: World, n: nat, x: World, since: int, cooldown: int, at: int, waiting: nat, start: int) returns (m: nat)
    requires cfg.Valid() && Onward(cfg, o, w, n) == Running(x) && Falling(x, since, cooldown, at, x.pos, waiting)
    requires var goal := Max(since + cfg.failoverAfter, cooldown);
             && at < goal && start <= at && Max(goal, at + cfg.probeInterval) < start + cfg.failoverAfter
             && Answers(o, x.pos, 5 + waiting, at, cfg.probeInterval, Steps(goal - at, cfg.probeInterval),
                        Max(goal, at + cfg.probeInterval))
    requires Since(w.samples, x.samples, start) && !Failing(w.samples)
    ensures Unbacked(cfg, Onward(cfg, o, w, m))
    decreases Max(since + cfg.failoverAfter, cooldown) - at
  {
    hide Tick, Boot, Failing, Proven;
    var goal, step := Max(since + cfg.failoverAfter, cooldown), cfg.probeInterval;
    var finish := Max(goal, at + step);
    if goal - at <= 3 * step {
      var d := FallsOver(cfg, o, x, since, cooldown, at, finish, waiting);
      TooShort(cfg, w.samples, d.samples, start);
      m := n + 1;
    } else {
      AnswersOn(o, x.pos, 5 + waiting, at, step, Steps(goal - at, step), finish);
      var y := FallsOn(cfg, o, x, since, cooldown, at, at + step, waiting);
      m := FallsInTheEnd(cfg, o, w, n + 1, y, since, cooldown, at + step, waiting, start);
    }
  }

  lemma Persists(begin: nat, length: nat, at: int, step: int, goal: int) returns (o: Oracle)
    requires 0 < length && 0 < step
    ensures Clocked(o)
            && Answers(o, begin, length, at, step, Steps(goal - at, step), Max(goal, at + step))
    ensures forall i: nat :: i < begin ==> Bleak(o(i), at)
  {
    var steps, finish := Steps(goal - at, step), Max(goal, at + step);
    o := Persistent(begin, length, at, step, steps, finish);
    LastStepInTime(at, step, goal);
    forall i: nat, j: nat | i <= j
      ensures o(i).now <= o(j).now
    {
      TimeIsOrdered(begin, length, at, step, steps, finish, i, j);
    }
  }

  /** The latest time at which a first sample does not reset the timer of the file. */
  function Latest(cfg: Config, st: EgressState): int
    requires st.lastProbeAt.Some?
  {
    st.lastProbeAt.value + 3 * cfg.probeInterval
  }

  lemma HarmfulLeavesRoom(cfg: Config, w: World)
    requires cfg.Valid() && Durable(cfg, w) && !Harmless(cfg, w, false)
    ensures var st := w.disk;
            && st.active == Primary
            && st.failedSince.Some?
            && st.failures > 0
            && st.lastProbeAt.Some?
            && w.samples != []
            && !Failing(w.samples)
            && w.samples[|w.samples| - 1].at <= Latest(cfg, st)
            && Max(st.failedSince.value + cfg.failoverAfter, Cooldown(cfg, st, Latest(cfg, st))) < Latest(cfg, st) + cfg.failoverAfter
            && (!Ripe(cfg, w) ==>
                  Latest(cfg, st) < Max(st.failedSince.value + cfg.failoverAfter, Cooldown(cfg, st, Latest(cfg, st))))
  {
  }

  lemma OnwardOnce(cfg: Config, o: Oracle, w: World)
    requires cfg.Valid()
    ensures Onward(cfg, o, w, 1) == Tick(cfg, o, Boot(o, w))
  {
    hide Tick, Boot;
    assert Onward(cfg, o, w, 0) == Running(Boot(o, w));
  }

  /** What a lost process must leave behind for its successor never to fail over unbacked. */
  predicate Spared(cfg: Config, w: World) {
    Harmless(cfg, w, false) || (cfg.failoverAfter <= cfg.probeInterval && !Ripe(cfg, w))
  }

  lemma HarmfulOnward(cfg: Config, w: World) returns (o: Oracle, n: nat)
    requires cfg.Valid() && Durable(cfg, w) && !Spared(cfg, w)
    ensures Clocked(o)
            && Punctual(o, w)
            && Unbacked(cfg, Onward(cfg, o, w, n))
  {
    hide Tick, Boot, Harmless, Ripe, Onward;
    if Ripe(cfg, w) {
      RipeFailsOver(cfg, w);
      o :| Clocked(o) && Punctual(o, w) && FailsUnproven(cfg, o, w);
      n := 1;
      OnwardOnce(cfg, o, w);
    } else {
      o, n := UnripeOnward(cfg, w);
    }
  }

  lemma UnripeOnward(cfg: Config, w: World) returns (o: Oracle, n: nat)
    requires cfg.Valid() && cfg.probeInterval < cfg.failoverAfter && Durable(cfg, w) && !Harmless(cfg, w, false)
    requires !Ripe(cfg, w)
    ensures Clocked(o)
            && Punctual(o, w)
            && Unbacked(cfg, Onward(cfg, o, w, n))
  {
    hide Tick, Boot, Harmless, Ripe, Durable, Failing, Cooldown, Answers, Steps, Onward, Unbacked, Ends, Waiting;
    HarmfulLeavesRoom(cfg, w);
    var at := Latest(cfg, w.disk);
    var since, cooldown := w.disk.failedSince.value, Cooldown(cfg, w.disk, at);
    var goal := Max(since + cfg.failoverAfter, cooldown);
    EndsLater(w);
    o := Persists(Ends(w), 5 + Waiting(w), at, cfg.probeInterval, goal);
    var x := FirstFalls(cfg, o, w, at);
    OnwardOnce(cfg, o, w);
    n := FallsInTheEnd(cfg, o, w, 1, x, since, cooldown, at, Waiting(w), at);
  }

  lemma EndsLater(w: World)
    ensures w.pos < Ends(w)
  {
  }

  ghost predicate CanDoHarm(cfg: Config, w: World)
    requires cfg.Valid()
  {
    exists o: Oracle, n: nat :: Clocked(o) && Punctual(o, w) && Unbacked(cfg, Onward(cfg, o, w, n))
  }

  /**
   Up to the next loss, some environment leads the successor of a lost process to a failover that no outage of the configured
   length backs, if and only if the file and the samples do not spare it.
   */
  lemma SparedIffNoHarm(cfg: Config, o: Oracle, n: nat)
    requires cfg.Valid() && Clocked(o) && Calm(cfg, o, n, false) && Run(cfg, o, n).Died?
    ensures Spared(cfg, Run(cfg, o, n).world) <==> !CanDoHarm(cfg, Run(cfg, o, n).world)
  {
    hide Run, Onward, Spared;
    var w := Run(cfg, o, n).world;
    RunKeeps(cfg, o, n);
    RunWatched(cfg, o, n, false);
    if Spared(cfg, w) {
      SparedDoesNoHarm(cfg, w);
    } else {
      var next, k := HarmfulOnward(cfg, w);
    }
  }

  lemma SparedDoesNoHarm(cfg: Config, w: World)
    requires cfg.Valid() && Durable(cfg, w) && StillWatched(cfg, Died(w), false) && Spared(cfg, w)
    ensures !CanDoHarm(cfg, w)
  {
    hide Onward, Harmless, Durable, Ripe;
    forall o: Oracle, n: nat | Clocked(o) && Punctual(o, w)
      ensures !Unbacked(cfg, Onward(cfg, o, w, n))
    {
      if Harmless(cfg, w, false) {
        HarmlessOnward(cfg, o, w, n);
      } else {
        ShortThresholdOnward(cfg, o, w, n);
      }
    }
  }
}
