/**
 A run in which a process is lost in the middle of a return: it leaves a failure timer in its file that the next
 process trusts. The cooldown started by the restore is shorter than the failover threshold here.
 */
module EgressLostReturn {
  import opened Wrappers
  import opened EgressModel
  import opened EgressInvariants
  import opened EgressRuns
  import opened EgressTheorems
  import opened EgressScripts

  const CFG := Config(1, 2, 1, 1, 1, 1, 1)

  /** An outage and a failover; a recovery, and a return whose process is lost once MAX is back; a second outage. */
  function Script(i: nat): Answer {
    Answer(if i < 6 then 0 else if i < 30 then 2 else if i < 39 then 3 else if i < 55 then 4 else if i < 64 then 5 else 6,
           i in {13, 19, 31, 40, 47, 68}, i in {21, 49}, false, false, i !in {53, 74}, Primary)
  }

  const DOWN_0 := Sample(0, Primary, false, true, false)
  const DOWN_2 := Sample(2, Primary, false, true, false)
  const GOOD_3 := Sample(3, Fallback, true, false, false)
  const GOOD_4 := Sample(4, Fallback, true, false, false)
  const DOWN_5 := Sample(5, Primary, false, true, false)
  const DOWN_6 := Sample(6, Primary, false, true, false)

  /** The process is between ticks at `pos`: in memory as in `core`, apart from the queue of notifications. */
  ghost predicate At(w: World, pos: nat, core: EgressState, samples: seq<Sample>, waiting: bool) {
    && w.pos == pos
    && Core(w.mem, core)
    && w.route == core.active
    && w.initialized
    && w.samples == samples && (w.mem.pending != [] <==> waiting)
  }

  /** In the first outage, before it is told. */
  const FAILING := EgressState(Primary, Waiting, 1, 0, Some(0), None, 1, None, 0, None, Some(0), [], 0, false)

  lemma FirstFailure()
    ensures var r := Run(CFG, Script, 1); r.Running? && At(r.world, 6, FAILING, [DOWN_0], false)
  {
    hide Police, Tick;
    var w := Start(Script);
    assert Run(CFG, Script, 0) == Running(w);
    var s := FirstTickSamples(CFG, Script, w, 1);
    CountsDown(CFG, Script, s, 0);
    assert Run(CFG, Script, 1) == Tick(CFG, Script, w);
  }

  /** The state in which the first failover is tried. */
  const TOLD := EgressState(Primary, Waiting, 1, 0, Some(0), None, 2, None, 0, None, Some(2), [], 0, true)

  lemma SecondFailure() returns (told: World)
    ensures told.pos == 14
            && Core(told.mem, TOLD)
            && told.route == Primary
            && told.initialized
            && told.samples == [DOWN_0, DOWN_2]
    ensures var r := Switch(CFG, Script, told, Fallback);
            Run(CFG, Script, 2) == if r.Running? then Save(Script, r.world) else r
  {
    hide Police, Switch, Save, Tick;
    FirstFailure();
    var w := Run(CFG, Script, 1).world;
    var s := TickSamples(CFG, Script, w, 6);
    told := FailsOver(CFG, Script, s, 2);
    assert Run(CFG, Script, 2) == Tick(CFG, Script, w);
  }

  /** On the fallback. */
  const AWAY := EgressState(Fallback, OnFallback, 1, 0, Some(0), None, 2, Some(2), 3, None, Some(2), [], 2, true)

  lemma Failover()
    ensures var r := Run(CFG, Script, 2); r.Running? && At(r.world, 29, AWAY, [DOWN_0, DOWN_2], true)
  {
    hide Switch, Run;
    var told := SecondFailure();
    var c := SwitchArrives(CFG, Script, told, Fallback);
  }

  lemma RecoveryStarts()
    ensures var r := Run(CFG, Script, 3);
            r.Running?
            && At(r.world, 38, AWAY.(healthySince := Some(3), lastProbeAt := Some(3)), [DOWN_0, DOWN_2, GOOD_3], true)
  {
    hide Police, Tick;
    Failover();
    var w := Run(CFG, Script, 2).world;
    var s := TickSamples(CFG, Script, w, 30);
    var c := StartsRecovery(CFG, Script, s, 3);
    assert Run(CFG, Script, 3) == Tick(CFG, Script, w);
  }

  /** The file of a process that is lost when MAX has come up on the primary but nothing has been said of it yet. */
  const LOST := EgressState(Primary, Returning, 1, 0, Some(0), Some(3), 2, Some(2), 5, Some(36), Some(4), [], 2, true)

  lemma ReturnBegins() returns (seen: World)
    ensures seen.pos == 42
            && Core(seen.mem, AWAY.(healthySince := Some(3), lastProbeAt := Some(4)))
    ensures seen.samples == [DOWN_0, DOWN_2, GOOD_3, GOOD_4]
    ensures Switch(CFG, Script, seen, Primary).Died? ==> Run(CFG, Script, 4) == Switch(CFG, Script, seen, Primary)
  {
    hide Police, Tick, Switch;
    RecoveryStarts();
    var w := Run(CFG, Script, 3).world;
    var s := TickSamples(CFG, Script, w, 39);
    seen := Returns(CFG, Script, s, 4);
    assert Run(CFG, Script, 4) == Tick(CFG, Script, w);
  }

  lemma ReturnIsLost()
    ensures var r := Run(CFG, Script, 4);
            && r.Died?
            && r.world.pos == 53
            && Core(r.world.disk, LOST)
            && r.world.disk.pending != []
            && r.world.samples == [DOWN_0, DOWN_2, GOOD_3, GOOD_4]
  {
    hide Run, Switch, Confirm, Connected;
    var seen := ReturnBegins();
    var a := SwitchReaches(CFG, Script, seen, Primary);
    ConfirmReaches(CFG, Script, a, Primary, Fallback);
    var d := ConnectedDies(Script, OnTarget(Script, a, Primary), Primary);
  }

  lemma BootsLost() returns (w: World)
    ensures Run(CFG, Script, 5) == Running(w)
    ensures w.pos == 54
            && w.route == Primary
            && !w.initialized
            && w.samples == [DOWN_0, DOWN_2, GOOD_3, GOOD_4]
    ensures Core(w.mem, LOST.(healthySince := None))
            && w.mem.pending != []
  {
    hide Tick;
    ReturnIsLost();
    w := Boot(Script, Run(CFG, Script, 4).world);
  }

  /** In the second outage, with the timer of the first. */
  const STALE := EgressState(Primary, Waiting, 1, 0, Some(0), None, 3, Some(2), 6, None, Some(5), [], 2, true)

  lemma SecondOutage()
    ensures var r := Run(CFG, Script, 6);
            r.Running?
            && At(r.world, 63, STALE, [DOWN_0, DOWN_2, GOOD_3, GOOD_4, DOWN_5], true)
  {
    hide Police, Tick, Run;
    var s := Restored();
    CountsDown(CFG, Script, s, 5);
  }

  lemma Restored() returns (s: World)
    ensures s.pos == 61
            && s.route == Primary
            && s.initialized
            && s.samples == [DOWN_0, DOWN_2, GOOD_3, GOOD_4]
    ensures Core(s.mem, STALE.(failures := 2))
            && s.mem.pending != []
    ensures Run(CFG, Script, 6) == Police(CFG, Script, s, 5, false, false)
  {
    hide Police, Tick;
    var w := BootsLost();
    s := RestoreSamples(CFG, Script, w, 55);
    assert Run(CFG, Script, 6) == Tick(CFG, Script, w);
  }

  lemma FourthFailure() returns (told: World)
    ensures told.pos == 69
            && told.samples == [DOWN_0, DOWN_2, GOOD_3, GOOD_4, DOWN_5, DOWN_6]
    ensures var r := Switch(CFG, Script, told, Fallback); r.Died? ==> Run(CFG, Script, 7) == r
  {
    hide Police, Tick, Switch;
    SecondOutage();
    var w := Run(CFG, Script, 6).world;
    var s := TickSamples(CFG, Script, w, 64);
    told := FailsOver(CFG, Script, s, 6);
    assert Run(CFG, Script, 7) == Tick(CFG, Script, w);
  }

  lemma SecondFailover()
    ensures var w := Run(CFG, Script, 7).world;
            && w.samples == [DOWN_0, DOWN_2, GOOD_3, GOOD_4, DOWN_5, DOWN_6]
            && exists a :: a in w.attempts && a.target == Fallback && a.seen == 6
  {
    hide Run, Switch;
    var told := FourthFailure();
    var d := SwitchDies(CFG, Script, told, Fallback);
    assert d.attempts[|told.attempts|] in d.attempts;
  }

  /** A failover follows one second of outage instead of two. */
  lemma FailureWindowCanBeStale()
    ensures CFG.Valid()
            && Clocked(Script)
            && !Calm(CFG, Script, 7, false)
    ensures exists a :: a in Run(CFG, Script, 7).world.attempts && a.target == Fallback
              && !Proven(CFG, Run(CFG, Script, 7).world.samples, 0, a.seen, Fallback, CFG.failoverAfter)
  {
    hide Run;
    ReturnIsLost();
    SecondFailover();
    var w := Run(CFG, Script, 7).world;
    var a :| a in w.attempts && a.target == Fallback && a.seen == 6;
    assert !Evidence(Fallback, w.samples[3]);
    assert !Harmless(CFG, Run(CFG, Script, 4).world, false);
  }
}
