/**
 A run in which a process is lost after the fallback became the route and before that was stamped: the next process
 takes no account of the residence. The retry cooldown is shorter than the minimum residence here.
 */
module EgressLostArrival {
  import opened Wrappers
  import opened EgressModel
  import opened EgressScripts
  import opened EgressResidence

  const CFG := Config(1, 2, 1, 100, 1, 1, 1)

  /** An outage and a failover whose process is lost once MAX is up on the fallback; then the primary answers at once. */
  function Script(i: nat): Answer {
    Answer(if i < 6 then 1000 else if i < 39 then 1002 else 1003,
           i in {13, 19, 31, 40}, i == 21, false, false, i !in {25, 47}, if i == 25 then Fallback else Primary)
  }

  const FAILING := EgressState(Primary, Waiting, 1, 0, Some(1000), None, 1, None, 0, None, Some(1000), [], 0, false)

  lemma FirstFailure()
    ensures var r := Run(CFG, Script, 1);
            r.Running?
            && r.world.pos == 6
            && Core(r.world.mem, FAILING)
            && r.world.mem.pending == []
            && r.world.route == Primary && r.world.initialized
  {
    hide Police, Tick;
    var w := Start(Script);
    assert Run(CFG, Script, 0) == Running(w);
    var s := FirstTickSamples(CFG, Script, w, 1);
    CountsDown(CFG, Script, s, 1000);
    assert Run(CFG, Script, 1) == Tick(CFG, Script, w);
  }

  const TOLD := EgressState(Primary, Waiting, 1, 0, Some(1000), None, 2, None, 0, None, Some(1002), [], 0, true)

  lemma SecondFailure() returns (told: World)
    ensures told.pos == 14
            && Core(told.mem, TOLD)
            && told.route == Primary
            && told.initialized
    ensures var r := Switch(CFG, Script, told, Fallback); r.Died? ==> Run(CFG, Script, 2) == r
  {
    hide Police, Switch, Tick;
    FirstFailure();
    var w := Run(CFG, Script, 1).world;
    var s := TickSamples(CFG, Script, w, 6);
    told := FailsOver(CFG, Script, s, 1002);
    assert Run(CFG, Script, 2) == Tick(CFG, Script, w);
  }

  /** The file of a process that is lost when MAX has come up on the fallback but that is not stamped yet. */
  const LOST := EgressState(Fallback, Switching, 1, 0, Some(1000), None, 2, None, 1003, Some(1034), Some(1002), [], 0, true)

  lemma ArrivalIsLost()
    ensures var r := Run(CFG, Script, 2);
            r.Died?
            && r.world.pos == 25
            && Core(r.world.disk, LOST)
            && r.world.disk.pending != []
            && r.world.arrived == Some(1002)
  {
    hide Run, Switch, Confirm, Connected;
    var told := SecondFailure();
    var a := SwitchReaches(CFG, Script, told, Fallback);
    ConfirmReaches(CFG, Script, a, Fallback, Primary);
    var d := ConnectedDies(Script, OnTarget(Script, a, Fallback), Fallback);
  }

  lemma BootsLost() returns (w: World)
    ensures Run(CFG, Script, 3) == Running(w)
    ensures w.pos == 26
            && w.route == Fallback
            && !w.initialized
            && w.arrived == Some(1002)
    ensures Core(w.mem, LOST) && w.mem.pending != []
  {
    hide Tick;
    ArrivalIsLost();
    w := Boot(Script, Run(CFG, Script, 2).world);
  }

  const RECOVERING := EgressState(Fallback, OnFallback, 1, 0, Some(1000), Some(1002), 2, None, 1003, None, Some(1002), [], 0, true)

  lemma RecoveryStarts()
    ensures var r := Run(CFG, Script, 4);
            r.Running?
            && r.world.pos == 38
            && Core(r.world.mem, RECOVERING)
            && r.world.mem.pending != []
            && r.world.route == Fallback
            && r.world.initialized
            && r.world.arrived == Some(1002)
  {
    hide Police, Tick;
    var w := BootsLost();
    var s := RestoreSamples(CFG, Script, w, 27);
    var c := StartsRecovery(CFG, Script, s, 1002);
    assert Run(CFG, Script, 4) == Tick(CFG, Script, w);
  }

  /** The primary is tried one second after the arrival instead of a hundred. */
  lemma ResidenceCanBeCutShort()
    ensures CFG.Valid()
            && Clocked(Script)
            && !LostStamped(Run(CFG, Script, 2).world)
    ensures exists a :: a in Run(CFG, Script, 5).world.attempts && a.target == Primary && a.arrived.Some?
              && a.stamp - a.arrived.value < CFG.minimumResidence
  {
    hide Police, Tick, Switch;
    ArrivalIsLost();
    RecoveryStarts();
    var w := Run(CFG, Script, 4).world;
    var s := TickSamples(CFG, Script, w, 39);
    var seen := Returns(CFG, Script, s, 1003);
    var d := SwitchDies(CFG, Script, seen, Primary);
    assert Run(CFG, Script, 5) == Tick(CFG, Script, w);
    assert d.attempts[|seen.attempts|] in d.attempts;
  }
}
