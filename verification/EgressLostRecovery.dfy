/**
 A run with the default intervals of the configuration in which a process is lost while it tells of a recovery: the
 notification is saved before the failure timer is cleared, and the next process fails over on one failing sample.
 */
module EgressLostRecovery {
  import opened Wrappers
  import opened EgressModel
  import opened EgressInvariants
  import opened EgressRuns
  import opened EgressTheorems
  import opened EgressScripts
  import opened EgressInheritance

  const CFG := Config(30, 600, 300, 600, 600, 60, 30)

  /** The primary fails every 90 seconds up to 540, recovers at 630, when the process is lost, and fails again at 660. */
  function Script(i: nat): Answer {
    Answer(if i < 6 then 0 else if i < 14 then 90 else if i < 44 then 90 * ((i - 14) / 6 + 2) else if i < 53 then 630 else 660,
           i == 58, i in {48, 49}, false, false, i !in {52, 64}, Primary)
  }

  /** The first `k` samples. */
  function Downs(k: nat): seq<Sample> {
    if k == 0 then [] else Downs(k - 1) + [Sample(90 * (k - 1), Primary, false, true, false)]
  }

  function Outage(k: nat, told: bool): EgressState {
    EgressState(Primary, Waiting, 1, 0, Some(0), None, k, None, 0, None, Some(90 * (k - 1)), [], 0, told)
  }

  ghost predicate At(w: World, pos: nat, k: nat, told: bool) {
    && w.pos == pos
    && Core(w.mem, Outage(k, told))
    && w.route == Primary
    && w.initialized
    && w.samples == Downs(k) && (w.mem.pending != [] <==> told)
  }

  lemma FirstFailure()
    ensures var r := Run(CFG, Script, 1); r.Running? && At(r.world, 6, 1, false)
  {
    hide Police, Tick;
    var w := Start(Script);
    assert Run(CFG, Script, 0) == Running(w);
    var s := FirstTickSamples(CFG, Script, w, 1);
    CountsDown(CFG, Script, s, 0);
    assert Run(CFG, Script, 1) == Tick(CFG, Script, w);
    assert Downs(1) == Downs(0) + [Sample(0, Primary, false, true, false)];
  }

  lemma SecondFailure()
    ensures var r := Run(CFG, Script, 2); r.Running? && At(r.world, 14, 2, true)
  {
    hide Police, Tick;
    FirstFailure();
    var w := Run(CFG, Script, 1).world;
    var s := TickSamples(CFG, Script, w, 6);
    var c := TellsDown(CFG, Script, s, 90);
    assert Run(CFG, Script, 2) == Tick(CFG, Script, w);
    assert Downs(2) == Downs(1) + [Sample(90, Primary, false, true, false)];
  }

  lemma {:induction false} LaterFailure(k: nat)
    requires 2 <= k <= 7
    ensures var r := Run(CFG, Script, k); r.Running? && At(r.world, 14 + 6 * (k - 2), k, true)
  {
    hide Police, Tick, Downs;
    if k == 2 {
      SecondFailure();
    } else {
      LaterFailure(k - 1);
      LaterAnswers(k);
      hide Script;
      var w := Run(CFG, Script, k - 1).world;
      var s := TickSamples(CFG, Script, w, 15 + 6 * (k - 3));
      CountsDown(CFG, Script, s, 90 * (k - 1));
      assert Run(CFG, Script, k) == Tick(CFG, Script, w);
      DownsNext(k);
    }
  }

  /** What the environment answers in the k-th tick. */
  lemma LaterAnswers(k: nat)
    requires 3 <= k <= 7
    ensures var p := 15 + 6 * (k - 3);
            && (forall i :: p - 1 <= i <= p + 4 ==> var a := Script(i); a.survives && !a.ok && !a.ready && !a.reauth)
            && Script(p).now == 90 * (k - 1)
  {
  }

  lemma DownsNext(k: nat)
    requires k > 0
    ensures Downs(k) == Downs(k - 1) + [Sample(90 * (k - 1), Primary, false, true, false)]
  {
  }

  const UP := Sample(630, Primary, false, false, false)

  lemma RecoveryLost()
    ensures var r := Run(CFG, Script, 8);
            && r.Died?
            && r.world.pos == 52
            && r.world.samples == Downs(7) + [UP]
            && Core(r.world.disk, Outage(7, true).(lastProbeAt := Some(630)))
            && r.world.disk.pending != []
  {
    hide Police, Tick, Downs;
    LaterFailure(7);
    var w := Run(CFG, Script, 7).world;
    var s := TickSamples(CFG, Script, w, 45);
    var d := RecoveryIsLost(CFG, Script, s, 630, false);
    assert Run(CFG, Script, 8) == Tick(CFG, Script, w);
  }

  lemma BootsLost() returns (w: World)
    ensures Run(CFG, Script, 9) == Running(w)
    ensures w.pos == 53
            && w.route == Primary
            && !w.initialized
            && w.samples == Downs(7) + [UP]
    ensures Core(w.mem, Outage(7, true).(lastProbeAt := Some(630)))
            && w.mem.pending != []
  {
    hide Tick, Downs;
    RecoveryLost();
    w := Boot(Script, Run(CFG, Script, 8).world);
  }

  lemma FailoverAtOnce()
    ensures var w := Run(CFG, Script, 10).world;
            w.samples == Downs(7) + [UP] + [DownAt(660)] && exists a :: a in w.attempts && a.target == Fallback && a.seen == |w.samples|
  {
    hide Police, Tick, Switch, Downs;
    var w := BootsLost();
    var s := FirstTickSamples(CFG, Script, w, 54);
    var told := FailsOver(CFG, Script, s, 660);
    var d := SwitchDies(CFG, Script, told, Fallback);
    assert Run(CFG, Script, 10) == Tick(CFG, Script, w);
    assert d.attempts[|told.attempts|] in d.attempts;
  }

  /** The file left behind is ripe, and a failover follows one failing sample instead of 600 seconds of outage. */
  lemma FailureWindowCanBeStale()
    ensures CFG.Valid()
            && Clocked(Script)
            && !Calm(CFG, Script, 10, false)
            && Ripe(CFG, Run(CFG, Script, 8).world)
    ensures exists a :: a in Run(CFG, Script, 10).world.attempts && a.target == Fallback
              && !Proven(CFG, Run(CFG, Script, 10).world.samples, 0, a.seen, Fallback, CFG.failoverAfter)
  {
    hide Run, Downs;
    RecoveryLost();
    FailoverAtOnce();
    var w := Run(CFG, Script, 10).world;
    var a :| a in w.attempts && a.target == Fallback && a.seen == |w.samples|;
    OneSampleProvesNothing(CFG, Downs(7) + [UP], DownAt(660));
    assert !Harmless(CFG, Run(CFG, Script, 8).world, false);
  }
}
