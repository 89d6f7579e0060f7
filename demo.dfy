/** The demonstration at the end of phaserunner.py: five phases A to E over a
    pool seeded with `number = 19`, where A writes `a_string` for C and C fails. */
module Demo {
  import opened Common
  import opened Phases
  import opened Runner
  import RunnerProps

  /** The pool of `PhaseRunner(number = 19)`; any number gives the same run. */
  function DemoPool(number: int): Pool
  {
    map["number" := VInt(number)]
  }

  /** The five phases as `add_phase` records them while the runner's
      `stop_on_fail` is still `True`. */
  function DemoConfigs(): seq<PhaseConfig>
  {
    [PhaseConfig("Phase A", (args: map<string, Value>) => Returns(VList([VBool(true), VStr("mystring")])),
                 ["number"], [], ["a_string"], true),
     PhaseConfig("Phase B", (args: map<string, Value>) => Returns(VNone), [], [], [], true),
     PhaseConfig("Phase C", (args: map<string, Value>) => Returns(VBool(false)), ["a_string"], [], [], true),
     PhaseConfig("Phase D", (args: map<string, Value>) => Returns(VNone), [], [], [], true),
     PhaseConfig("Phase E", (args: map<string, Value>) => Returns(VNone), [], [], [], true)]
  }

  function Fresh(): seq<Status>
  {
    [NotRun, NotRun, NotRun, NotRun, NotRun]
  }

  function After(number: int): Pool
  {
    DemoPool(number)["a_string" := VStr("mystring")]
  }

  /** Phase A leaves `a_string` in the pool, so C finds its required argument;
      run again on that pool it writes the same value. */
  lemma PhaseAWritesOutput(number: int, p: Pool, st: Status)
    requires p == DemoPool(number) || p == After(number)
    ensures Execute(DemoConfigs()[0], Some(p), st) == RunOutcome(Ok(true), Passed, Some(After(number)))
  {
    var c := DemoConfigs()[0];
    assert Missing(["number"], p) == [];
    assert StatusList(c.name, VList([VBool(true), VStr("mystring")])) == Ok([VBool(true), VStr("mystring")]);
    assert [VBool(true), VStr("mystring")][1..] == [VStr("mystring")];
    assert WriteOutputs(p, ["a_string"], [VStr("mystring")]) == After(number) by {
      assert ["a_string"][..0] == [];
    }
  }

  /** Phase C fails once `a_string` is in the pool. */
  lemma PhaseCFails(number: int, st: Status)
    ensures Execute(DemoConfigs()[2], Some(After(number)), st) == RunOutcome(Ok(false), Failed, Some(After(number)))
  {
    assert Missing(["a_string"], After(number)) == [];
  }

  /** A phase that returns nothing and needs nothing passes and leaves the pool alone. */
  lemma QuietPhasePasses(number: int, i: nat, st: Status)
    requires i == 1 || i == 3 || i == 4
    ensures Execute(DemoConfigs()[i], Some(After(number)), st) == RunOutcome(Ok(true), Passed, Some(After(number)))
  {
  }

  /** Five phases where the third fails, the first turns the pool p into q and
      the others leave q alone: the loop runs all five with `stop_on_fail` off
      and stops after the third with it on, leaving the last two statuses. */
  lemma FiveTurns(turn: TurnFn, cfgs: seq<PhaseConfig>, sts: seq<Status>, p: Pool, q: Pool, stop: bool)
    requires |cfgs| == 5 && |sts| == 5 && cfgs[2].stopOnFail
    requires turn(cfgs[0], p, sts[0]) == Turn(true, Passed, q)
    requires turn(cfgs[1], q, sts[1]) == Turn(true, Passed, q)
    requires turn(cfgs[2], q, sts[2]) == Turn(false, Failed, q)
    requires turn(cfgs[3], q, sts[3]) == Turn(true, Passed, q)
    requires turn(cfgs[4], q, sts[4]) == Turn(true, Passed, q)
    ensures RunLoop(turn, cfgs, sts, p, stop, 0, 5, []) ==
            if stop then LoopEnd(true, [Passed, Passed, Failed, sts[3], sts[4]], q,
                                 [Step(0, true), Step(1, true), Step(2, false)])
            else LoopEnd(false, [Passed, Passed, Failed, Passed, Passed], q,
                         [Step(0, true), Step(1, true), Step(2, false), Step(3, true), Step(4, true)])
  {
    var s1 := sts[0 := Passed];
    var s2 := s1[1 := Passed];
    var s3 := s2[2 := Failed];
    var s4 := s3[3 := Passed];
    var t1 := [Step(0, true)];
    var t2 := t1 + [Step(1, true)];
    var t3 := t2 + [Step(2, false)];
    var t4 := t3 + [Step(3, true)];
    RunLoopUnfold(turn, cfgs, sts, p, stop, 0, 5, [], Turn(true, Passed, q));
    assert [] + [Step(0, true)] == t1;
    RunLoopUnfold(turn, cfgs, s1, q, stop, 1, 5, t1, Turn(true, Passed, q));
    RunLoopUnfold(turn, cfgs, s2, q, stop, 2, 5, t2, Turn(false, Failed, q));
    assert s3 == [Passed, Passed, Failed, sts[3], sts[4]];
    assert t3 == [Step(0, true), Step(1, true), Step(2, false)];
    if !stop {
      RunLoopUnfold(turn, cfgs, s3, q, stop, 3, 5, t3, Turn(true, Passed, q));
      RunLoopUnfold(turn, cfgs, s4, q, stop, 4, 5, t4, Turn(true, Passed, q));
      assert s4[4 := Passed] == [Passed, Passed, Failed, Passed, Passed];
      assert t4 + [Step(4, true)] == [Step(0, true), Step(1, true), Step(2, false), Step(3, true), Step(4, true)];
    }
  }

  /** How each demonstration phase runs on the pool it finds, whatever its
      earlier status; p is the seeded pool or the one A already wrote to. */
  lemma DemoTurns(number: int, sts: seq<Status>, p: Pool)
    requires |sts| == 5 && (p == DemoPool(number) || p == After(number))
    ensures var cfgs, q := DemoConfigs(), After(number);
            PhaseTurn(cfgs[0], p, sts[0]) == Turn(true, Passed, q) &&
            PhaseTurn(cfgs[1], q, sts[1]) == Turn(true, Passed, q) &&
            PhaseTurn(cfgs[2], q, sts[2]) == Turn(false, Failed, q) &&
            PhaseTurn(cfgs[3], q, sts[3]) == Turn(true, Passed, q) &&
            PhaseTurn(cfgs[4], q, sts[4]) == Turn(true, Passed, q)
  {
    PhaseAWritesOutput(number, p, sts[0]);
    QuietPhasePasses(number, 1, sts[1]);
    PhaseCFails(number, sts[2]);
    QuietPhasePasses(number, 3, sts[3]);
    QuietPhasePasses(number, 4, sts[4]);
  }

  /** The statuses the first demonstration run leaves. */
  function FirstRunStatuses(): seq<Status>
  {
    [Passed, Passed, Failed, Passed, Passed]
  }

  /** Lines 290-291: with `stop_on_fail` off every phase runs and C's failure
      is only recorded. */
  lemma FirstRun(number: int)
    ensures RunSpec(PhaseTurn, DemoConfigs(), Fresh(), DemoPool(number), false, None, None, None, None) ==
            RunEnd(Completed, FirstRunStatuses(), After(number),
                   [Step(0, true), Step(1, true), Step(2, false), Step(3, true), Step(4, true)])
  {
    assert Resolve(Names(DemoConfigs()), None, None) == Ok(Span(0, 5));
    DemoTurns(number, Fresh(), DemoPool(number));
    FiveTurns(PhaseTurn, DemoConfigs(), Fresh(), DemoPool(number), After(number), false);
  }

  /** Lines 293-294: on the same runner with `stop_on_fail` on, the run stops
      after C; D and E are not run again and keep the `True` of the first run. */
  lemma SecondRun(number: int)
    ensures RunSpec(PhaseTurn, DemoConfigs(), FirstRunStatuses(), After(number), true, None, None, None, None) ==
            RunEnd(Aborted, FirstRunStatuses(), After(number), [Step(0, true), Step(1, true), Step(2, false)])
  {
    assert Resolve(Names(DemoConfigs()), None, None) == Ok(Span(0, 5));
    DemoTurns(number, FirstRunStatuses(), After(number));
    FiveTurns(PhaseTurn, DemoConfigs(), FirstRunStatuses(), After(number), After(number), true);
  }

  /** Phases 1 to 3 of five where the second of them fails, none changes the
      pool q and each ends in the status it had: with `stop_on_fail` off the
      loop over them runs all three and leaves the statuses as they were. */
  lemma MiddleTurns(turn: TurnFn, cfgs: seq<PhaseConfig>, sts: seq<Status>, q: Pool)
    requires |cfgs| == 5 && |sts| == 5
    requires turn(cfgs[1], q, sts[1]) == Turn(true, sts[1], q)
    requires turn(cfgs[2], q, sts[2]) == Turn(false, sts[2], q)
    requires turn(cfgs[3], q, sts[3]) == Turn(true, sts[3], q)
    ensures RunLoop(turn, cfgs, sts, q, false, 1, 4, []) ==
            LoopEnd(false, sts, q, [Step(1, true), Step(2, false), Step(3, true)])
  {
    RunLoopUnfold(turn, cfgs, sts, q, false, 1, 4, [], Turn(true, sts[1], q));
    assert sts[1 := sts[1]] == sts && [] + [Step(1, true)] == [Step(1, true)];
    RunLoopUnfold(turn, cfgs, sts, q, false, 2, 4, [Step(1, true)], Turn(false, sts[2], q));
    assert sts[2 := sts[2]] == sts && [Step(1, true)] + [Step(2, false)] == [Step(1, true), Step(2, false)];
    RunLoopUnfold(turn, cfgs, sts, q, false, 3, 4, [Step(1, true), Step(2, false)], Turn(true, sts[3], q));
    assert sts[3 := sts[3]] == sts;
  }

  /** Range resolution over the five demonstration phases: B to D is phases 1
      to 3, an open start up to D is 0 to 3, and D to B raises. */
  lemma ResolveDemoRanges()
    ensures Resolve(Names(DemoConfigs()), Some("Phase B"), Some("Phase D")) == Ok(Span(1, 4))
    ensures Resolve(Names(DemoConfigs()), None, Some("Phase D")) == Ok(Span(0, 4))
    ensures Resolve(Names(DemoConfigs()), Some("Phase D"), Some("Phase B")) ==
            Err(LastBeforeFirst(Some("Phase D"), Some("Phase B")))
  {
    var n := Names(DemoConfigs());
    assert n == ["Phase A", "Phase B", "Phase C", "Phase D", "Phase E"];
    assert Lower(n[0]) != Lower("Phase B") by { assert Lower(n[0])[6] == 'a'; assert Lower("Phase B")[6] == 'b'; }
    assert Lower(n[0]) != Lower("Phase D") by { assert Lower(n[0])[6] == 'a'; assert Lower("Phase D")[6] == 'd'; }
    assert Lower(n[1]) != Lower("Phase D") by { assert Lower(n[1])[6] == 'b'; assert Lower("Phase D")[6] == 'd'; }
    assert Lower(n[2]) != Lower("Phase D") by { assert Lower(n[2])[6] == 'c'; assert Lower("Phase D")[6] == 'd'; }
    RunnerProps.ResolveNamedBounds(n, "Phase B", "Phase D", 1, 3);
    RunnerProps.ResolveNamedBounds(n, "Phase D", "Phase B", 3, 1);
    RunnerProps.ResolveOpenBounds(n, "Phase D", 3);
  }

  /** Lines 296-297: with `stop_on_fail` off again, the range B to D runs B, C
      and D, and C's failure is only recorded. */
  lemma ThirdRun(number: int)
    ensures RunSpec(PhaseTurn, DemoConfigs(), FirstRunStatuses(), After(number), false, None, None,
                    Some("Phase B"), Some("Phase D")) ==
            RunEnd(Completed, FirstRunStatuses(), After(number), [Step(1, true), Step(2, false), Step(3, true)])
  {
    var cfgs, sts, q := DemoConfigs(), FirstRunStatuses(), After(number);
    ResolveDemoRanges();
    RunSpecOfSpan(PhaseTurn, cfgs, sts, q, false, None, None, Some("Phase B"), Some("Phase D"), 1, 4);
    DemoTurns(number, sts, q);
    MiddleTurns(PhaseTurn, cfgs, sts, q);
  }

  /** The demonstration at the end of phaserunner.py: three runs of one runner,
      each starting from the statuses and pool the previous one left. */
  lemma DemoRuns(number: int)
    ensures var e1 := RunSpec(PhaseTurn, DemoConfigs(), Fresh(), DemoPool(number), false, None, None, None, None);
            var e2 := RunSpec(PhaseTurn, DemoConfigs(), e1.statuses, e1.pool, true, None, None, None, None);
            var e3 := RunSpec(PhaseTurn, DemoConfigs(), e2.statuses, e2.pool, false, None, None, Some("Phase B"), Some("Phase D"));
            e1.result == Completed && e1.statuses == [Passed, Passed, Failed, Passed, Passed] &&
            e2.result == Aborted && e2.statuses == [Passed, Passed, Failed, Passed, Passed] &&
            |e2.trace| == 3 &&
            e3.result == Completed && e3.statuses == [Passed, Passed, Failed, Passed, Passed] &&
            e3.trace == [Step(1, true), Step(2, false), Step(3, true)] &&
            e1.pool == e2.pool == e3.pool == After(number)
  {
    FirstRun(number);
    SecondRun(number);
    ThirdRun(number);
  }
}
