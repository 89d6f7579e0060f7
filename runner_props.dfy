/** What `PhaseRunner._get_phases` and `run_phases` promise, proved about
    `Runner.Resolve`, `Runner.RunLoop` and `Runner.RunSpec`. */
module RunnerProps {
  import opened Common
  import opened Phases
  import opened Runner

  // ---------------------------------------------------------------------------
  // Range resolution (`_get_phases`, lines 194-204)

  /** Without bounds the whole list is selected; an empty list raises `IndexError`. */
  lemma ResolveWholeList(names: seq<string>)
    ensures Resolve(names, None, None) ==
            if names == [] then Err(NoPhaseAt(0)) else Ok(Span(0, |names|))
  {
  }

  /** An unknown first phase raises `IndexError`, whatever the last bound is. */
  lemma ResolveUnknownFirst(names: seq<string>, first: string, last: Option<string>)
    requires forall j :: 0 <= j < |names| ==> !SameName(names[j], first)
    ensures Resolve(names, Some(first), last) == Err(FirstPhaseNotFound(first))
  {
  }

  /** A named last phase is end-inclusive: with both names found at i and j the
      selection is `[i:j+1]`; one step back it collapses to the single phase i,
      further back it raises. */
  lemma {:induction false} ResolveNamedBounds(names: seq<string>, first: string, last: string, i: nat, j: nat)
    requires i < |names| && SameName(names[i], first) && forall k :: 0 <= k < i ==> !SameName(names[k], first)
    requires j < |names| && SameName(names[j], last) && forall k :: 0 <= k < j ==> !SameName(names[k], last)
    ensures Resolve(names, Some(first), Some(last)) ==
            if i <= j then Ok(Span(i, j + 1))
            else if i == j + 1 then Ok(Single(i))
            else Err(LastBeforeFirst(Some(first), Some(last)))
  {
    assert PhaseIndex(names, first) == i;
    assert PhaseIndex(names, last) == j;
  }

  /** An absent first bound means 0 and an absent last bound means the end. */
  lemma {:induction false} ResolveOpenBounds(names: seq<string>, name: string, j: nat)
    requires j < |names| && SameName(names[j], name) && forall k :: 0 <= k < j ==> !SameName(names[k], name)
    ensures Resolve(names, None, Some(name)) == Ok(Span(0, j + 1))
    ensures Resolve(names, Some(name), None) == Ok(Span(j, |names|))
  {
    assert PhaseIndex(names, name) == j;
  }

  /** An unknown last phase is silently read as index 0 (its -1 plus one), so
      the `last_index == -1` check of lines 200-201 can never fire: the result
      is the single first phase when the first bound is at 0, and a range error
      otherwise. */
  lemma {:induction false} ResolveUnknownLast(names: seq<string>, first: Option<string>, last: string)
    requires names != []
    requires forall j :: 0 <= j < |names| ==> !SameName(names[j], last)
    requires first.Some? ==> exists j :: 0 <= j < |names| && SameName(names[j], first.value)
    ensures Resolve(names, first, Some(last)) ==
            if first.None? || PhaseIndex(names, first.value) == 0 then Ok(Single(0))
            else Err(LastBeforeFirst(first, Some(last)))
  {
    assert PhaseIndex(names, last) == -1;
    if first.Some? {
      assert PhaseIndex(names, first.value) != -1;
    }
  }

  /** The selected phases of a span are exactly those from the first bound up
      to and including the last one. */
  lemma SpanIsInclusive(names: seq<string>, first: string, last: string)
    requires Resolve(names, Some(first), Some(last)).Ok?
    requires Resolve(names, Some(first), Some(last)).value.Span?
    ensures var s := Resolve(names, Some(first), Some(last)).value;
            SameName(names[s.lo], first) && SameName(names[s.hi - 1], last)
  {
  }

  // ---------------------------------------------------------------------------
  // The phase loop (lines 229-245)

  /** One turn of the phase loop with the phase's outcome left abstract: it
      records one step for phase i and changes only status i. The inductive
      step of `LoopExtendsTrace`, `LoopRunsInOrder`, `LoopHaltsOnlyAtEnd`,
      `LoopAbortsAtHalt` and `LoopTouchesOnlyExecuted`. */
  lemma LoopTurn(turn: TurnFn, cfgs: seq<PhaseConfig>, sts: seq<Status>, pool: Pool, stop: bool,
                 i: nat, hi: nat, trace: seq<Step>)
    returns (st: Status, pool': Pool, step: Step)
    requires |sts| == |cfgs| && i < hi <= |cfgs|
    ensures step.index == i
    ensures RunLoop(turn, cfgs, sts, pool, stop, i, hi, trace) ==
            if Halts(cfgs, stop, step) then LoopEnd(true, sts[i := st], pool', trace + [step])
            else RunLoop(turn, cfgs, sts[i := st], pool', stop, i + 1, hi, trace + [step])
  {
    var t := turn(cfgs[i], pool, sts[i]);
    RunLoopUnfold(turn, cfgs, sts, pool, stop, i, hi, trace, t);
    st, pool', step := t.status, t.pool, Step(i, t.success);
  }

  /** The loop only appends to the steps already taken, at most one per phase
      of the range, and reaches hi unless it stops early. */
  lemma {:induction false} LoopExtendsTrace(turn: TurnFn, cfgs: seq<PhaseConfig>, sts: seq<Status>, pool: Pool, stop: bool,
                                            i: nat, hi: nat, trace: seq<Step>)
    requires |sts| == |cfgs| && i <= hi <= |cfgs|
    ensures var e := RunLoop(turn, cfgs, sts, pool, stop, i, hi, trace);
            |trace| <= |e.trace| <= |trace| + (hi - i) && e.trace[..|trace|] == trace &&
            (!e.aborted ==> |e.trace| == |trace| + (hi - i))
    decreases hi - i
  {
    if i < hi {
      var st, pool', step := LoopTurn(turn, cfgs, sts, pool, stop, i, hi, trace);
      if !Halts(cfgs, stop, step) {
        LoopExtendsTrace(turn, cfgs, sts[i := st], pool', stop, i + 1, hi, trace + [step]);
        var e := RunLoop(turn, cfgs, sts[i := st], pool', stop, i + 1, hi, trace + [step]);
        assert e.trace[..|trace|] == e.trace[..|trace| + 1][..|trace|];
      }
    }
  }

  /** The loop runs the phases strictly in order, starting at i. */
  lemma {:induction false} LoopRunsInOrder(turn: TurnFn, cfgs: seq<PhaseConfig>, sts: seq<Status>, pool: Pool, stop: bool,
                                           i: nat, hi: nat, trace: seq<Step>)
    requires |sts| == |cfgs| && i <= hi <= |cfgs|
    ensures var e := RunLoop(turn, cfgs, sts, pool, stop, i, hi, trace);
            |e.trace| >= |trace| &&
            forall k :: |trace| <= k < |e.trace| ==> e.trace[k].index == i + (k - |trace|)
    decreases hi - i
  {
    LoopExtendsTrace(turn, cfgs, sts, pool, stop, i, hi, trace);
    if i < hi {
      var st, pool', step := LoopTurn(turn, cfgs, sts, pool, stop, i, hi, trace);
      if !Halts(cfgs, stop, step) {
        LoopRunsInOrder(turn, cfgs, sts[i := st], pool', stop, i + 1, hi, trace + [step]);
        LoopExtendsTrace(turn, cfgs, sts[i := st], pool', stop, i + 1, hi, trace + [step]);
        var e := RunLoop(turn, cfgs, sts[i := st], pool', stop, i + 1, hi, trace + [step]);
        assert e.trace[|trace|] == (trace + [step])[|trace|];
      }
    }
  }

  /** No executed phase before the last one met the abort rule. */
  lemma {:induction false} LoopHaltsOnlyAtEnd(turn: TurnFn, cfgs: seq<PhaseConfig>, sts: seq<Status>, pool: Pool, stop: bool,
                                              i: nat, hi: nat, trace: seq<Step>)
    requires |sts| == |cfgs| && i <= hi <= |cfgs|
    ensures var e := RunLoop(turn, cfgs, sts, pool, stop, i, hi, trace);
            forall k :: |trace| <= k < |e.trace| - 1 ==> !Halts(cfgs, stop, e.trace[k])
    decreases hi - i
  {
    if i < hi {
      var st, pool', step := LoopTurn(turn, cfgs, sts, pool, stop, i, hi, trace);
      if !Halts(cfgs, stop, step) {
        var t := trace + [step];
        LoopHaltsOnlyAtEnd(turn, cfgs, sts[i := st], pool', stop, i + 1, hi, t);
        LoopExtendsTrace(turn, cfgs, sts[i := st], pool', stop, i + 1, hi, t);
        var e := RunLoop(turn, cfgs, sts[i := st], pool', stop, i + 1, hi, t);
        assert e.trace[|trace|] == step by {
          assert e.trace[|trace|] == e.trace[..|t|][|trace|];
        }
      }
    }
  }

  /** The loop stops early exactly when its last executed phase failed while
      both stop-on-failure flags were set. */
  lemma {:induction false} LoopAbortsAtHalt(turn: TurnFn, cfgs: seq<PhaseConfig>, sts: seq<Status>, pool: Pool, stop: bool,
                                            i: nat, hi: nat, trace: seq<Step>)
    requires |sts| == |cfgs| && i <= hi <= |cfgs|
    ensures var e := RunLoop(turn, cfgs, sts, pool, stop, i, hi, trace);
            e.aborted <==> |e.trace| > |trace| && Halts(cfgs, stop, e.trace[|e.trace| - 1])
    decreases hi - i
  {
    if i < hi {
      var st, pool', step := LoopTurn(turn, cfgs, sts, pool, stop, i, hi, trace);
      var t := trace + [step];
      if Halts(cfgs, stop, step) {
        assert t[|t| - 1] == step;
      } else {
        LoopAbortsAtHalt(turn, cfgs, sts[i := st], pool', stop, i + 1, hi, t);
        LoopExtendsTrace(turn, cfgs, sts[i := st], pool', stop, i + 1, hi, t);
        var e := RunLoop(turn, cfgs, sts[i := st], pool', stop, i + 1, hi, t);
        if |e.trace| == |t| {
          assert e.trace == t;
        }
      }
    }
  }

  /** The loop stops early exactly at the first executed phase that failed
      while both stop-on-failure flags were set. */
  lemma LoopStopsAtFirstHalt(turn: TurnFn, cfgs: seq<PhaseConfig>, sts: seq<Status>, pool: Pool, stop: bool,
                             i: nat, hi: nat, trace: seq<Step>)
    requires |sts| == |cfgs| && i <= hi <= |cfgs|
    ensures var e := RunLoop(turn, cfgs, sts, pool, stop, i, hi, trace);
            |e.trace| >= |trace| &&
            (forall k :: |trace| <= k < |e.trace| - 1 ==> !Halts(cfgs, stop, e.trace[k])) &&
            (e.aborted <==> |e.trace| > |trace| && Halts(cfgs, stop, e.trace[|e.trace| - 1]))
  {
    LoopExtendsTrace(turn, cfgs, sts, pool, stop, i, hi, trace);
    LoopHaltsOnlyAtEnd(turn, cfgs, sts, pool, stop, i, hi, trace);
    LoopAbortsAtHalt(turn, cfgs, sts, pool, stop, i, hi, trace);
  }

  /** Only the phases the loop executed can change status. */
  lemma {:induction false} LoopTouchesOnlyExecuted(turn: TurnFn, cfgs: seq<PhaseConfig>, sts: seq<Status>, pool: Pool, stop: bool,
                                                   i: nat, hi: nat, trace: seq<Step>, j: nat)
    requires |sts| == |cfgs| && i <= hi <= |cfgs| && j < |cfgs|
    requires var e := RunLoop(turn, cfgs, sts, pool, stop, i, hi, trace);
             !(i <= j < i + (|e.trace| - |trace|))
    ensures RunLoop(turn, cfgs, sts, pool, stop, i, hi, trace).statuses[j] == sts[j]
    decreases hi - i
  {
    if i < hi {
      var st, pool', step := LoopTurn(turn, cfgs, sts, pool, stop, i, hi, trace);
      if !Halts(cfgs, stop, step) {
        LoopExtendsTrace(turn, cfgs, sts[i := st], pool', stop, i + 1, hi, trace + [step]);
        LoopTouchesOnlyExecuted(turn, cfgs, sts[i := st], pool', stop, i + 1, hi, trace + [step], j);
      }
    }
  }

  /** A phase that fails or raises ends the loop right after itself exactly
      when both the runner's and the phase's `stop_on_fail` are set; otherwise
      the loop goes on to the next phase. */
  lemma FailedPhaseAbortsOnlyWithBothFlags(turn: TurnFn, cfgs: seq<PhaseConfig>, sts: seq<Status>, pool: Pool, stop: bool,
                                           i: nat, hi: nat, trace: seq<Step>)
    requires |sts| == |cfgs| && i < hi <= |cfgs|
    requires !turn(cfgs[i], pool, sts[i]).success
    ensures var e := RunLoop(turn, cfgs, sts, pool, stop, i, hi, trace);
            (stop && cfgs[i].stopOnFail) <==> (e.aborted && |e.trace| == |trace| + 1)
  {
    var t := turn(cfgs[i], pool, sts[i]);
    RunLoopUnfold(turn, cfgs, sts, pool, stop, i, hi, trace, t);
    var step := Step(i, t.success);
    if !Halts(cfgs, stop, step) {
      LoopExtendsTrace(turn, cfgs, sts[i := t.status], t.pool, stop, i + 1, hi, trace + [step]);
      LoopAbortsAtHalt(turn, cfgs, sts[i := t.status], t.pool, stop, i + 1, hi, trace + [step]);
    }
  }

  /** A way of running a phase whose success and new pool do not depend on
      the phase's earlier status. */
  ghost predicate StatusBlind(turn: TurnFn)
  {
    forall c, p, s1, s2 :: turn(c, p, s1).success == turn(c, p, s2).success && turn(c, p, s1).pool == turn(c, p, s2).pool
  }

  /** `run` never looks at the status it is about to overwrite. */
  lemma PhaseTurnIsStatusBlind()
    ensures StatusBlind(PhaseTurn)
  {
  }

  /** A way of running a phase that ends in the same status when it is run
      again from the status it left. */
  ghost predicate StatusSettles(turn: TurnFn)
  {
    forall c, p, s :: turn(c, p, turn(c, p, s).status).status == turn(c, p, s).status
  }

  /** `run` either sets the status from the work function's answer, which does
      not depend on the old status, or raises before touching it. */
  lemma PhaseTurnSettles()
    ensures StatusSettles(PhaseTurn)
  {
  }

  /** A phase's earlier status never steers the loop: from any two status lists
      it executes the same phases with the same results and leaves the same
      pool, so re-running a range over an unchanged pool repeats it. */
  lemma {:induction false} LoopIgnoresEarlierStatuses(turn: TurnFn, cfgs: seq<PhaseConfig>, sts1: seq<Status>, sts2: seq<Status>,
                                                      pool: Pool, stop: bool, i: nat, hi: nat, trace: seq<Step>)
    requires StatusBlind(turn)
    requires |sts1| == |sts2| == |cfgs| && i <= hi <= |cfgs|
    ensures var e1, e2 := RunLoop(turn, cfgs, sts1, pool, stop, i, hi, trace), RunLoop(turn, cfgs, sts2, pool, stop, i, hi, trace);
            e1.aborted == e2.aborted && e1.trace == e2.trace && e1.pool == e2.pool
    decreases hi - i
  {
    if i < hi {
      var t1, t2 := turn(cfgs[i], pool, sts1[i]), turn(cfgs[i], pool, sts2[i]);
      RunLoopUnfold(turn, cfgs, sts1, pool, stop, i, hi, trace, t1);
      RunLoopUnfold(turn, cfgs, sts2, pool, stop, i, hi, trace, t2);
      assert t1.success == t2.success && t1.pool == t2.pool;
      var step := Step(i, t1.success);
      if !Halts(cfgs, stop, step) {
        LoopIgnoresEarlierStatuses(turn, cfgs, sts1[i := t1.status], sts2[i := t2.status], t1.pool, stop,
                                   i + 1, hi, trace + [step]);
      }
    }
  }

  /** Starting the loop over the same pool from the statuses it left gives
      those statuses again. */
  lemma {:induction false} LoopRerunKeepsStatuses(turn: TurnFn, cfgs: seq<PhaseConfig>, sts1: seq<Status>, sts2: seq<Status>,
                                                  pool: Pool, stop: bool, i: nat, hi: nat, trace: seq<Step>)
    requires StatusBlind(turn) && StatusSettles(turn)
    requires |sts1| == |cfgs| && i <= hi <= |cfgs|
    requires sts2 == RunLoop(turn, cfgs, sts1, pool, stop, i, hi, trace).statuses
    ensures RunLoop(turn, cfgs, sts2, pool, stop, i, hi, trace).statuses == sts2
    decreases hi - i
  {
    if i < hi {
      var t1, t2 := turn(cfgs[i], pool, sts1[i]), turn(cfgs[i], pool, sts2[i]);
      RunLoopUnfold(turn, cfgs, sts1, pool, stop, i, hi, trace, t1);
      RunLoopUnfold(turn, cfgs, sts2, pool, stop, i, hi, trace, t2);
      var step := Step(i, t1.success);
      if !Halts(cfgs, stop, step) {
        LoopExtendsTrace(turn, cfgs, sts1[i := t1.status], t1.pool, stop, i + 1, hi, trace + [step]);
        LoopTouchesOnlyExecuted(turn, cfgs, sts1[i := t1.status], t1.pool, stop, i + 1, hi, trace + [step], i);
      }
      assert sts2[i] == t1.status;
      assert t2 == Turn(t1.success, t1.status, t1.pool);
      assert sts2[i := t2.status] == sts2;
      if !Halts(cfgs, stop, step) {
        LoopRerunKeepsStatuses(turn, cfgs, sts1[i := t1.status], sts2, t1.pool, stop, i + 1, hi, trace + [step]);
      }
    }
  }

  /** With the runner's `stop_on_fail` off, no failure stops the loop: every
      phase of the range is executed, in order. */
  lemma NoStopRunsEveryPhase(turn: TurnFn, cfgs: seq<PhaseConfig>, sts: seq<Status>, pool: Pool, lo: nat, hi: nat)
    requires |sts| == |cfgs| && lo <= hi <= |cfgs|
    ensures var e := RunLoop(turn, cfgs, sts, pool, false, lo, hi, []);
            !e.aborted && |e.trace| == hi - lo &&
            forall k :: 0 <= k < |e.trace| ==> e.trace[k].index == lo + k
  {
    LoopExtendsTrace(turn, cfgs, sts, pool, false, lo, hi, []);
    LoopRunsInOrder(turn, cfgs, sts, pool, false, lo, hi, []);
    LoopStopsAtFirstHalt(turn, cfgs, sts, pool, false, lo, hi, []);
  }

  // ---------------------------------------------------------------------------
  // The whole run (lines 206-262). `RunSpec` is `RunSelection` applied to what
  // `Resolve` answers, so the lemmas below, stated for any selection that
  // fits the phase list, hold of `RunSpec` with `sel := Resolve(...)`.

  /** A range that does not resolve raises before any hook or phase runs. */
  lemma BadRangeRaises(turn: TurnFn, cfgs: seq<PhaseConfig>, sts: seq<Status>, pool: Pool, stop: bool,
                       pre: Option<Hook>, post: Option<Hook>, sel: Result<Selection, RunnerError>)
    requires |sts| == |cfgs| && Fits(|cfgs|, sel)
    requires sel.Err?
    ensures RunSelection(turn, cfgs, sts, pool, stop, pre, post, sel) == RunEnd(Raised(sel.error), sts, pool, [])
  {
  }

  /** A failing or raising `pre_run` returns `False` before any phase when the
      runner's `stop_on_fail` is set. */
  lemma FailedPreRunAborts(turn: TurnFn, cfgs: seq<PhaseConfig>, sts: seq<Status>, pool: Pool,
                           pre: Hook, post: Option<Hook>, sel: Result<Selection, RunnerError>)
    requires |sts| == |cfgs| && Fits(|cfgs|, sel)
    requires sel.Ok? && !HookSucceeds(pre, pool)
    ensures RunSelection(turn, cfgs, sts, pool, true, Some(pre), post, sel) == RunEnd(Aborted, sts, pool, [])
  {
  }

  /** A failing or raising `post_run` returns `False` after all phases when the
      runner's `stop_on_fail` is set. */
  lemma FailedPostRunAborts(turn: TurnFn, cfgs: seq<PhaseConfig>, sts: seq<Status>, pool: Pool,
                            pre: Option<Hook>, post: Hook, sel: Result<Selection, RunnerError>)
    requires |sts| == |cfgs| && Fits(|cfgs|, sel)
    requires sel.Ok? && sel.value.Span?
    requires pre.Some? ==> HookSucceeds(pre.value, pool)
    requires var l := RunLoop(turn, cfgs, sts, pool, true, sel.value.lo, sel.value.hi, []);
             !l.aborted && !HookSucceeds(post, l.pool)
    ensures var l := RunLoop(turn, cfgs, sts, pool, true, sel.value.lo, sel.value.hi, []);
            RunSelection(turn, cfgs, sts, pool, true, pre, Some(post), sel) == RunEnd(Aborted, l.statuses, l.pool, l.trace)
  {
  }

  /** With the runner's `stop_on_fail` off the hooks decide nothing: the run is
      the same as with no hooks at all. */
  lemma NoStopIgnoresHooks(turn: TurnFn, cfgs: seq<PhaseConfig>, sts: seq<Status>, pool: Pool,
                           pre: Option<Hook>, post: Option<Hook>, sel: Result<Selection, RunnerError>)
    requires |sts| == |cfgs| && Fits(|cfgs|, sel)
    ensures RunSelection(turn, cfgs, sts, pool, false, pre, post, sel) ==
            RunSelection(turn, cfgs, sts, pool, false, None, None, sel)
  {
  }

  /** A last bound one place before the first one selects a single phase, over
      which `run_phases` cannot iterate: it raises, after `pre_run`, with no
      phase run. */
  lemma SinglePhaseSelectionRaises(turn: TurnFn, cfgs: seq<PhaseConfig>, sts: seq<Status>, pool: Pool, stop: bool,
                                   pre: Option<Hook>, post: Option<Hook>, sel: Result<Selection, RunnerError>)
    requires |sts| == |cfgs| && Fits(|cfgs|, sel)
    requires sel.Ok? && sel.value.Single?
    ensures var e := RunSelection(turn, cfgs, sts, pool, stop, pre, post, sel);
            e.statuses == sts && e.pool == pool && e.trace == [] &&
            e.result == if pre.Some? && stop && !HookSucceeds(pre.value, pool) then Aborted else Raised(NotIterable)
  {
  }

  /** A run that completes (falls off the end of `run_phases`) executed every
      phase of its range, in order, and no executed phase met the abort rule. */
  lemma CompletedRunsWholeRange(turn: TurnFn, cfgs: seq<PhaseConfig>, sts: seq<Status>, pool: Pool, stop: bool,
                                pre: Option<Hook>, post: Option<Hook>, sel: Result<Selection, RunnerError>)
    requires |sts| == |cfgs| && Fits(|cfgs|, sel)
    requires RunSelection(turn, cfgs, sts, pool, stop, pre, post, sel).result == Completed
    ensures var e := RunSelection(turn, cfgs, sts, pool, stop, pre, post, sel);
            sel.Ok? && sel.value.Span? &&
            |e.trace| == sel.value.hi - sel.value.lo &&
            (forall k :: 0 <= k < |e.trace| ==> e.trace[k].index == sel.value.lo + k) &&
            (forall k :: 0 <= k < |e.trace| ==> !Halts(cfgs, stop, e.trace[k])) &&
            (stop && pre.Some? ==> HookSucceeds(pre.value, pool)) &&
            (stop && post.Some? ==> HookSucceeds(post.value, e.pool))
  {
    var lo, hi := sel.value.lo, sel.value.hi;
    LoopExtendsTrace(turn, cfgs, sts, pool, stop, lo, hi, []);
    LoopRunsInOrder(turn, cfgs, sts, pool, stop, lo, hi, []);
    LoopStopsAtFirstHalt(turn, cfgs, sts, pool, stop, lo, hi, []);
  }

  /** A run returns `False` only for a reason the source gives: a failed hook
      with `stop_on_fail` set, or an executed phase that failed with both flags
      set, which is then the last phase executed. */
  lemma AbortHasACause(turn: TurnFn, cfgs: seq<PhaseConfig>, sts: seq<Status>, pool: Pool, stop: bool,
                       pre: Option<Hook>, post: Option<Hook>, sel: Result<Selection, RunnerError>)
    requires |sts| == |cfgs| && Fits(|cfgs|, sel)
    requires RunSelection(turn, cfgs, sts, pool, stop, pre, post, sel).result == Aborted
    ensures var e := RunSelection(turn, cfgs, sts, pool, stop, pre, post, sel);
            stop &&
            ((pre.Some? && !HookSucceeds(pre.value, pool) && e.trace == []) ||
             (e.trace != [] && Halts(cfgs, stop, e.trace[|e.trace| - 1])) ||
             (post.Some? && !HookSucceeds(post.value, e.pool)))
  {
    if sel.Ok? && sel.value.Span? {
      LoopStopsAtFirstHalt(turn, cfgs, sts, pool, stop, sel.value.lo, sel.value.hi, []);
    }
  }

  /** Phases outside the selected range keep their status. */
  lemma RunLeavesOtherPhases(turn: TurnFn, cfgs: seq<PhaseConfig>, sts: seq<Status>, pool: Pool, stop: bool,
                             pre: Option<Hook>, post: Option<Hook>, sel: Result<Selection, RunnerError>, j: nat)
    requires |sts| == |cfgs| && Fits(|cfgs|, sel) && j < |cfgs|
    requires !(sel.Ok? && sel.value.Span? && sel.value.lo <= j < sel.value.hi)
    ensures RunSelection(turn, cfgs, sts, pool, stop, pre, post, sel).statuses[j] == sts[j]
  {
    if sel.Ok? && sel.value.Span? {
      LoopExtendsTrace(turn, cfgs, sts, pool, stop, sel.value.lo, sel.value.hi, []);
      LoopTouchesOnlyExecuted(turn, cfgs, sts, pool, stop, sel.value.lo, sel.value.hi, [], j);
    }
  }

  /** Re-running `run_phases` with the same pool and bounds gives the same
      result, runs the same phases with the same outcomes and leaves the same
      pool, whatever the statuses left by an earlier run. */
  lemma RunIgnoresEarlierStatuses(turn: TurnFn, cfgs: seq<PhaseConfig>, sts1: seq<Status>, sts2: seq<Status>, pool: Pool,
                                  stop: bool, pre: Option<Hook>, post: Option<Hook>, sel: Result<Selection, RunnerError>)
    requires StatusBlind(turn)
    requires |sts1| == |sts2| == |cfgs| && Fits(|cfgs|, sel)
    ensures var e1, e2 := RunSelection(turn, cfgs, sts1, pool, stop, pre, post, sel),
                          RunSelection(turn, cfgs, sts2, pool, stop, pre, post, sel);
            e1.result == e2.result && e1.trace == e2.trace && e1.pool == e2.pool
  {
    if sel.Ok? && sel.value.Span? && !(pre.Some? && stop && !HookSucceeds(pre.value, pool)) {
      LoopIgnoresEarlierStatuses(turn, cfgs, sts1, sts2, pool, stop, sel.value.lo, sel.value.hi, []);
    }
  }

  /** Running `run_phases` again over the same pool, from the statuses the
      first run left, repeats that run exactly: same result, same steps, same
      statuses and same pool. */
  lemma RunRerunRepeats(turn: TurnFn, cfgs: seq<PhaseConfig>, sts: seq<Status>, pool: Pool, stop: bool,
                        pre: Option<Hook>, post: Option<Hook>, sel: Result<Selection, RunnerError>)
    requires StatusBlind(turn) && StatusSettles(turn)
    requires |sts| == |cfgs| && Fits(|cfgs|, sel)
    ensures var e := RunSelection(turn, cfgs, sts, pool, stop, pre, post, sel);
            RunSelection(turn, cfgs, e.statuses, pool, stop, pre, post, sel) == e
  {
    if sel.Ok? && sel.value.Span? && !(pre.Some? && stop && !HookSucceeds(pre.value, pool)) {
      var l := RunLoop(turn, cfgs, sts, pool, stop, sel.value.lo, sel.value.hi, []);
      LoopIgnoresEarlierStatuses(turn, cfgs, sts, l.statuses, pool, stop, sel.value.lo, sel.value.hi, []);
      LoopRerunKeepsStatuses(turn, cfgs, sts, l.statuses, pool, stop, sel.value.lo, sel.value.hi, []);
    }
  }

  /** The runner's own run: calling `run_phases` again with the pool it
      started from and the statuses it left gives the very same run. */
  lemma RunSpecRerunRepeats(cfgs: seq<PhaseConfig>, sts: seq<Status>, pool: Pool, stop: bool,
                            pre: Option<Hook>, post: Option<Hook>, first: Option<string>, last: Option<string>)
    requires |sts| == |cfgs|
    ensures var e := RunSpec(PhaseTurn, cfgs, sts, pool, stop, pre, post, first, last);
            RunSpec(PhaseTurn, cfgs, e.statuses, pool, stop, pre, post, first, last) == e
  {
    PhaseTurnIsStatusBlind();
    PhaseTurnSettles();
    RunRerunRepeats(PhaseTurn, cfgs, sts, pool, stop, pre, post, Resolve(Names(cfgs), first, last));
  }
}
