/** The phase runner (`PhaseRunner` in phaserunner.py): an append-only list of
    phases sharing one argument pool, sub-range resolution by phase name, the
    optional `pre_run`/`post_run` hooks and the two-level stop-on-failure rule. */
module Runner {
  import opened Common
  import opened Phases

  /** The exceptions that `add_phase` and `run_phases` let escape. */
  datatype RunnerError =
    | DuplicatePhase(name: string)                                  // line 132
    | FirstPhaseNotFound(name: string)                              // line 199
    | LastBeforeFirst(first: Option<string>, last: Option<string>)  // line 203
    | NoPhaseAt(index: nat)   // `self._phases[first_index]` past the end (line 204)
    | NotIterable             // `for phase in phases` over a single phase (line 229)

  /** What `_get_phases` returns: a slice `[lo:hi]`, or a single phase when the
      two indexes coincide (line 204). */
  datatype Selection = Span(lo: nat, hi: nat) | Single(index: nat)

  /** A `pre_run` or `post_run` hook; it may look at the pool. */
  type Hook = Pool -> Outcome

  /** What `run_phases` does at its end: `return False`, fall off the end
      (`None`), or raise. */
  datatype RunResult = Aborted | Completed | Raised(error: RunnerError)

  /** One phase executed by `run_phases`, with whether it counted as a success. */
  datatype Step = Step(index: nat, success: bool)

  datatype LoopEnd = LoopEnd(aborted: bool, statuses: seq<Status>, pool: Pool, trace: seq<Step>)

  datatype RunEnd = RunEnd(result: RunResult, statuses: seq<Status>, pool: Pool, trace: seq<Step>)

  function Names(cfgs: seq<PhaseConfig>): (r: seq<string>)
    ensures |r| == |cfgs|
    ensures forall i :: 0 <= i < |cfgs| ==> r[i] == cfgs[i].name
  {
    seq(|cfgs|, i requires 0 <= i < |cfgs| => cfgs[i].name)
  }

  /** `_get_phase_index` as a value: the first case-insensitive match, or -1. */
  function PhaseIndex(names: seq<string>, name: string): (r: int)
    ensures -1 <= r < |names|
    ensures r == -1 <==> forall j :: 0 <= j < |names| ==> !SameName(names[j], name)
    ensures r >= 0 ==> SameName(names[r], name) && forall j :: 0 <= j < r ==> !SameName(names[j], name)
  {
    match FirstMatch(names, name)
    case None => -1
    case Some(k) => k
  }

  /** A selection within n phases: a non-empty span, or one existing phase. */
  predicate Fits(n: nat, sel: Result<Selection, RunnerError>)
  {
    sel.Ok? ==> (sel.value.Span? ==> sel.value.lo < sel.value.hi <= n) && (sel.value.Single? ==> sel.value.index < n)
  }

  /** `_get_phases` (lines 194-204) over the list of phase names. */
  function Resolve(names: seq<string>, first: Option<string>, last: Option<string>): (r: Result<Selection, RunnerError>)
    ensures Fits(|names|, r)
  {
    var firstIndex := if first.None? then 0 else PhaseIndex(names, first.value);
    var lastIndex := if last.None? then |names| else PhaseIndex(names, last.value) + 1;
    SelectionOf(firstIndex, lastIndex, |names|, first, last)
  }

  /** Lines 198-204 once both indexes are known, over n phases. */
  function SelectionOf(firstIndex: int, lastIndex: int, n: nat, first: Option<string>, last: Option<string>)
    : (r: Result<Selection, RunnerError>)
    requires -1 <= firstIndex <= n && 0 <= lastIndex <= n && (firstIndex == -1 ==> first.Some?)
    ensures Fits(n, r)
  {
    // lastIndex is never -1, so the check of lines 200-201 never fires
    if firstIndex == -1 then Err(FirstPhaseNotFound(first.value))
    else if lastIndex < firstIndex then Err(LastBeforeFirst(first, last))
    else if lastIndex > firstIndex then Ok(Span(firstIndex, lastIndex))
    else if firstIndex < n then Ok(Single(firstIndex))
    else Err(NoPhaseAt(firstIndex))
  }

  /** `first_phase or self._first_phase` (lines 208-209): an explicit, non-empty
      bound wins over the stored one. */
  function Prefer(given: Option<string>, stored: Option<string>): (r: Option<string>)
    ensures r == given || r == stored
  {
    if given.Some? && given.value != "" then given else stored
  }

  /** A hook call inside `try`: raising counts as failure, otherwise the truth
      value of what it returned. */
  predicate HookSucceeds(h: Hook, pool: Pool)
  {
    match h(pool)
    case Raises => false
    case Returns(v) => Truthy(v)
  }

  /** `success = phase.run()`, with an escaping exception counted as `False`. */
  predicate Succeeded(r: Result<bool, PhaseError>)
  {
    r.Ok? && r.value
  }

  /** The abort test of line 240 applied to one executed phase. */
  predicate Halts(cfgs: seq<PhaseConfig>, stop: bool, s: Step)
  {
    s.index < |cfgs| && !s.success && stop && cfgs[s.index].stopOnFail
  }

  /** What the loop needs from one phase run: whether it counted as a success,
      the phase's new status and the new pool. */
  datatype Turn = Turn(success: bool, status: Status, pool: Pool)

  /** How one phase runs, as seen by the loop of `run_phases`. */
  type TurnFn = (PhaseConfig, Pool, Status) -> Turn

  /** Lines 232-236: `phase.run()` on the runner's pool, an escaping exception
      counting as failure. */
  function PhaseTurn(c: PhaseConfig, pool: Pool, status: Status): (t: Turn)
    ensures t.success ==> t.status == Passed
  {
    var o := Execute(c, Some(pool), status);
    Turn(Succeeded(o.result), o.status, o.pool.value)
  }

  /** The phase loop of lines 229-245 from phase i up to (excluding) hi, given
      the steps already taken; `turn` says how one phase runs. */
  function RunLoop(turn: TurnFn, cfgs: seq<PhaseConfig>, sts: seq<Status>, pool: Pool, stop: bool,
                   i: nat, hi: nat, trace: seq<Step>): (e: LoopEnd)
    requires |sts| == |cfgs| && hi <= |cfgs|
    ensures |e.statuses| == |cfgs|
    decreases hi - i
  {
    if i >= hi then LoopEnd(false, sts, pool, trace)
    else
      var t := turn(cfgs[i], pool, sts[i]);
      var step := Step(i, t.success);
      if Halts(cfgs, stop, step) then LoopEnd(true, sts[i := t.status], t.pool, trace + [step])
      else RunLoop(turn, cfgs, sts[i := t.status], t.pool, stop, i + 1, hi, trace + [step])
  }

  /** One turn of the phase loop, given what running phase i gave. */
  lemma RunLoopUnfold(turn: TurnFn, cfgs: seq<PhaseConfig>, sts: seq<Status>, pool: Pool, stop: bool,
                      i: nat, hi: nat, trace: seq<Step>, t: Turn)
    requires |sts| == |cfgs| && i < hi <= |cfgs|
    requires t == turn(cfgs[i], pool, sts[i])
    ensures RunLoop(turn, cfgs, sts, pool, stop, i, hi, trace) ==
            if Halts(cfgs, stop, Step(i, t.success)) then LoopEnd(true, sts[i := t.status], t.pool, trace + [Step(i, t.success)])
            else RunLoop(turn, cfgs, sts[i := t.status], t.pool, stop, i + 1, hi, trace + [Step(i, t.success)])
  {
  }

  /** The whole of `run_phases` (lines 206-262) once its bounds are chosen. */
  function RunSpec(turn: TurnFn, cfgs: seq<PhaseConfig>, sts: seq<Status>, pool: Pool, stop: bool,
                   pre: Option<Hook>, post: Option<Hook>,
                   first: Option<string>, last: Option<string>): (e: RunEnd)
    requires |sts| == |cfgs|
    ensures |e.statuses| == |cfgs|
  {
    RunSelection(turn, cfgs, sts, pool, stop, pre, post, Resolve(Names(cfgs), first, last))
  }

  /** Lines 211-262: what `run_phases` does with the answer `sel` of `_get_phases`. */
  function RunSelection(turn: TurnFn, cfgs: seq<PhaseConfig>, sts: seq<Status>, pool: Pool, stop: bool,
                        pre: Option<Hook>, post: Option<Hook>, sel: Result<Selection, RunnerError>): (e: RunEnd)
    requires |sts| == |cfgs| && Fits(|cfgs|, sel)
    ensures |e.statuses| == |cfgs|
  {
    match sel
    case Err(err) => RunEnd(Raised(err), sts, pool, [])
    case Ok(sel) =>
      if pre.Some? && stop && !HookSucceeds(pre.value, pool) then RunEnd(Aborted, sts, pool, [])
      else if sel.Single? then RunEnd(Raised(NotIterable), sts, pool, [])
      else
        AfterLoop(RunLoop(turn, cfgs, sts, pool, stop, sel.lo, sel.hi, []), stop, post)
  }

  /** A run whose bounds resolve to a span and whose `pre_run` lets it go on is
      the phase loop over that span followed by `post_run`. */
  lemma RunSpecOfSpan(turn: TurnFn, cfgs: seq<PhaseConfig>, sts: seq<Status>, pool: Pool, stop: bool,
                      pre: Option<Hook>, post: Option<Hook>, first: Option<string>, last: Option<string>, lo: nat, hi: nat)
    requires |sts| == |cfgs| && Resolve(Names(cfgs), first, last) == Ok(Span(lo, hi))
    requires !(pre.Some? && stop && !HookSucceeds(pre.value, pool))
    ensures hi <= |cfgs|
    ensures RunSpec(turn, cfgs, sts, pool, stop, pre, post, first, last) ==
            AfterLoop(RunLoop(turn, cfgs, sts, pool, stop, lo, hi, []), stop, post)
  {
  }

  /** Lines 246-262: a loop that did not abort can still end in `False` when
      `post_run` fails and the runner's `stop_on_fail` is set. */
  function AfterLoop(l: LoopEnd, stop: bool, post: Option<Hook>): (e: RunEnd)
    ensures e.statuses == l.statuses && e.pool == l.pool && e.trace == l.trace
    ensures e.result == Aborted || e.result == Completed
    ensures l.aborted ==> e.result == Aborted
  {
    if l.aborted then RunEnd(Aborted, l.statuses, l.pool, l.trace)
    else if post.Some? && stop && !HookSucceeds(post.value, l.pool) then RunEnd(Aborted, l.statuses, l.pool, l.trace)
    else RunEnd(Completed, l.statuses, l.pool, l.trace)
  }

  /** `kwargs.get("stop_on_fail") or True` (line 110), as a truth value. */
  function InitialStopOnFail(kwargs: Pool): (r: bool)
    ensures r
  {
    ("stop_on_fail" in kwargs && Truthy(kwargs["stop_on_fail"])) || true
  }

  /** A string command-line value counts when it is given and non-empty. */
  predicate Given(s: Option<string>)
  {
    s.Some? && s.value != ""
  }

  /** The last position of `p` in `ps`, or -1: a left inverse of indexing
      exactly when no phase object occurs twice. */
  ghost function IndexOf(ps: seq<Phase>, p: Phase): (r: int)
    ensures -1 <= r < |ps| && (r >= 0 ==> ps[r] == p)
  {
    if ps == [] then -1
    else if ps[|ps| - 1] == p then |ps| - 1
    else IndexOf(ps[..|ps| - 1], p)
  }

  lemma IndexOfAppend(ps: seq<Phase>, q: Phase, p: Phase)
    ensures IndexOf(ps + [q], p) == if p == q then |ps| else IndexOf(ps, p)
  {
    assert (ps + [q])[..|ps|] == ps;
  }

  class PhaseRunner {
    var phases: seq<Phase>
    const pool: ArgPool
    var stopOnFail: bool
    var firstPhase: Option<string>
    var lastPhase: Option<string>
    /** The hooks a subclass defines; `None` where `hasattr` would be false. */
    const preRun: Option<Hook>
    const postRun: Option<Hook>

    /** Every phase writes into the runner's own pool, and no phase object
        occurs twice in the list: each phase's position is the one `IndexOf`
        finds for it. */
    ghost predicate Linked()
      reads this
    {
      forall i :: 0 <= i < |phases| ==> phases[i].pool == pool && IndexOf(phases, phases[i]) == i
    }

    /** The phases are linked to the runner and no exact-case name occurs twice. */
    ghost predicate Valid()
      reads this
    {
      Linked() && forall i, j :: 0 <= i < j < |phases| ==> phases[i].name != phases[j].name
    }

    function Configs(): (r: seq<PhaseConfig>)
      reads this
      ensures |r| == |phases| && forall i :: 0 <= i < |phases| ==> r[i] == phases[i].Config()
    {
      var ps := phases;
      seq(|ps|, i requires 0 <= i < |ps| => ps[i].Config())
    }

    ghost function Statuses(): (r: seq<Status>)
      reads this, phases
      ensures |r| == |phases| && forall i :: 0 <= i < |phases| ==> r[i] == phases[i].status
    {
      var ps := phases;
      seq(|ps|, i requires 0 <= i < |ps| reads ps => ps[i].status)
    }

    /** `__init__` (lines 107-113): every keyword argument, `stop_on_fail`
        included, seeds the pool, and the runner stops on failure. */
    constructor (kwargs: Pool, preRun: Option<Hook>, postRun: Option<Hook>)
      ensures Valid() && fresh(pool)
      ensures phases == [] && pool.entries == kwargs
      ensures stopOnFail == InitialStopOnFail(kwargs) == true
      ensures firstPhase == None && lastPhase == None
      ensures this.preRun == preRun && this.postRun == postRun
    {
      phases := [];
      pool := new ArgPool(kwargs);
      stopOnFail := InitialStopOnFail(kwargs);
      firstPhase, lastPhase := None, None;
      this.preRun, this.postRun := preRun, postRun;
    }

    /** `phase_list` (lines 141-143). */
    function PhaseList(): (r: seq<string>)
      reads this
      ensures |r| == |phases| && forall i :: 0 <= i < |phases| ==> r[i] == phases[i].name
    {
      Names(Configs())
    }

    /** `phase_exists` (lines 145-147): an exact-case comparison. */
    predicate PhaseExists(name: string)
      reads this
    {
      name in PhaseList()
    }

    /** `add_phase` (lines 115-132). */
    method AddPhase(name: string, work: Work, required: seq<string>, optional: seq<string>,
                    outputs: seq<string>, stopOnFail: Option<bool>)
      returns (err: Option<RunnerError>)
      requires Valid()
      modifies this`phases
      ensures Valid()
      ensures old(PhaseExists(name)) <==> (exists i :: 0 <= i < |old(phases)| && old(phases)[i].name == name)
      ensures old(PhaseExists(name)) ==> err == Some(DuplicatePhase(name)) && phases == old(phases)
      ensures !old(PhaseExists(name)) ==>
                err == None && |phases| == |old(phases)| + 1 && phases[..|old(phases)|] == old(phases) &&
                fresh(phases[|old(phases)|]) && phases[|old(phases)|].status == NotRun &&
                phases[|old(phases)|].Config() ==
                  PhaseConfig(name, work, required, optional, outputs,
                              if stopOnFail.Some? then stopOnFail.value else this.stopOnFail)
    {
      if PhaseExists(name) {
        return Some(DuplicatePhase(name));
      }
      var stop := if stopOnFail.Some? then stopOnFail.value else this.stopOnFail;
      var p := new Phase(name, work, required, optional, outputs, pool, stop);
      phases := phases + [p];
      assert phases[..|old(phases)|] == old(phases);
      forall i | 0 <= i < |phases|
        ensures IndexOf(phases, phases[i]) == i
      {
        IndexOfAppend(old(phases), p, phases[i]);
      }
      return None;
    }

    /** The `args` setter (lines 137-139): `update` on the shared pool. */
    method SetArgs(newArgs: Pool)
      modifies pool
      ensures pool.entries == old(pool.entries) + newArgs
      ensures forall k :: k in newArgs ==> k in pool.entries && pool.entries[k] == newArgs[k]
      ensures forall k :: k !in newArgs ==> (k in pool.entries <==> k in old(pool.entries))
      ensures forall k :: k !in newArgs && k in old(pool.entries) ==> pool.entries[k] == old(pool.entries)[k]
    {
      pool.entries := pool.entries + newArgs;
    }

    /** The `stop_on_fail` setter (lines 183-184). */
    method SetStopOnFail(value: bool)
      modifies this`stopOnFail
      ensures stopOnFail == value
    {
      stopOnFail := value;
    }

    /** The bound set-up of `cli_parse_args` (lines 170-175): `--exact` sets both bounds. */
    method SetPhaseBounds(startwith: Option<string>, endwith: Option<string>, exact: Option<string>)
      modifies this`firstPhase, this`lastPhase
      ensures firstPhase == (if Given(exact) then exact else if Given(startwith) then startwith else old(firstPhase))
      ensures lastPhase == (if Given(exact) then exact else if Given(endwith) then endwith else old(lastPhase))
    {
      if Given(startwith) {
        firstPhase := startwith;
      }
      if Given(endwith) {
        lastPhase := endwith;
      }
      if Given(exact) {
        firstPhase, lastPhase := exact, exact;
      }
    }

    /** `_get_phase_index` (lines 186-192): a linear search that stops at the
        first case-insensitive match. */
    method GetPhaseIndex(name: string) returns (index: int)
      ensures -1 <= index < |phases|
      ensures index >= 0 ==> SameName(phases[index].name, name)
      ensures index >= 0 ==> forall j :: 0 <= j < index ==> !SameName(phases[j].name, name)
      ensures index == -1 <==> forall j :: 0 <= j < |phases| ==> !SameName(phases[j].name, name)
      ensures index == PhaseIndex(PhaseList(), name)
    {
      index := -1;
      var k := 0;
      while k < |phases|
        invariant 0 <= k <= |phases|
        invariant forall j :: 0 <= j < k ==> !SameName(phases[j].name, name)
      {
        if SameName(phases[k].name, name) {
          index := k;
          break;
        }
        k := k + 1;
      }
    }

    /** `_get_phases` (lines 194-204). */
    method GetPhases(first: Option<string>, last: Option<string>) returns (r: Result<Selection, RunnerError>)
      ensures r == Resolve(PhaseList(), first, last)
    {
      ghost var names := PhaseList();
      var firstIndex := 0;
      if first.Some? {
        firstIndex := GetPhaseIndex(first.value);
      }
      var lastIndex := |phases|;
      if last.Some? {
        lastIndex := GetPhaseIndex(last.value);
        lastIndex := lastIndex + 1;
      }
      assert firstIndex == if first.None? then 0 else PhaseIndex(names, first.value);
      assert lastIndex == if last.None? then |names| else PhaseIndex(names, last.value) + 1;
      assert Resolve(names, first, last) == SelectionOf(firstIndex, lastIndex, |phases|, first, last);
      if firstIndex == -1 {
        return Err(FirstPhaseNotFound(first.value));
      }
      if lastIndex < firstIndex {
        return Err(LastBeforeFirst(first, last));
      }
      if lastIndex > firstIndex {
        return Ok(Span(firstIndex, lastIndex));
      }
      if firstIndex < |phases| {
        return Ok(Single(firstIndex));
      }
      return Err(NoPhaseAt(firstIndex));
    }

    /** `run_phases` (lines 206-262): the explicit bounds win over the stored
        ones; phases of the range run in order, each reading and writing the
        shared pool. */
    method RunPhases(first: Option<string>, last: Option<string>) returns (r: RunResult, ghost trace: seq<Step>)
      requires Valid()
      modifies pool, phases
      ensures Valid() && unchanged(this)
      ensures var e := RunSpec(PhaseTurn, old(Configs()), old(Statuses()), old(pool.entries), stopOnFail, preRun, postRun,
                               Prefer(first, firstPhase), Prefer(last, lastPhase));
              r == e.result && Statuses() == e.statuses && pool.entries == e.pool && trace == e.trace
    {
      trace := [];
      var sel := GetPhases(Prefer(first, firstPhase), Prefer(last, lastPhase));
      if sel.Err? {
        return Raised(sel.error), trace;
      }
      if preRun.Some? {
        var success := HookSucceeds(preRun.value, pool.entries);
        if stopOnFail && !success {
          return Aborted, trace;
        }
      }
      if sel.value.Single? {
        return Raised(NotIterable), trace;
      }
      RunSpecOfSpan(PhaseTurn, Configs(), Statuses(), pool.entries, stopOnFail, preRun, postRun,
                    Prefer(first, firstPhase), Prefer(last, lastPhase), sel.value.lo, sel.value.hi);
      r, trace := RunSpan(sel.value.lo, sel.value.hi);
    }

    /** Lines 229-262 once the range is known: the phase loop, then `post_run`. */
    method RunSpan(lo: nat, hi: nat) returns (r: RunResult, ghost trace: seq<Step>)
      requires Linked() && lo <= hi <= |phases|
      modifies pool, phases
      ensures unchanged(this)
      ensures var e := AfterLoop(RunLoop(PhaseTurn, old(Configs()), old(Statuses()), old(pool.entries), stopOnFail, lo, hi, []),
                                 stopOnFail, postRun);
              r == e.result && Statuses() == e.statuses && pool.entries == e.pool && trace == e.trace
    {
      var aborted;
      aborted, trace := RunRange(lo, hi);
      if aborted {
        return Aborted, trace;
      }
      if postRun.Some? {
        var success := HookSucceeds(postRun.value, pool.entries);
        if stopOnFail && !success {
          return Aborted, trace;
        }
      }
      return Completed, trace;
    }

    /** The phase loop of `run_phases` (lines 229-245): a raising phase counts as
        failed, and a failure stops the loop exactly when both the runner's and
        the phase's `stop_on_fail` are set. */
    method RunRange(lo: nat, hi: nat) returns (aborted: bool, ghost trace: seq<Step>)
      requires Linked() && lo <= hi <= |phases|
      modifies pool, phases
      ensures unchanged(this)
      ensures var e := RunLoop(PhaseTurn, old(Configs()), old(Statuses()), old(pool.entries), stopOnFail, lo, hi, []);
              aborted == e.aborted && Statuses() == e.statuses && pool.entries == e.pool && trace == e.trace
    {
      ghost var cfgs, stop := Configs(), stopOnFail;
      ghost var end := RunLoop(PhaseTurn, cfgs, Statuses(), pool.entries, stop, lo, hi, []);
      ghost var sts, entries := Statuses(), pool.entries;
      aborted, trace := false, [];
      var i := lo;
      while i < hi && !aborted
        invariant lo <= i <= hi
        invariant unchanged(this) && |sts| == |cfgs|
        invariant sts == Statuses() && entries == pool.entries
        invariant end == if aborted then LoopEnd(true, sts, entries, trace)
                         else RunLoop(PhaseTurn, cfgs, sts, entries, stop, i, hi, trace)
      {
        ghost var t := PhaseTurn(cfgs[i], entries, sts[i]);
        RunLoopUnfold(PhaseTurn, cfgs, sts, entries, stop, i, hi, trace, t);
        var success;
        success, aborted := RunStep(i);
        assert success == t.success && Statuses() == sts[i := t.status] && pool.entries == t.pool;
        sts, entries := sts[i := t.status], t.pool;
        trace := trace + [Step(i, success)];
        i := i + 1;
      }
    }

    /** One turn of the phase loop (lines 232-236): run phase i, counting an
        escaping exception as failure. */
    method RunStep(i: nat) returns (success: bool, halt: bool)
      requires Linked() && i < |phases|
      modifies pool, phases[i]
      ensures unchanged(this)
      ensures var t := PhaseTurn(Configs()[i], old(pool.entries), old(Statuses())[i]);
              success == t.success && Statuses() == old(Statuses())[i := t.status] && pool.entries == t.pool
      ensures halt == Halts(old(Configs()), stopOnFail, Step(i, success))
    {
      var phase := phases[i];
      ghost var stsBefore := Statuses();
      var res := phase.Run();
      assert Statuses() == stsBefore[i := phase.status] by {
        forall j | 0 <= j < |phases| && j != i
          ensures phases[j].status == stsBefore[j]
        {
          assert phases[j] != phase;
        }
      }
      success := res.Ok? && res.value;
      halt := !success && stopOnFail && phase.stopOnFail;
    }
  }
}
