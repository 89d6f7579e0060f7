/** One phase of a run (`PhaseRunnerPhase` in phaserunner.py): it reads its
    arguments from the shared argument pool, calls its work function, turns the
    return value into a list headed by a boolean status and writes its declared
    outputs back into the pool by position. */
module Phases {
  import opened Common

  /** The Python values that travel through the argument pool and out of work functions. */
  datatype Value =
    | VNone
    | VBool(b: bool)
    | VInt(i: int)
    | VStr(s: string)
    | VList(items: seq<Value>)   // a list or a tuple

  /** Python 2 truth value, as used by `not success` and `x or y`. */
  predicate Truthy(v: Value)
  {
    match v
    case VNone => false
    case VBool(b) => b
    case VInt(i) => i != 0
    case VStr(s) => s != ""
    case VList(xs) => xs != []
  }

  /** The argument pool: argument name to value. */
  type Pool = map<string, Value>

  /** What one call of a work function or a hook does: raise, or return a value. */
  datatype Outcome = Raises | Returns(v: Value)

  /** A work function, called with keyword arguments taken from the pool. */
  type Work = map<string, Value> -> Outcome

  /** The last-run status of a phase: `None`, `True` or `False` in the source. */
  datatype Status = NotRun | Passed | Failed

  /** Everything of a phase that never changes after construction. */
  datatype PhaseConfig = PhaseConfig(
    name: string,
    work: Work,
    required: seq<string>,
    optional: seq<string>,
    outputs: seq<string>,
    stopOnFail: bool)

  /** The exceptions `run` lets escape. */
  datatype PhaseError =
    | MissingRequired(phase: string, missing: seq<string>)  // line 72
    | WorkRaised(phase: string)                             // the work function raised (line 82)
    | NoStatus(phase: string)        // `return_vals[0]` on an empty or unsubscriptable value (line 89)
    | StatusNotBool(phase: string)                          // line 90
    | MissingOutputs(phase: string)                         // line 98
    | NoPool(phase: string)          // outputs written into a `None` pool (line 101)

  /** The effect of one `run`: what it returns or raises, the new status and the new pool. */
  datatype RunOutcome = RunOutcome(result: Result<bool, PhaseError>, status: Status, pool: Option<Pool>)

  /** The required arguments absent from the pool, in declared order. */
  function Missing(required: seq<string>, pool: Pool): (r: seq<string>)
  {
    if required == [] then []
    else
      var n := |required| - 1;
      Missing(required[..n], pool) + (if required[n] in pool then [] else [required[n]])
  }

  /** `Missing` names every required argument absent from the pool and nothing else. */
  lemma {:induction false} MissingIsAbsent(required: seq<string>, pool: Pool)
    ensures forall x :: x in Missing(required, pool) <==> x in required && x !in pool
    ensures |Missing(required, pool)| <= |required|
  {
    if required != [] {
      var n := |required| - 1;
      MissingIsAbsent(required[..n], pool);
      assert required == required[..n] + [required[n]];
    }
  }

  /** The keyword arguments the work function receives once every required one is present. */
  function CallArgs(pool: Pool, required: seq<string>, optional: seq<string>): (r: map<string, Value>)
  {
    map k | k in pool && (k in required || k in optional) :: pool[k]
  }

  /** Lines 83-90: `None` becomes `[True]`, a bare boolean `b` becomes `[b]`, and
      the first element must then be a boolean. */
  function StatusList(name: string, v: Value): (r: Result<seq<Value>, PhaseError>)
    ensures r.Ok? ==> |r.value| >= 1 && r.value[0].VBool?
    ensures r.Ok? && v.VList? ==> r.value == v.items
    ensures v.VNone? ==> r == Ok([VBool(true)])
    ensures v.VBool? ==> r == Ok([v])
  {
    match v
    case VNone => Ok([VBool(true)])
    case VBool(b) => Ok([VBool(b)])
    case VList(xs) =>
      if xs == [] then Err(NoStatus(name))
      else if xs[0].VBool? then Ok(xs)
      else Err(StatusNotBool(name))
    case VStr(s) =>
      // `s[0]` is a one-character string, never a boolean
      if s == "" then Err(NoStatus(name)) else Err(StatusNotBool(name))
    case VInt(_) => Err(NoStatus(name))
  }

  /** Lines 100-101: `pool[outputs[i]] = vals[i]` for each i in turn, so a later
      output of the same name overwrites an earlier one. */
  function WriteOutputs(pool: Pool, outputs: seq<string>, vals: seq<Value>): (r: Pool)
    requires |vals| >= |outputs|
  {
    if outputs == [] then pool
    else
      var n := |outputs| - 1;
      WriteOutputs(pool, outputs[..n], vals)[outputs[n] := vals[n]]
  }

  /** Writing the outputs adds exactly the output names to the pool's keys. */
  lemma {:induction false} WriteOutputsKeys(pool: Pool, outputs: seq<string>, vals: seq<Value>)
    requires |vals| >= |outputs|
    ensures WriteOutputs(pool, outputs, vals).Keys == pool.Keys + set o | o in outputs
  {
    if outputs != [] {
      var n := |outputs| - 1;
      WriteOutputsKeys(pool, outputs[..n], vals);
      assert outputs == outputs[..n] + [outputs[n]];
    }
  }

  /** The whole of `run` (lines 60-103) on a value of the pool (`None` when the
      phase has no pool) and the phase's current status. */
  function Execute(c: PhaseConfig, pool: Option<Pool>, status: Status): (o: RunOutcome)
    ensures o.pool.Some? <==> pool.Some?
    ensures o.pool != pool ==> o.result.Ok?
  {
    var missing := if pool.Some? then Missing(c.required, pool.value) else [];
    if missing != [] then RunOutcome(Err(MissingRequired(c.name, missing)), status, pool)
    else
      var args := if pool.Some? then CallArgs(pool.value, c.required, c.optional) else map[];
      match c.work(args)
      case Raises => RunOutcome(Err(WorkRaised(c.name)), status, pool)
      case Returns(v) =>
        match StatusList(c.name, v)
        case Err(e) => RunOutcome(Err(e), status, pool)
        case Ok(vals) =>
          var st := if vals[0].b then Passed else Failed;
          if c.outputs == [] then RunOutcome(Ok(vals[0].b), st, pool)
          else if |vals| < |c.outputs| + 1 then RunOutcome(Err(MissingOutputs(c.name)), st, pool)
          else if pool.None? then RunOutcome(Err(NoPool(c.name)), st, pool)
          else RunOutcome(Ok(vals[0].b), st, Some(WriteOutputs(pool.value, c.outputs, vals[1..])))
  }

  /** Lines 64-77: collect the missing required arguments and, when none is
      missing, the keyword arguments for the call. */
  method BindArgs(pool: Pool, required: seq<string>, optional: seq<string>)
    returns (args: map<string, Value>, missing: seq<string>)
    ensures forall x :: x in missing <==> x in required && x !in pool
    ensures missing == Missing(required, pool)
    ensures missing == [] ==> forall k :: k in args <==> k in pool && (k in required || k in optional)
    ensures missing == [] ==> forall k :: k in args ==> args[k] == pool[k]
    ensures missing == [] ==> args == CallArgs(pool, required, optional)
  {
    args, missing := RequiredArgs(pool, required);
    MissingIsAbsent(required, pool);
    if |missing| > 0 {
      return;
    }
    args := AddOptionalArgs(pool, optional, args);
    assert args == CallArgs(pool, required, optional);
  }

  /** Lines 64-70: one pass over the required names. */
  method RequiredArgs(pool: Pool, required: seq<string>)
    returns (args: map<string, Value>, missing: seq<string>)
    ensures missing == Missing(required, pool)
    ensures forall k :: k in args <==> k in pool && k in required
    ensures forall k :: k in args ==> args[k] == pool[k]
  {
    args, missing := map[], [];
    var i := 0;
    while i < |required|
      invariant 0 <= i <= |required|
      invariant missing == Missing(required[..i], pool)
      invariant forall k :: k in args <==> k in pool && k in required[..i]
      invariant forall k :: k in args ==> args[k] == pool[k]
    {
      assert required[..i + 1][..i] == required[..i];
      var name := required[i];
      if name !in pool {
        missing := missing + [name];
      } else {
        args := args[name := pool[name]];
      }
      i := i + 1;
    }
    assert required[..i] == required;
  }

  /** Lines 74-77: an optional name is passed exactly when the pool holds it. */
  method AddOptionalArgs(pool: Pool, optional: seq<string>, given: map<string, Value>)
    returns (args: map<string, Value>)
    requires forall k :: k in given ==> k in pool && given[k] == pool[k]
    ensures forall k :: k in args <==> k in given || (k in pool && k in optional)
    ensures forall k :: k in args ==> args[k] == pool[k]
  {
    args := given;
    var j := 0;
    while j < |optional|
      invariant 0 <= j <= |optional|
      invariant forall k :: k in args <==> k in given || (k in pool && k in optional[..j])
      invariant forall k :: k in args ==> args[k] == pool[k]
    {
      var name := optional[j];
      if name in pool {
        args := args[name := pool[name]];
      }
      assert optional[..j + 1] == optional[..j] + [name];
      j := j + 1;
    }
    assert optional[..j] == optional;
  }

  /** A dictionary shared by reference: the runner and all its phases hold the same one. */
  class ArgPool {
    var entries: Pool

    constructor (entries: Pool)
      ensures this.entries == entries
    {
      this.entries := entries;
    }
  }

  class Phase {
    const name: string
    const work: Work
    const required: seq<string>
    const optional: seq<string>
    const outputs: seq<string>
    const pool: ArgPool?
    const stopOnFail: bool
    var status: Status

    /** `PhaseRunnerPhase.__init__` (lines 15-34): no status yet. */
    constructor (name: string, work: Work, required: seq<string>, optional: seq<string>,
                 outputs: seq<string>, pool: ArgPool?, stopOnFail: bool)
      ensures Config() == PhaseConfig(name, work, required, optional, outputs, stopOnFail)
      ensures this.pool == pool && status == NotRun
    {
      this.name := name;
      this.work := work;
      this.required := required;
      this.optional := optional;
      this.outputs := outputs;
      this.pool := pool;
      this.stopOnFail := stopOnFail;
      this.status := NotRun;
    }

    function Config(): PhaseConfig
    {
      PhaseConfig(name, work, required, optional, outputs, stopOnFail)
    }

    ghost function PoolValue(): Option<Pool>
      reads pool
    {
      if pool == null then None else Some(pool.entries)
    }

    /** `run` (lines 53-103): the status is recorded before the output count is
        checked, so a phase that returns too few values has a new status and an
        unchanged pool. */
    method Run() returns (r: Result<bool, PhaseError>)
      modifies this, pool
      ensures var o := Execute(Config(), old(PoolValue()), old(status));
              r == o.result && status == o.status && PoolValue() == o.pool
    {
      var args: map<string, Value> := map[];
      if pool != null {
        var missing;
        args, missing := BindArgs(pool.entries, required, optional);
        if |missing| > 0 {
          return Err(MissingRequired(name, missing));
        }
      }
      var returned := work(args);
      if returned.Raises? {
        return Err(WorkRaised(name));
      }
      var vals;
      match StatusList(name, returned.v)
      case Err(e) =>
        return Err(e);
      case Ok(vs) =>
        vals := vs;
      status := if vals[0].b then Passed else Failed;
      if outputs != [] {
        if |vals| < |outputs| + 1 {
          return Err(MissingOutputs(name));
        }
        if pool == null {
          return Err(NoPool(name));
        }
        ghost var before := pool.entries;
        var i := 0;
        while i < |outputs|
          invariant 0 <= i <= |outputs|
          invariant pool.entries == WriteOutputs(before, outputs[..i], vals[1..])
          invariant status == (if vals[0].b then Passed else Failed)
        {
          assert outputs[..i + 1][..i] == outputs[..i];
          pool.entries := pool.entries[outputs[i] := vals[i + 1]];
          i := i + 1;
        }
        assert outputs[..i] == outputs;
      }
      return Ok(vals[0].b);
    }
  }
}
