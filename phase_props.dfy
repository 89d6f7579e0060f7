/** What one `PhaseRunnerPhase.run` promises, proved about `Phases.Execute`. */
module PhaseProps {
  import opened Common
  import opened Phases

  /** A missing required argument makes `run` raise, naming every missing
      argument in declared order; status and pool stay as they were, and the
      work function is never called: any other work function gives the same outcome. */
  lemma MissingRequiredRaises(c: PhaseConfig, pool: Pool, status: Status, other: Work)
    requires exists r :: r in c.required && r !in pool
    ensures var o := Execute(c, Some(pool), status);
            o.result.Err? && o.result.error.MissingRequired? &&
            o.result.error.missing == Missing(c.required, pool) &&
            (forall x :: x in o.result.error.missing <==> x in c.required && x !in pool) &&
            o.status == status && o.pool == Some(pool)
    ensures Execute(c.(work := other), Some(pool), status) == Execute(c, Some(pool), status)
  {
    MissingIsAbsent(c.required, pool);
    var r :| r in c.required && r !in pool;
    assert r in Missing(c.required, pool);
  }

  /** The work function sees exactly the required arguments and those optional
      ones the pool holds, with the pool's values; with no pool it sees nothing.
      Two work functions that agree on that one argument map give the same run. */
  lemma CallSeesOnlyDeclaredArgs(c: PhaseConfig, pool: Option<Pool>, status: Status, other: Work)
    requires pool.Some? ==> Missing(c.required, pool.value) == []
    requires pool.Some? ==> other(CallArgs(pool.value, c.required, c.optional)) == c.work(CallArgs(pool.value, c.required, c.optional))
    requires pool.None? ==> other(map[]) == c.work(map[])
    ensures Execute(c.(work := other), pool, status) == Execute(c, pool, status)
    ensures pool.Some? ==> forall k :: k in CallArgs(pool.value, c.required, c.optional) <==>
              k in pool.value && (k in c.required || k in c.optional)
  {
  }

  /** A work function that returns nothing counts as `True`; a bare boolean is
      the status. Neither writes an output, and with declared outputs the run
      raises for want of them after the status has been recorded. */
  lemma NoneOrBoolProducesNoOutputs(c: PhaseConfig, pool: Option<Pool>, status: Status, b: bool)
    requires pool.Some? ==> Missing(c.required, pool.value) == []
    requires var args := if pool.Some? then CallArgs(pool.value, c.required, c.optional) else map[];
             c.work(args) == Returns(VNone) || c.work(args) == Returns(VBool(b))
    ensures var args := if pool.Some? then CallArgs(pool.value, c.required, c.optional) else map[];
            var s := if c.work(args) == Returns(VNone) then true else b;
            var o := Execute(c, pool, status);
            o.pool == pool &&
            o.status == (if s then Passed else Failed) &&
            o.result == (if c.outputs == [] then Ok(s) else Err(MissingOutputs(c.name)))
  {
  }

  /** A first returned element that is not a boolean makes `run` raise before
      the status is touched. */
  lemma NonBooleanStatusRaises(c: PhaseConfig, pool: Option<Pool>, status: Status, xs: seq<Value>)
    requires pool.Some? ==> Missing(c.required, pool.value) == []
    requires c.work(if pool.Some? then CallArgs(pool.value, c.required, c.optional) else map[]) == Returns(VList(xs))
    requires xs != [] && !xs[0].VBool?
    ensures Execute(c, pool, status) == RunOutcome(Err(StatusNotBool(c.name)), status, pool)
  {
  }

  /** With enough returned values every declared output is written, whatever
      the status, and the extra values are ignored; with no declared outputs
      the pool is left as it was. */
  lemma EnoughValuesWriteOutputs(c: PhaseConfig, pool: Pool, status: Status, b: bool, rest: seq<Value>)
    requires Missing(c.required, pool) == []
    requires c.work(CallArgs(pool, c.required, c.optional)) == Returns(VList([VBool(b)] + rest))
    requires |rest| >= |c.outputs|
    ensures var o := Execute(c, Some(pool), status);
            o.result == Ok(b) && o.status == (if b then Passed else Failed) &&
            o.pool == Some(WriteOutputs(pool, c.outputs, rest))
    ensures c.outputs == [] ==> Execute(c, Some(pool), status).pool == Some(pool)
  {
    assert ([VBool(b)] + rest)[1..] == rest;
  }

  /** With too few returned values `run` raises after recording the status; the pool is untouched. */
  lemma TooFewValuesKeepPool(c: PhaseConfig, pool: Option<Pool>, status: Status, b: bool, rest: seq<Value>)
    requires pool.Some? ==> Missing(c.required, pool.value) == []
    requires c.outputs != []
    requires c.work(if pool.Some? then CallArgs(pool.value, c.required, c.optional) else map[]) == Returns(VList([VBool(b)] + rest))
    requires |rest| < |c.outputs|
    ensures Execute(c, pool, status) == RunOutcome(Err(MissingOutputs(c.name)), if b then Passed else Failed, pool)
  {
  }

  /** `pool[outputs[i]] = vals[i]` holds for every output not written again later. */
  lemma {:induction false} WriteOutputsLastWins(pool: Pool, outputs: seq<string>, vals: seq<Value>, i: nat)
    requires |vals| >= |outputs| && i < |outputs|
    requires forall j :: i < j < |outputs| ==> outputs[j] != outputs[i]
    ensures outputs[i] in WriteOutputs(pool, outputs, vals) && WriteOutputs(pool, outputs, vals)[outputs[i]] == vals[i]
  {
    var n := |outputs| - 1;
    var prev := outputs[..n];
    assert WriteOutputs(pool, outputs, vals) == WriteOutputs(pool, prev, vals)[outputs[n] := vals[n]];
    if i < n {
      assert outputs[n] != outputs[i];
      assert forall j :: i < j < |prev| ==> prev[j] != prev[i];
      WriteOutputsLastWins(pool, prev, vals, i);
    }
  }

  /** With distinct output names, every output gets its own returned value. */
  lemma DistinctOutputsWritten(pool: Pool, outputs: seq<string>, vals: seq<Value>)
    requires |vals| >= |outputs|
    requires forall i, j :: 0 <= i < j < |outputs| ==> outputs[i] != outputs[j]
    ensures forall i :: 0 <= i < |outputs| ==>
              outputs[i] in WriteOutputs(pool, outputs, vals) && WriteOutputs(pool, outputs, vals)[outputs[i]] == vals[i]
  {
    forall i | 0 <= i < |outputs|
      ensures outputs[i] in WriteOutputs(pool, outputs, vals) && WriteOutputs(pool, outputs, vals)[outputs[i]] == vals[i]
    {
      WriteOutputsLastWins(pool, outputs, vals, i);
    }
  }

  /** A key that is not a declared output keeps its value (or its absence). */
  lemma {:induction false} WriteOutputsElsewhereUnchanged(pool: Pool, outputs: seq<string>, vals: seq<Value>, k: string)
    requires |vals| >= |outputs|
    requires k !in outputs
    ensures k in WriteOutputs(pool, outputs, vals) <==> k in pool
    ensures k in pool ==> WriteOutputs(pool, outputs, vals)[k] == pool[k]
  {
    if outputs != [] {
      var n := |outputs| - 1;
      assert k !in outputs[..n];
      WriteOutputsElsewhereUnchanged(pool, outputs[..n], vals, k);
    }
  }
}
