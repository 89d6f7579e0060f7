# phaserunner in Dafny

A model of the phase runner of `phaserunner.py` and of the named-slice
utility in `snippets/named_slices.py`, with proofs of what both promise.

A **phase runner** holds an append-only list of named **phases**. All of them
share one **argument pool**, a dictionary from argument name to value.

Running a phase does four things:
- It reads its required and optional arguments from the pool.
- It calls its work function with them.
- It turns what the function returns into a list headed by a boolean status.
- It writes its declared outputs back into the pool by position.

`run_phases` works in three stages:
- It picks a sub-range of the phases by name. Names match up to ASCII case, and the last-named phase is included.
- It calls the optional `pre_run` hook, the phases in order, and then the optional `post_run` hook.
- It stops early under a two-level stop-on-failure rule. A failed phase stops the run only when both the runner's and the phase's `stop_on_fail` are set. A failed hook stops it whenever the runner's flag is set.

The **named indexes** are a list of named items. They can be indexed by position, by name (first case-insensitive match), or by a slice whose bounds may be names. A named stop bound is end-inclusive.

Layout, one module per file:
- `common.dfy` (`Common`): `Option`, `Result`, Python 2 ASCII `lower()` and the first-match search both lookups use.
- `phases.dfy` (`Phases`): Python values, the pool, `Execute` (the meaning of one `run`), and the classes `ArgPool` and `Phase`. The `Phase.Run` method is proved against `Execute`.
- `phase_props.dfy` (`PhaseProps`): what one `run` promises, as lemmas about `Execute`.
- `runner.dfy` (`Runner`): `Resolve` (`_get_phases`), `RunLoop`, `RunSelection` and `RunSpec` (`run_phases`), and the class `PhaseRunner`. Its methods are proved against those functions.
  - The loop functions take a `TurnFn`, a function saying how one phase runs. The runner's methods use `PhaseTurn`, which is `Execute` with an escaping exception counted as failure.
  - `PhaseTurn` never looks at a phase's earlier status when deciding success or the new pool (`PhaseTurnIsStatusBlind`). The lemmas about the loop hold for any turn function, or for any status-blind one.
  - `PhaseRunner.Linked` says every phase holds the runner's own pool and no phase object occurs twice. `PhaseRunner.Valid` adds that no name occurs twice with the same spelling, which `add_phase` guarantees.
- `runner_props.dfy` (`RunnerProps`): lemmas about range resolution, the phase loop and whole runs. Among them: a phase run again from the status it left ends in that status (`PhaseTurnSettles`), so calling `run_phases` again from the state a run left, over the pool it started from, repeats that run (`RunSpecRerunRepeats`).
- `demo.dfy` (`Demo`): the demonstration at the end of `phaserunner.py`. One runner of five phases runs three times, each run starting from the statuses and pool the previous one left: all phases with `stop_on_fail` off, all phases with it on, then the range B to D.
- `named_slices.dfy` (`NamedSlices`) and `named_slice_props.dfy` (`NamedSliceProps`): the class `NamedIndexes`, its specification `Select` and lemmas about it.

How things are modelled:
- Work functions and hooks are function values from the keyword arguments (a hook: the pool) to an `Outcome`, either `Raises` or `Returns(v)`.
- A runner subclass's `pre_run`/`post_run` become optional hooks given to the constructor, standing in for `hasattr`.
- The pool is an `ArgPool` object that the runner and each of its phases reference, so a phase's writes are seen by the next phase.
- `run_phases` returns `Aborted` where the source returns `False`, and `Completed` where it falls off the end and returns `None`. `Raised(e)` stands for an exception that escapes.

Quirks of the code that the model keeps:
- The duplicate-phase test of `add_phase` compares names exactly (`phase_name in self.phase_list`). Only the range lookup ignores case. So `"a"` and `"A"` can both be registered.
- An unknown last phase does not raise. `_get_phase_index` gives -1, so the last index becomes 0. The result is a single phase or a range error (`ResolveUnknownLast`); the `last_index == -1` check never fires.
- When the two indexes coincide, `_get_phases` returns a single phase object instead of a list. `run_phases` then fails iterating it, after `pre_run` (`SinglePhaseSelectionRaises`).
- `run_phases` never returns `True`.
- The runner's `stop_on_fail` starts as `True` whatever keyword is passed (`kwargs.get("stop_on_fail") or True`). Every keyword, `stop_on_fail` included, also seeds the pool.

## Model

| member | source | states |
|---|---|---|
| Common.LowerChar | phaserunner.py:189 | Python 2 `lower()` on one byte: no capital remains, and only a capital changes |
| Common.Lower | phaserunner.py:189 | `lower()` on a byte string: each character lower-cased as by `LowerChar`, the length kept |
| Common.SameName | snippets/named_slices.py:30 | the name comparison `a.lower() == b.lower()` of both lookups (also `phaserunner.py:189`) |
| Common.FirstMatch | snippets/named_slices.py:27-32 | the result is the position of the first name equal up to ASCII case, none before it matches, and it is absent exactly when no name matches |
| Phases.MissingIsAbsent | phaserunner.py:64-70 | the missing list holds exactly the required names absent from the pool, and is no longer than the required list |
| Phases.Missing | phaserunner.py:64-68 | the required arguments absent from the pool, in declared order (its meaning is proved by `MissingIsAbsent`) |
| Phases.CallArgs | phaserunner.py:60-77 | the keyword arguments of the call: each required or optional name the pool holds, with the pool's value (`BindArgs` is proved to build exactly this map) |
| Phases.StatusList | phaserunner.py:83-90 | `None` becomes `[True]`, a bare boolean `b` becomes `[b]`, a list is kept; any accepted result starts with a boolean |
| Phases.WriteOutputs | phaserunner.py:100-101 | the pool after `pool[outputs[i]] = vals[i]` for each i in turn (its effect is stated by `WriteOutputsKeys`, `WriteOutputsLastWins`, `DistinctOutputsWritten` and `WriteOutputsElsewhereUnchanged`) |
| Phases.WriteOutputsKeys | phaserunner.py:100-101 | writing the outputs adds exactly the output names to the pool's keys |
| Phases.Truthy | phaserunner.py:221 | Python 2 truth value: `None`, `False`, 0, the empty string and the empty list are false, which `not success` at lines 221 and 256 relies on |
| Phases.Execute | phaserunner.py:53-103 | a run keeps a pool present or absent, and leaves it unchanged unless it returns normally |
| Phases.BindArgs | phaserunner.py:60-77 | the missing list names exactly the absent required arguments; with none missing the call receives exactly the required and optional names present in the pool, with the pool's values |
| Phases.RequiredArgs | phaserunner.py:63-70 | one pass over the required names collects the missing ones in order and the present ones with their values |
| Phases.AddOptionalArgs | phaserunner.py:74-77 | an optional argument is added exactly when the pool holds it, with the pool's value |
| Phases.Phase.constructor | phaserunner.py:15-34 | a new phase keeps its name, function, argument lists, outputs, pool and flag, and has no status yet |
| Phases.Phase.Run | phaserunner.py:53-103 | the result, the new status and the new pool are those `Execute` gives for the old pool and status |
| PhaseProps.MissingRequiredRaises | phaserunner.py:64-72 | a missing required argument raises naming every missing one, changes neither status nor pool, and the work function is not called |
| PhaseProps.CallSeesOnlyDeclaredArgs | phaserunner.py:60-77 | the function sees only required and present optional arguments, and with no pool nothing at all |
| PhaseProps.NoneOrBoolProducesNoOutputs | phaserunner.py:83-86 | returning nothing means `True`, a boolean is the status; neither writes outputs, and declared outputs then raise after the status is set |
| PhaseProps.NonBooleanStatusRaises | phaserunner.py:89-90 | a non-boolean first element raises with status and pool untouched |
| PhaseProps.EnoughValuesWriteOutputs | phaserunner.py:93-101 | with enough values the run returns the status, whatever it is, and writes the outputs from the values after the status; extra values are ignored, and with no declared outputs the pool is unchanged |
| PhaseProps.TooFewValuesKeepPool | phaserunner.py:93-98 | with too few values the run raises after recording the status and leaves the pool unchanged |
| PhaseProps.WriteOutputsLastWins | phaserunner.py:100-101 | `pool[outputs[i]] == values[i]` for each output not repeated later |
| PhaseProps.DistinctOutputsWritten | phaserunner.py:100-101 | with distinct output names every output gets its own value |
| PhaseProps.WriteOutputsElsewhereUnchanged | phaserunner.py:100-101 | a key that is not an output keeps its value or its absence |
| Runner.PhaseIndex | phaserunner.py:186-192 | -1 exactly when no phase matches, otherwise the first case-insensitive match |
| Runner.Resolve | phaserunner.py:194-204 | a resolved range is non-empty and within the list, and a single phase lies within it |
| Runner.SelectionOf | phaserunner.py:198-204 | the checks on the two indexes, in the source's order, give an error, a non-empty span within the list or a single phase within it |
| Runner.Prefer | phaserunner.py:208-209 | `given or stored`: an explicit non-empty bound wins, an absent or empty one falls back to the stored bound; the result is always one of the two |
| Runner.Given | phaserunner.py:170-175 | a command-line bound counts when it is present and non-empty, as `if args.startwith:` tests it |
| Runner.HookSucceeds | phaserunner.py:216-220 | a hook call inside `try`: a raise counts as failure, otherwise the truth value of what it returned |
| Runner.Succeeded | phaserunner.py:232-239 | `success = phase.run()` under `try`: true exactly when `run` returns `True`, an escaping exception counting as `False` |
| Runner.PhaseTurn | phaserunner.py:232-236 | one phase run as the loop sees it: `Execute` on the runner's pool, success only when `run` returns `True`, and a success always leaves the status `True` |
| Runner.Halts | phaserunner.py:239-242 | the abort test after a phase: it failed and both the runner's and the phase's `stop_on_fail` are set |
| Runner.RunLoop | phaserunner.py:229-245 | the phase loop over a range: each phase runs on the pool the previous one left, and the loop stops right after a failed phase when both flags are set; the statuses keep their length (its behaviour is stated by the `RunnerProps` loop lemmas) |
| Runner.AfterLoop | phaserunner.py:246-262 | after the loop: an aborted loop returns `False`, otherwise a failing `post_run` with the runner's flag set returns `False`, otherwise the run completes; `post_run` raises nothing out of the run and changes no status, pool or step |
| Runner.RunSelection | phaserunner.py:210-262 | a bad range raises; a failing `pre_run` with the flag set returns `False`; a single phase raises; otherwise the loop then `post_run` (stated by the `RunnerProps` run lemmas) |
| Runner.RunSpec | phaserunner.py:206-262 | the whole of `run_phases`: `RunSelection` of the range `Resolve` picks for the bounds; the statuses keep their length |
| Runner.RunLoopUnfold | phaserunner.py:229-245 | one turn of the loop: the phase's result is recorded, and the loop either stops there under the abort rule or goes on with the next phase |
| Runner.RunSpecOfSpan | phaserunner.py:206-262 | a run whose bounds resolve to a span and whose `pre_run` lets it go on is the phase loop over that span followed by `post_run` |
| Runner.InitialStopOnFail | phaserunner.py:110 | the runner's initial `stop_on_fail` is true whatever the keywords say |
| Phases.ArgPool.constructor | phaserunner.py:109 | the shared `_arg_pool` dictionary with the given entries; the runner passes this one object to every phase (line 130) and `update`s it in place (line 139) |
| Runner.PhaseRunner.constructor | phaserunner.py:107-113 | the pool is a copy of the keywords, there are no phases and no bounds, and `stop_on_fail` is true |
| Runner.PhaseRunner.PhaseList | phaserunner.py:141-143 | the names of the phases, in order |
| Runner.Names | phaserunner.py:141-143 | `phase_list` over the phases' configurations: one name per phase, in order |
| Runner.PhaseRunner.PhaseExists | phaserunner.py:145-147 | whether the name is in the phase list with exactly this spelling |
| Runner.PhaseRunner.AddPhase | phaserunner.py:115-132 | a new exact-case name appends one fresh phase with no status, the runner's pool, and the given or inherited `stop_on_fail`; a duplicate raises and changes nothing |
| Runner.PhaseRunner.SetArgs | phaserunner.py:137-139 | new keys and values win, and every other key keeps its value |
| Runner.PhaseRunner.SetStopOnFail | phaserunner.py:183-184 | the flag takes the given value |
| Runner.PhaseRunner.SetPhaseBounds | phaserunner.py:170-175 | `--exact` sets both bounds, otherwise `--startwith`/`--endwith` set theirs when given non-empty |
| Runner.PhaseRunner.GetPhaseIndex | phaserunner.py:186-192 | the scan returns the first case-insensitive match, or -1 exactly when there is none |
| Runner.PhaseRunner.GetPhases | phaserunner.py:194-204 | the resolution equals `Resolve` over the phase names |
| Runner.PhaseRunner.RunPhases | phaserunner.py:206-262 | explicit non-empty bounds win over stored ones; result, statuses, pool and the executed steps are those `RunSpec` gives; the runner's own fields do not change |
| Runner.PhaseRunner.RunSpan | phaserunner.py:229-262 | once the span is known: the loop over it, then `post_run`, as `AfterLoop` of `RunLoop` says |
| Runner.PhaseRunner.RunRange | phaserunner.py:229-245 | the loop's abort flag, statuses, pool and steps are those `RunLoop` gives |
| Runner.PhaseRunner.RunStep | phaserunner.py:232-242 | one phase runs as `Execute` says, a raise counts as failure, no other phase's status changes, and the halt flag is set exactly when the phase failed with both `stop_on_fail` flags set |
| RunnerProps.ResolveWholeList | phaserunner.py:196-197 | without bounds the whole list is selected; an empty runner raises `IndexError` |
| RunnerProps.ResolveUnknownFirst | phaserunner.py:198-199 | an unknown first phase raises |
| RunnerProps.ResolveNamedBounds | phaserunner.py:196-204 | names found at i and j select `[i, j]` inclusive, a single phase when j is i-1, and raise when j is further back |
| RunnerProps.ResolveOpenBounds | phaserunner.py:196-197 | an absent first bound means 0 and an absent last bound means the end |
| RunnerProps.ResolveUnknownLast | phaserunner.py:197-204 | an unknown last phase reads as index 0, so the -1 check never fires |
| RunnerProps.SpanIsInclusive | phaserunner.py:197 | a named range starts at the first-named phase and ends with the last-named one |
| RunnerProps.LoopExtendsTrace | phaserunner.py:229-245 | the loop only appends, at most one step per phase, and reaches the end unless it stops |
| RunnerProps.LoopRunsInOrder | phaserunner.py:229 | the phases run strictly in order from the start of the range |
| RunnerProps.LoopHaltsOnlyAtEnd | phaserunner.py:239-242 | no executed phase before the last met the abort rule |
| RunnerProps.LoopAbortsAtHalt | phaserunner.py:239-242 | the loop aborts exactly when its last executed phase met the abort rule |
| RunnerProps.LoopStopsAtFirstHalt | phaserunner.py:239-245 | the loop stops at the first failed phase with both flags set, and only there |
| RunnerProps.LoopTouchesOnlyExecuted | phaserunner.py:229-245 | a phase the loop did not execute keeps its status |
| RunnerProps.FailedPhaseAbortsOnlyWithBothFlags | phaserunner.py:232-244 | a failed or raising phase ends the run right after itself exactly when both flags are set |
| RunnerProps.PhaseTurnIsStatusBlind | phaserunner.py:53-103 | whether a phase succeeds, and what it writes into the pool, does not depend on its earlier status |
| RunnerProps.LoopIgnoresEarlierStatuses | phaserunner.py:229-245 | earlier statuses never change which phases run, their results or the final pool |
| RunnerProps.NoStopRunsEveryPhase | phaserunner.py:239-244 | with the runner's flag off every phase of the range runs in order |
| RunnerProps.BadRangeRaises | phaserunner.py:210 | a range that does not resolve raises before any hook or phase |
| RunnerProps.FailedPreRunAborts | phaserunner.py:213-226 | a failing or raising `pre_run` returns `False` before any phase when the runner's flag is set |
| RunnerProps.FailedPostRunAborts | phaserunner.py:247-258 | a failing or raising `post_run` returns `False` after the phases when the runner's flag is set |
| RunnerProps.NoStopIgnoresHooks | phaserunner.py:213-258 | with the runner's flag off the hooks change nothing |
| RunnerProps.SinglePhaseSelectionRaises | phaserunner.py:204-229 | a single-phase selection raises after `pre_run`, with no phase run |
| RunnerProps.CompletedRunsWholeRange | phaserunner.py:206-262 | a completed run executed its whole range in order, and no step or hook met an abort rule |
| RunnerProps.AbortHasACause | phaserunner.py:206-262 | `False` comes only from a failed hook or a failed last phase with both flags set |
| RunnerProps.RunLeavesOtherPhases | phaserunner.py:206-262 | phases outside the selected range keep their status |
| RunnerProps.RunIgnoresEarlierStatuses | phaserunner.py:206-262 | a re-run over the same pool gives the same result, steps and pool, whatever the statuses it starts from |
| RunnerProps.PhaseTurnSettles | phaserunner.py:83-103 | running a phase again from the status it left ends in that same status |
| RunnerProps.LoopRerunKeepsStatuses | phaserunner.py:229-245 | starting the loop over the same pool from the statuses it left gives those statuses again |
| RunnerProps.RunRerunRepeats | phaserunner.py:206-262 | for a status-blind turn that settles, re-running from the statuses a run left, with the pool it started from, repeats that run exactly |
| RunnerProps.RunSpecRerunRepeats | phaserunner.py:206-262 | calling `run_phases` again with the pool it started from and the statuses it left gives the same result, steps, statuses and pool |
| Demo.DemoPool | phaserunner.py:283 | the pool of `PhaseRunner(number = 19)`, for any number |
| Demo.DemoConfigs | phaserunner.py:269-288 | the five phases as `add_phase` records them: names, work functions, argument lists, outputs and the runner's `stop_on_fail` |
| Demo.PhaseAWritesOutput | phaserunner.py:269-272 | phase A passes and leaves `a_string` in the pool, on the seeded pool and again on the pool it already wrote to |
| Demo.PhaseCFails | phaserunner.py:274-277 | phase C passes its argument check and fails |
| Demo.QuietPhasePasses | phaserunner.py:273-281 | phases B, D and E need nothing, pass and leave the pool alone |
| Demo.DemoTurns | phaserunner.py:269-288 | how each of the five phases runs on the pool it finds, whatever its earlier status: A writes `a_string`, C fails, the rest pass |
| Demo.FiveTurns | phaserunner.py:229-245 | five phases where the third fails with its flag set: the loop runs all five with the runner's flag off, and stops after the third with it on, leaving the last two statuses as they were |
| Demo.MiddleTurns | phaserunner.py:229-245 | phases 1 to 3 of five, the middle one failing and each ending in the status it had: with the runner's flag off all three run and no status changes |
| Demo.FirstRun | phaserunner.py:290-291 | with `stop_on_fail` off every phase runs, C's failure is only recorded, and the run completes |
| Demo.SecondRun | phaserunner.py:293-294 | on the state the first run left, with `stop_on_fail` on, the run returns `False` after C; D and E keep the `True` of the first run |
| Demo.ResolveDemoRanges | phaserunner.py:297 | over the five demonstration phases: B..D is phases 1-3, None..D is 0-3, and D..B raises |
| Demo.ThirdRun | phaserunner.py:296-297 | with `stop_on_fail` off again, the range B to D runs B, C and D and completes |
| Demo.DemoRuns | phaserunner.py:283-297 | the three runs of one runner, each starting from the statuses and pool the previous one left, for any seeded `number`: the first completes with C failed, the second returns `False` after three phases with D and E still `True`, the third runs B to D and completes; the pool ends holding `a_string` |
| NamedSlices.NamedIndexes.constructor | snippets/named_slices.py:9-10 | a new object holds no names |
| NamedSlices.NamedIndexes.IndexNames | snippets/named_slices.py:16-18 | the stored names, in order |
| NamedSlices.NameList | snippets/named_slices.py:16-18 | `index_names` over a list of items: one name per item, in order |
| NamedSlices.NamedIndexes.IndexExists | snippets/named_slices.py:19-20 | whether the name is stored with exactly this spelling |
| NamedSlices.NamedIndexes.AddIndex | snippets/named_slices.py:12-14 | a new name is appended at the end, while a name already present changes nothing; the names stay distinct |
| NamedSlices.NamedIndexes.SearchIndex | snippets/named_slices.py:27-32 | the scan returns the first case-insensitive match, or none exactly when no name matches |
| NamedSlices.NamedIndexes.GetItem | snippets/named_slices.py:22-68 | the result is the one `Select` gives for the stored items |
| NamedSlices.Select | snippets/named_slices.py:22-68 | the meaning of `__getitem__`: an integer indexes the list, a string picks the first case-insensitive match, a slice resolves its named bounds (the stop one plus one) and slices with step 1, and `Other` gives `None`; stated by the `NamedSliceProps` lemmas. `Position` stands for a plain `int` and `Key`/`Named` for a byte `str` (see Left out) |
| NamedSlices.StartOf | snippets/named_slices.py:49-54 | a named start bound raises exactly when no name matches, and otherwise becomes the position of the first match |
| NamedSlices.StopOf | snippets/named_slices.py:55-61 | a named stop bound raises exactly when no name matches, and otherwise becomes one past the first match, so the named item is included |
| NamedSlices.SliceOf | snippets/named_slices.py:63-68 | Python's `items[lo:hi]` for absent or non-negative bounds: never longer than the list, the whole list without bounds, `items[lo..hi]` for bounds within it, and empty when the stop is at or before the start |
| NamedSlices.IndexExistsAsWritten | snippets/named_slices.py:19-20 | as written, `index_exists` raises `NameError` for the unbound `i` |
| NamedSlices.AddIndexAsWritten | snippets/named_slices.py:12-14 | as written, `add_index` raises the error of its existence test |
| NamedSlices.SelectAsWritten | snippets/named_slices.py:34 | as written, `__getitem__` raises `NameError` at its first type test |
| NamedSliceProps.FirstMatchAt | snippets/named_slices.py:27-32 | the first matching position is what the search finds |
| NamedSliceProps.PositionSelects | snippets/named_slices.py:34-36 | an integer picks the item at that position, counting from the end when negative, and raises outside the list |
| NamedSliceProps.KeySelectsFirstMatch | snippets/named_slices.py:37-41 | a string picks the first case-insensitively matching item |
| NamedSliceProps.UnknownKeyRaises | snippets/named_slices.py:37-43 | a string raises exactly when no name matches |
| NamedSliceProps.UnknownStartRaises | snippets/named_slices.py:49-54 | an unknown start name raises, whatever the stop bound is |
| NamedSliceProps.UnknownStopRaises | snippets/named_slices.py:55-60 | an unknown stop name raises once the start has resolved |
| NamedSliceProps.NamedSliceIsInclusive | snippets/named_slices.py:49-68 | names found at i and j select items i through j inclusive, and nothing when j is before i |
| NamedSliceProps.SliceIsContiguous | snippets/named_slices.py:44-68 | every slice is a contiguous run of the list |
| NamedSliceProps.OpenSliceIsWholeList | snippets/named_slices.py:44-68 | with both bounds absent the whole list is selected |
| NamedSliceProps.StepIsIgnored | snippets/named_slices.py:48 | the caller's step doesn't change the result |
| NamedSliceProps.SliceBToDSpelled | snippets/named_slices.py:22-26 | over A, B, C, D, any spellings of `b` and `d` give the slice B, C, D |
| NamedSliceProps.SliceBToD | snippets/named_slices.py:22-26 | over A, B, C, D the slice `B:D` (or `b:d`) yields B, C, D |
| NamedSliceProps.CaseVariantsAreBothKept | snippets/named_slices.py:12-14 | two spellings of one name are both stored, and a lookup returns the first |
| NamedSliceProps.AsWrittenRaises | snippets/named_slices.py:20 | as written, `add_index` and `__getitem__` raise on every input |

## Left out

- Logging: every `LOGGER` call, including the final status table (`phaserunner.py:264-266`), produces log output only.
- `cli_setup_args` and the argparse checks of `cli_parse_args`: they are command-line wiring. Only the bound set-up is modelled (`SetPhaseBounds`). The final `self.args = ...` of `cli_parse_args` is the `args` setter.
- utils.py is not part of this model: it only configures logging and pretty-prints XML.
- The `returns` property (`phaserunner.py:45`) reads an attribute that never exists.
- Python exceptions are not modelled as control flow. A raising work function or hook is the `Raises` outcome, and an escaping exception is an `Err` or `Raised` value.
- Two exceptions are folded into the error the surrounding code raises:
  - the error message at line 98 could itself raise `TypeError` (joining non-string values);
  - line 89 raises a `TypeError` or `IndexError` on an empty or unsubscriptable value (`NoStatus`).
- Runner.HookSucceeds, Runner.PhaseTurn: every exception a work function or hook raises counts as a failure. In Python 2, `except Exception, e` (`phaserunner.py:218`, `234`, `253`) does not catch `SystemExit`, `KeyboardInterrupt` or a raised old-style class instance; those escape `run_phases`. The model has one kind of raise, so it does not capture them.
- Work functions and hooks are pure, total functions of what they are given. A work function that changes the pool or the runner directly, or a hook that changes the pool, is not modelled, and neither is a work function or hook that never returns.
- RunnerProps.RunIgnoresEarlierStatuses, RunnerProps.RunRerunRepeats, RunnerProps.RunSpecRerunRepeats: hooks see only the pool. In the source `pre_run`/`post_run` are methods of a subclass and receive `self`, so they could read the phases' statuses, `_stop_on_fail` or the phase list. A hook whose answer depends on the statuses is not modelled, and for one these three lemmas need not hold.
- NamedSlices.Select: `Position(i)` stands for a plain `int` index (`types.IntType`, line 34) and `Key`/`Named` for a byte `str` (`types.StringType`, lines 37, 49, 55). In Python 2 a `long` index or a `unicode` key is neither, so `__getitem__` falls through and returns `None`; the model counts them among `Other`. A `unicode` slice bound is not converted to a position and makes the slice on line 68 raise `TypeError`; that case is not modelled.
- Hook detection by `hasattr` is not modelled; the hooks are instead optional values given to the constructor.
- Runner.PhaseRunner.AddPhase: a `stop_on_fail` keyword and the runner's flag are reduced to their truth value, a boolean.
- `Phase` takes `None` for an argument or output list as the empty list, which `if self.required_args:` treats the same way.
- NamedSlices.Select: slice bounds are absent, non-negative integers or names, so Python's negative slice bounds are not modelled. Negative single indexes are modelled.
- NamedSlices.Select: an index that is neither an integer, a string nor a slice returns `None` (`Nothing`).
- NamedSlices.Select: the `try` around `slice(...)` (lines 63-66) can never fail; the model has no such path.
- NamedSlices.NamedIndexes.GetItem: it works over the object's own `_indexes` list and an exact-case `index_exists`, which is their evident meaning. The file as written reads `self._phases`, an undefined `i` and modules it never imports; see Findings.

## Findings

| source | as written | input that shows it | evidently intended | confidence | as-written member | corrected member |
|---|---|---|---|---|---|---|
| snippets/named_slices.py:19-20 | `index_exists` returns `i.name in self.index_names`, but `i` is bound only inside the comprehension of `index_names` | `add_index("A")` on a new object raises `NameError` | `index_name in self.index_names` | high; not executed | NamedSliceProps.AsWrittenRaises | NamedSlices.NamedIndexes.AddIndex |
| snippets/named_slices.py:34 | `__getitem__` tests `isinstance(index, types.IntType)` in a file that imports neither `types` nor `exceptions`; it then reads `self._phases`, which the class never sets | `NamedIndexes()["A"]` raises `NameError` | import `types`/`exceptions` and index `self._indexes` | high; not executed | NamedSliceProps.AsWrittenRaises | NamedSlices.NamedIndexes.GetItem |
