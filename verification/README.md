# Bake: verified models of its agent and code-mode cores

Bake is a coding agent. This project models the parts of its two crates whose
correctness does not depend on I/O, and proves what they promise: that two
evaluators of a schema never disagree, that a model call never starts before
its debit is written, that nothing a tool started outlives it, that the events
of a run rebuild its transcript, and that a script is told it waits for nothing
only when that is true.

Everything is checked with `dafny verify dfyconfig.toml`.

## What is modelled

**Numbers and canonical JSON** (`JsNumbers`, `Json`, `CanonicalJson`). A double
is its sign, shortest digits and exponent. Both printers of JavaScript numbers
(section 6.1.6.1.20 of ECMA-262) are there, one as a function and one as the
methods that push to a string. Canonical JSON is a function and the methods
that append it to a buffer.

**The tool-argument validator** (`Schema`, `Checker`, `Coercion`, `Validation`,
`Misalignment`). `Schema.Accepts` says declaratively what a schema accepts at a
depth. The checker, the error-collecting evaluator, normalisation and coercion
are methods over a shared step budget, whose contracts tie them to that
reference while the budget lasts. Regular expressions, the reading of numbers
from text, references and `multipleOf` are parameters, so every theorem holds
for every choice of them. Termination comes from the depth limit of 256.

**Model-call admission** (`Admission`, `AdmissionRuns`, `AdmissionLocks`,
`RunControls`). Each critical section is one step of a transition system with
callers, drainers, dropped tasks, wake-ups and handles; the theorems quantify
over all sequences of steps. The class updates the shared fields and shows that
each of its critical sections is a sequence of those steps. `AdmissionLocks`
looks inside the sections: each is the sequence of its mutex operations, tasks
run them in any interleaving, and the order that rules out circular waiting is
derived from those sequences.

**Nested calls** (`NestedCalls`, `NestedRuns`, `NestedRecorder`). The tree of
call scopes with their gates, the exclusive queue and the record, again over
all runs.

**The agent loop** (`AgentTrace`, `ToolChanges`, `PendingQueue`, `RunLog`,
`JoinAll`, `AgentLoop`). The loop is a class whose methods emit events; hooks,
tools, provider and control answer anything. Its traces are judged by an
automaton whose meaning is proved separately, in terms of positions and counts
of events. A log lists, entry by entry, what was written for which queued units,
requests, replies and results; the loop keeps it equal to the transcript, and
what the log says of units, requests and declared tools is proved about the log.

**Code mode** (`Delivery`, `CallLedger`, `Surrogates`, `SurrogateText`,
`Wtf8`). In-order delivery to a deterministic guest, the four places where a
call is tracked, and what becomes of lone surrogates on the way out.

**Run lifecycle** (`Lifecycle`). One run at a time, and the lock that keeps
observers out once a run is idle.

Where the code and its documentation disagree, the model follows the code. The
oracle stated in fuzz/fuzz_targets/tool_arguments.rs:7-8, that accepted
arguments are a fixed point, is false of the code. `AcceptedIsFixedPoint` proves
it for every schema that is aligned (coercion looks only at the schemas the
checker looks at) and nested within the depth limit, reference hops included.
Neither condition can be dropped: the lemmas of `Misalignment` give a schema for
each way of failing one of them alone, `prefixItems` beside `items`,
`patternProperties` beside `additionalProperties`, and a cycle of references,
under which an accepted object is accepted as another one, and that as a third.

## Model

| member | source | states |
|---|---|---|
| JsNumbers.DecimalRoundTrip | crates/bake-agent/src/validation.rs:224-266 | the decimal text of an exponent reads back as that exponent, for every natural number |
| JsNumbers.PushBody | crates/bake-codemode/src/js.rs:7-57 | pushing sign-free digits and exponent piece by piece gives the text the other implementation builds whole: the two printers agree on all four layouts |
| JsNumbers.PushExponentLayout | crates/bake-codemode/src/js.rs:7-57 | the layout with an exponent, one digit or a fraction, agrees with the whole-text form |
| JsNumbers.NumberToString | crates/bake-codemode/src/js.rs:7-57 | the pushing printer gives exactly the text of the building one, on every double including NaN, infinities and both zeros |
| JsNumbers.BodyRoundTrip | crates/bake-agent/src/validation.rs:224-266 | shortest digits and exponent are recoverable from the text in every layout |
| JsNumbers.NumberRoundTrip | crates/bake-agent/src/validation.rs:224-266 | sign, digits and exponent of every finite nonzero double are recoverable from its text |
| JsNumbers.NumberTextInjective | crates/bake-agent/src/validation.rs:224-266 | two doubles print alike exactly when they are the same number; only the zeros of either sign share a text |
| CanonicalJson.SortedKeys | crates/bake-agent/src/validation.rs:685-719 | the keys of an object, each once and in ascending order |
| CanonicalJson.WriteString | crates/bake-codemode/src/js.rs:100-119 | escaping a string character by character gives its quoted text |
| CanonicalJson.QuotedUnambiguous | crates/bake-agent/src/validation.rs:685-719 | a quoted string followed by anything determines the string and what follows |
| CanonicalJson.CanonicalUnambiguous | crates/bake-agent/src/validation.rs:685-719 | a canonical text followed by a delimiter determines the value up to JSON equality and the rest: no canonical text is a prefix of another |
| CanonicalJson.EqualSameText | crates/bake-agent/src/validation.rs:641-719 | JSON-equal values have the same canonical text, whatever the representation of their numbers |
| CanonicalJson.CanonicalIffEqual | crates/bake-agent/src/validation.rs:641-719 | two values have the same canonical text exactly when they are JSON-equal |
| CanonicalJson.AppendCanonical | crates/bake-agent/src/validation.rs:685-719 | appending in place adds exactly the canonical text of the value |
| CanonicalJson.AppendArray | crates/bake-agent/src/validation.rs:685-719 | appending an array adds exactly its canonical text |
| CanonicalJson.AppendObject | crates/bake-agent/src/validation.rs:685-719 | appending an object adds its members in key order, exactly its canonical text |
| Checker.Budget.Spend | crates/bake-agent/src/validation.rs:148-191 | a granted step costs one; a step is refused only when none is left or the deadline has passed, which leaves the budget empty and exhausted |
| Checker.Errors.Absorb | crates/bake-agent/src/validation.rs:614-630 | the errors of a branch are appended in order, as many as fit under the cap |
| Checker.HasDuplicate | crates/bake-agent/src/validation.rs:667-683 | with budget left, the linear search by canonical text answers exactly whether two items are JSON-equal (section 6.4.3 of JSON Schema Validation 2020-12) |
| Checker.Validator.Check | crates/bake-agent/src/validation.rs:764-851 | with the budget not exhausted, the short-circuiting checker accepts exactly the values the schema accepts, at every depth and through every reference cycle |
| Checker.Validator.CheckRef | crates/bake-agent/src/validation.rs:764-851 | a reference is the schema it resolves to, one level deeper; an unresolvable one accepts nothing |
| Checker.Validator.CheckIf | crates/bake-agent/src/validation.rs:764-851 | if/then/else selects its branch by the verdict on `if` |
| Checker.Validator.CheckNot | crates/bake-agent/src/validation.rs:764-851 | `not` accepts exactly what its schema refuses |
| Checker.Validator.CheckAllOf | crates/bake-agent/src/validation.rs:764-851 | every branch of `allOf` accepts |
| Checker.Validator.CheckAnyOf | crates/bake-agent/src/validation.rs:764-851 | some branch of `anyOf` accepts |
| Checker.Validator.CheckOneOf | crates/bake-agent/src/validation.rs:764-851 | exactly one branch of `oneOf` accepts, although the scan stops at the second match |
| Checker.Validator.CheckObject | crates/bake-agent/src/validation.rs:853-902 | required, patterns, properties, additional properties and names all hold |
| Checker.Validator.CheckAdditional | crates/bake-agent/src/validation.rs:853-902 | members that neither properties nor a pattern declares satisfy the schema for additional ones |
| Checker.Validator.CheckPatterns | crates/bake-agent/src/validation.rs:853-902 | every member whose key matches a pattern satisfies that pattern’s schema |
| Checker.Validator.CheckPattern | crates/bake-agent/src/validation.rs:853-902 | one pattern: all members with a matching key are accepted |
| Checker.Validator.CheckProperties | crates/bake-agent/src/validation.rs:853-902 | declared members that are present satisfy their schemas |
| Checker.Validator.CheckNames | crates/bake-agent/src/validation.rs:853-902 | every key satisfies the schema for names |
| Checker.Validator.CheckArray | crates/bake-agent/src/validation.rs:904-919 | each item satisfies the schema its position selects, `prefixItems` first |
| Checker.Validator.CheckContains | crates/bake-agent/src/validation.rs:904-919 | some item satisfies the `contains` schema, found by stopping at the first |
| Checker.TextErrors | crates/bake-agent/src/validation.rs:1277-1312 | the failing string keywords are none exactly when the string is accepted |
| Checker.BoundErrors | crates/bake-agent/src/validation.rs:1314-1345 | the failing bounds are none exactly when every bound holds |
| Checker.NumberErrors | crates/bake-agent/src/validation.rs:1314-1345 | the failing number keywords are none exactly when the number is accepted |
| Checker.PropertyCountErrors | crates/bake-agent/src/validation.rs:1213-1237 | the failing count keywords are none exactly when the member count is within bounds |
| Checker.Validator.ItemCountErrors | crates/bake-agent/src/validation.rs:1241-1275 | the failing array-size keywords, duplicates included, are none exactly when the array is accepted |
| Checker.Validator.ErrorsOf | crates/bake-agent/src/validation.rs:922-1053 | the error-collecting evaluator returns true exactly when the schema accepts; it adds nothing then and at least one error (or finds the list full) otherwise |
| Checker.Validator.RefErrors | crates/bake-agent/src/validation.rs:922-1053 | the same agreement for references |
| Checker.Validator.IfErrors | crates/bake-agent/src/validation.rs:922-1053 | the same agreement for conditionals |
| Checker.Validator.AllOfErrors | crates/bake-agent/src/validation.rs:922-1053 | the same agreement for `allOf`, whose branches are all evaluated |
| Checker.Validator.BranchErrors | crates/bake-agent/src/validation.rs:1056-1074 | one error list per branch, and the number of accepting branches |
| Checker.Validator.AnyOfErrors | crates/bake-agent/src/validation.rs:922-1053 | the same agreement for `anyOf`: branch errors are absorbed only when no branch accepts |
| Checker.Validator.OneOfErrors | crates/bake-agent/src/validation.rs:922-1053 | the same agreement for `oneOf`, counting all matches |
| Checker.Validator.ObjectErrors | crates/bake-agent/src/validation.rs:1076-1147 | the same agreement for objects |
| Checker.Validator.RequiredErrors | crates/bake-agent/src/validation.rs:1076-1147 | the same agreement for required members, all missing ones making one error |
| Checker.Validator.AdditionalErrors | crates/bake-agent/src/validation.rs:1076-1147 | the same agreement for additional members |
| Checker.Validator.PatternsErrors | crates/bake-agent/src/validation.rs:1076-1147 | the same agreement for patterns |
| Checker.Validator.PropertiesErrors | crates/bake-agent/src/validation.rs:1076-1147 | the same agreement for declared members |
| Checker.Validator.NamesErrors | crates/bake-agent/src/validation.rs:1076-1147 | the same agreement for names |
| Checker.Validator.ItemsErrors | crates/bake-agent/src/validation.rs:1149-1201 | the same agreement for a range of items |
| Checker.Validator.ArrayErrors | crates/bake-agent/src/validation.rs:1149-1201 | the same agreement for arrays |
| Checker.Validator.OneOfCounts | crates/bake-agent/src/validation.rs:764-851 | counting matches to one is the same as one branch accepting and no other |
| Coercion.TypedUnchanged | crates/bake-agent/src/validation.rs:361-402 | a value of one of the declared types is not converted |
| Coercion.DepthMakesNoChange | crates/bake-agent/src/validation.rs:764-918 | a value that needs no more levels than the limit leaves has the same verdict at every starting depth |
| Coercion.CoercionLeavesAccepted | crates/bake-agent/src/validation.rs:421-512 | where coercion looks at the schemas the checker looks at, an accepted value is left as it is by coercion |
| Coercion.NormalisationLeavesAccepted | crates/bake-agent/src/validation.rs:515-560 | under the same conditions an accepted value keeps its optional nulls |
| Coercion.NormalisationIdempotent | crates/bake-agent/src/validation.rs:515-560 | removing optional nulls twice is removing them once, for every schema and value |
| Coercion.EvaluatedIsPart | crates/bake-agent/src/validation.rs:764-919 | whatever the checker evaluates for a schema, on any value, is one of the schema’s parts or its reference’s target |
| Coercion.NestedFits | crates/bake-agent/src/validation.rs:52-53 | a schema whose paths down, reference hops included, have at most n steps never needs more than n + 1 levels, on any value |
| Coercion.FittingPassThrough | crates/bake-agent/src/validation.rs:102-146 | valid arguments come out unchanged when coercion looks at the schemas the checker looks at and the evaluation fits under the depth limit |
| Coercion.AcceptedPassThrough | crates/bake-agent/src/validation.rs:102-146 | the same for every value, under conditions on the schema alone: aligned, and nested within the limit of 256 |
| Coercion.FittingIsFixedPoint | crates/bake-agent/src/validation.rs:102-146 | what validation returns is accepted again unchanged, when its evaluation fits under the depth limit |
| Coercion.AcceptedIsFixedPoint | crates/bake-agent/src/validation.rs:102-146 | the fuzz target’s oracle for every value, under the two conditions on the schema: what validation returns is accepted again unchanged |
| Validation.Normalize | crates/bake-agent/src/validation.rs:515-560 | with budget left, the in-place removal of optional nulls equals its unbudgeted reference |
| Validation.NormalizeMembers | crates/bake-agent/src/validation.rs:515-560 | member by member: optional, non-nullable nulls go and the rest is normalised |
| Validation.Coerce | crates/bake-agent/src/validation.rs:473-512 | with budget left, coercion equals its unbudgeted reference |
| Validation.CoerceThrough | crates/bake-agent/src/validation.rs:473-512 | coercion through `allOf`, one schema after the other |
| Validation.CoerceUnion | crates/bake-agent/src/validation.rs:459-471 | a value a branch accepts is left; else the first coercion a branch accepts is taken |
| Validation.CoerceToFirst | crates/bake-agent/src/validation.rs:459-471 | the first branch whose coercion is accepted decides |
| Validation.AnyMatch | crates/bake-agent/src/validation.rs:459-471 | whether some branch accepts the value |
| Validation.CoerceMembers | crates/bake-agent/src/validation.rs:421-441 | declared members by their schema, other members by the additional one |
| Validation.CoerceDeclared | crates/bake-agent/src/validation.rs:421-441 | only declared members that are present change, each to its coercion |
| Validation.CoerceAdditional | crates/bake-agent/src/validation.rs:421-441 | only undeclared members change, each to its coercion |
| Validation.CoerceItems | crates/bake-agent/src/validation.rs:443-457 | each item is coerced by the schema its position selects, the length is kept |
| Validation.ValidateArguments | crates/bake-agent/src/validation.rs:87-146 | an `Ok` or an error list is the reference’s, never a truncated answer; `TooComplex` is given exactly when the budget is exhausted, and then nothing is left of it |
| Validation.ValidateWithin | crates/bake-agent/src/validation.rs:102-146 | normalise, coerce, check, and report: the four phases together equal the reference result while budget remains |
| Validation.EvaluatorsAgree | crates/bake-agent/src/validation.rs:763-1201 | run side by side with budget left, the two evaluators return the same verdict and the list is empty exactly when it is positive |
| Validation.AcceptedObjectMatches | crates/bake-agent/src/validation.rs:102-146 | for every schema, an `Ok` on an object is an object the schema accepts |
| Validation.CoercionKeepsObjects | crates/bake-agent/src/validation.rs:421-512 | coercion never turns an object into anything else |
| Misalignment.PrefixItemsBreakTheFixedPoint | crates/bake-agent/src/validation.rs:443-457 | a schema with `items` beside `prefixItems`, nested within the limit, that accepts `{"x": [""]}` as `{"x": [null]}` and that as `{"x": ["false"]}` |
| Misalignment.PatternPropertiesBreakTheFixedPoint | crates/bake-agent/src/validation.rs:430-440 | likewise with `additionalProperties` beside `patternProperties`, from `{"x": ""}` by `{"x": null}` to `{"x": "false"}` |
| Misalignment.DepthDecidesACycle | crates/bake-agent/src/validation.rs:764-851 | a schema that denies itself by a reference accepts a value at the depths 0 and 3 modulo 4 only: the depth limit decides |
| Misalignment.CyclesBreakTheFixedPoint | crates/bake-agent/src/validation.rs:459-471 | an aligned schema with such a cycle that keeps changing the object it accepts in the same way |
| Admission.StepKeepsDebitsInOrder | crates/bake-agent/src/run_control.rs:571-610 | reserved ordinals stay gap-free and within the limit at every step |
| Admission.StepKeepsOneWrite | crates/bake-agent/src/run_control.rs:509-547 | at most one write is in flight, it belongs to the last debit, and the admission lock is held while a debit has no write yet |
| Admission.StepKeepsCompletionsInOrder | crates/bake-agent/src/run_control.rs:310-360 | writes complete in ordinal order, none skipped |
| Admission.StepKeepsResultsRecorded | crates/bake-agent/src/run_control.rs:310-360 | a successful write is journalled; a failed one has made the cause a failure and is the last debit |
| Admission.StepKeepsCallsJournalled | crates/bake-agent/src/run_control.rs:549-566 | a call past its write has that write in the journal |
| Admission.StepKeepsOwnedOnce | crates/bake-agent/src/run_control.rs:509-610 | no two tasks own the same debit |
| Admission.StepKeepsCompleters | crates/bake-agent/src/run_control.rs:310-360 | a write past its poll has exactly one task that completes it |
| Admission.StepKeepsNoneStranded | crates/bake-agent/src/run_control.rs:134-181 | a parked task is registered with the unfinished write it watches |
| Admission.StepKeepsHandles | crates/bake-agent/src/run_control.rs:273-288 | a handle stands behind one unfinished write or has been aborted once |
| Admission.StepKeepsInv | crates/bake-agent/src/run_control.rs:223-610 | every step of every interleaving keeps the whole invariant |
| AdmissionRuns.RunKeepsInv | crates/bake-agent/src/run_control.rs:223-610 | the invariant holds in every reachable state |
| AdmissionRuns.RunIsLater | crates/bake-agent/src/run_control.rs:377-441 | no run takes back a debit, a completion or an abort; a stopping cause stays, a failure stays the cause, and a stopped interval reserves nothing |
| AdmissionRuns.EveryRunWritesAhead | crates/bake-agent/src/run_control.rs:223-271 | over every interleaving: debits gap-free and at most max(restored, limit), completions a prefix of reservations, one write in flight, every admitted call's own debit journalled before |
| AdmissionRuns.AFailedWriteIsTheLastDebit | crates/bake-agent/src/run_control.rs:310-360 | once a write has failed the cause is a failure for good and its debit is the last one, in every continuation |
| AdmissionRuns.DrainedStaysQuiet | crates/bake-agent/src/run_control.rs:290-308 | after a drain of a stopped interval no write is in flight, started or finished in any continuation |
| AdmissionRuns.DrainEndsClosed | crates/bake-agent/src/run_control.rs:290-308 | a drain that returns in a stopped interval leaves that quiet state |
| AdmissionRuns.EveryRunAbortsInTime | crates/bake-agent/src/run_control.rs:273-288 | every handle is aborted at most once, never while its write is in flight, always once that write is done |
| AdmissionRuns.AWriteIsFinished | crates/bake-agent/src/run_control.rs:310-360 | steps of the task that polled a write to its end, and of no other, publish its result and wake every waiter |
| AdmissionRuns.NoWaiterIsStranded | crates/bake-agent/src/run_control.rs:134-181 | a parked task is among the wakers of an unfinished write: one wake-up from its I/O brings it back while it runs, and afterwards steps of the one task that polled it |
| AdmissionRuns.ADrainerTakesOver | crates/bake-agent/src/run_control.rs:290-308 | a drainer that starts now publishes either result of the running write and frees the slot by its own steps alone; a success is then journalled, a failure has stopped the interval |
| AdmissionRuns.OneTaskFreesTheSlot | crates/bake-agent/src/run_control.rs:290-360 | from every state of the invariant with a write in the slot, the steps of one task alone, a new drainer or the one that polled the write, free it |
| RunControls.RunControl.Restore | crates/bake-agent/src/run_control.rs:223-238 | a restored interval starts with its debits spent and nothing in flight |
| RunControls.RunControl.Stop | crates/bake-agent/src/run_control.rs:377-400 | stopping is exactly the stop step of the protocol |
| RunControls.RunControl.Spend | crates/bake-agent/src/run_control.rs:571-610 | one debit when it fits and the interval runs; else nothing is spent, and only a call without reserve stops the interval |
| RunControls.RunControl.TryAdmit | crates/bake-agent/src/run_control.rs:515-547 | the critical section is a wait, a decline, or a reservation with its write installed, as steps of the protocol |
| RunControls.RunControl.Begin | crates/bake-agent/src/run_control.rs:524-545 | reserving and installing under the lock are two protocol steps |
| RunControls.RunControl.AbortAfterAdmissions | crates/bake-agent/src/run_control.rs:273-288 | the handle joins the pending write or is aborted at once |
| RunControls.RunControl.Observe | crates/bake-agent/src/run_control.rs:310-360 | one poll is: take a known result, park, or finish the write in five ordered protocol steps |
| RunControls.RunControl.Finish | crates/bake-agent/src/run_control.rs:329-357 | the fields end as the protocol’s finishing steps leave them: cause recorded, slot free, handles aborted, wakers and result settled |
| RunControls.PollFinishesWrite | crates/bake-agent/src/run_control.rs:310-360 | those five steps are enabled and leave the write notified, the slot free and its handles aborted |
| AdmissionLocks.PollBalanced | crates/bake-agent/src/run_control.rs:310-360 | a poll of a write, however it goes, takes every lock below those it holds, none twice, and keeps none |
| AdmissionLocks.SectionBalanced | crates/bake-agent/src/run_control.rs:134-610 | the same for every critical section of the interval: reservation, polling, handles, wakers, counters, in all their branches |
| AdmissionLocks.OneHolder | crates/bake-agent/src/run_control.rs:134-610 | however tasks interleave such sections, each lock has one holder |
| AdmissionLocks.ChainGoesDown | crates/bake-agent/src/run_control.rs:134-610 | along any chain of waiting tasks the wanted locks go down in rank |
| AdmissionLocks.NoCircularWait | crates/bake-agent/src/run_control.rs:134-610 | no reachable state has tasks waiting for each other in a circle, nor one for itself |
| AdmissionLocks.NobodyIsStuck | crates/bake-agent/src/run_control.rs:134-610 | in every reachable state a chain of waits leads from each task inside a section to one that can go on |
| NestedCalls.StepKeepsTree | crates/bake-agent/src/nested.rs:378-467 | gates count exactly the calls inside, numbers are unique, a caller past its close has none left, and the permit is with at most one call, at every step |
| NestedCalls.StepKeepsPermit | crates/bake-agent/src/nested.rs:798-825 | the permit is with the one call that took it and has not settled |
| NestedCalls.NextIsFresh | crates/bake-agent/src/nested.rs:586-590 | the number a scope gives next is not in use |
| NestedCalls.RecordingOk | crates/bake-agent/src/nested.rs:156-189 | recording keeps the limits on count, bytes per call and bytes in all, and says complete exactly when nothing was dropped or left out |
| NestedCalls.FinishingOk | crates/bake-agent/src/nested.rs:191-210 | finishing keeps them |
| NestedCalls.StepKeepsRecords | crates/bake-agent/src/nested.rs:144-231 | every started call is in its record once or counted as dropped, and marked finished exactly when it is |
| NestedRuns.RunKeepsInv | crates/bake-agent/src/nested.rs:378-739 | both invariants hold in every reachable state |
| NestedRuns.NothingRunsBelow | crates/bake-agent/src/nested.rs:640-652 | below a closed, empty gate every call at every depth has ended |
| NestedRuns.QuietForGood | crates/bake-agent/src/nested.rs:640-652 | and none ever runs or starts there again, in any continuation |
| NestedRuns.CloseEndsEverythingBelow | crates/bake-agent/src/nested.rs:640-652 | hierarchical quiescence over every run: when the wait in close ends, all calls below are over and no later step adds one |
| NestedRuns.SummaryIsFaithful | crates/bake-agent/src/nested.rs:661-667 | the summary lists calls of that model-issued call only, all finished, within the limits, and says complete exactly when every nested call is listed with its arguments |
| NestedRuns.EverySummaryIsFaithful | crates/bake-agent/src/agent_loop.rs:972-999 | and it is still the whole truth at the end of every run |
| NestedRuns.NobodyQueuesBelowTheHolder | crates/bake-agent/src/nested.rs:798-825 | one holder of the exclusive queue, and no call below it waits for it |
| NestedRuns.WaitingGoesDown | crates/bake-agent/src/nested.rs:798-865 | each wait goes to a call of smaller rank |
| NestedRuns.NoDeadlock | crates/bake-agent/src/nested.rs:323-332 | no cycle of waiting of any length, in any reachable state, over arbitrary call trees |
| NestedRuns.SomebodyCanMove | crates/bake-agent/src/nested.rs:744-865 | from every live nested call a chain of waits leads to one whose own step is enabled, and the step lets nobody new in |
| NestedRuns.NobodyIsStuck | crates/bake-agent/src/nested.rs:744-865 | so in every reachable state |
| NestedRecorder.NestedCallRecorder.Start | crates/bake-agent/src/nested.rs:156-189 | the recorder’s in-place update is the recording the invariants are about |
| NestedRecorder.NestedCallRecorder.Finish | crates/bake-agent/src/nested.rs:191-210 | likewise for finishing |
| NestedRecorder.NestedCallRecorder.TakeSnapshot | crates/bake-agent/src/nested.rs:223-231 | the snapshot: none without calls, complete only when all are finished |
| JoinAll.Joining.Poll | crates/bake-agent/src/agent_loop.rs:1112-1147 | one poll asks every started future once and starts more in order exactly while fewer than the limit are active; done exactly when every output is there |
| JoinAll.PollsUnique | crates/bake-agent/src/agent_loop.rs:1112-1147 | those conditions determine the poll |
| JoinAll.PollIsWorkConserving | crates/bake-agent/src/agent_loop.rs:1112-1147 | after a poll, active equals the smaller of the limit and what is unfinished |
| JoinAll.ReadyFinishes | crates/bake-agent/src/agent_loop.rs:1112-1147 | a poll that finds every unfinished future ready finishes the join, those the limit held back included |
| JoinAll.Await | crates/bake-agent/src/agent_loop.rs:1112-1147 | outputs come in input order, each an answer of its own future, and they do come once a round has all futures ready |
| JoinAll.LastRoundDecides | crates/bake-agent/src/agent_loop.rs:1112-1147 | of futures that stay ready, the join returns exactly when all have become so, each with its own answer |
| PendingQueue.PendingMessageQueue.Push | crates/bake-agent/src/agent.rs:291-295 | a nonempty unit goes to the end; what was drained and what waits is what was pushed, in order |
| PendingQueue.PendingMessageQueue.Peek | crates/bake-agent/src/agent.rs:297-302 | exactly the messages the next drain takes |
| PendingQueue.PendingMessageQueue.Drain | crates/bake-agent/src/agent.rs:304-309 | all units, or in one-at-a-time mode the first, leave the queue in order and once each |
| AgentTrace.OneAgentEnd | crates/bake-agent/src/agent_loop.rs:345-604 | in a well-formed trace the end of the run is the last event |
| AgentTrace.TranscriptIsEnds | crates/bake-agent/src/agent.rs:1386-1433 | the reducer’s transcript is what it started with and the payloads of the message ends, in order |
| AgentTrace.NothingPendingAtTurnEnd | crates/bake-agent/src/agent.rs:1386-1433 | at the end of every turn the reducer has no pending call |
| AgentTrace.OneAgentStart | crates/bake-agent/src/agent_loop.rs:239-240 | the start of the run is its first event, and no other |
| AgentTrace.MessageHasStart | crates/bake-agent/src/agent_loop.rs:762-826 | the end of a message has its start before it, with only its updates between |
| AgentTrace.TurnsAlternate | crates/bake-agent/src/agent_loop.rs:345-604 | between two starts of turns lies the end of one |
| AgentTrace.StartsAreEnded | crates/bake-agent/src/agent_loop.rs:1006-1107 | each start of a call has its own later end |
| AgentTrace.ReadingIs | crates/bake-agent/src/agent.rs:1386-1433 | one pass over the events finds the place, the messages and the reducer’s state that the definitions by position give |
| AgentTrace.OverIsSourcedBy | crates/bake-agent/src/agent_loop.rs:345-604 | what a finished run promises, spelled out in positions of events: one start and one end, paired messages, calls and turns, payloads, the rebuilt transcript |
| ToolChanges.DeclaresTools | crates/bake-agent/src/agent_loop.rs:613-679 | whatever is pending, the transcript with it declares exactly the tools the run can execute |
| ToolChanges.DeclaredCarries | crates/bake-agent/src/agent_loop.rs:613-679 | declaring loses, repeats and reorders none of the pending messages, changes only what tools they declare, and adds at most one in front |
| ToolChanges.NothingDue | crates/bake-agent/src/agent_loop.rs:613-679 | where nothing is due, the pending messages come out as they are |
| ToolChanges.ChangesLead | crates/bake-ai/src/utils/transcript.rs:178-211 | the additions and removals between two tool states lead from one to the other, and there are none exactly between equal states |
| RunLog.UnitIsWritten | crates/bake-agent/src/agent_loop.rs:318-342 | every unit a run’s log lists as delivered stands in its transcript, whole and in one piece |
| RunLog.UnitsKeepOrder | crates/bake-agent/src/agent_loop.rs:318-342 | in the order it was drained, before the next of its queue |
| RunLog.QueuesKeepApart | crates/bake-agent/src/agent_loop.rs:318-342 | and without overlapping one of the other queue |
| RunLog.OneUnitARequest | crates/bake-agent/src/agent_loop.rs:376-409 | between a request and the next at most one steering unit came in, in one-at-a-time mode |
| RunLog.RequestDeclaresTools | crates/bake-agent/src/agent_loop.rs:411-438 | every request is made of a transcript that declares exactly the executable tools |
| RunLog.ReplyWasAsked | crates/bake-agent/src/agent_loop.rs:440-465 | every reply in the transcript answers a request right before it |
| RunLog.ResultsAnswerReply | crates/bake-agent/src/agent_loop.rs:508-533 | the results in the transcript answer the calls of the reply right before them |
| AgentLoop.Run.Emit | crates/bake-agent/src/agent_loop.rs:205-207 | an event extends the trace and the reducer follows |
| AgentTrace.PayloadsNext | crates/bake-agent/src/agent_loop.rs:550-557 | every event keeps: the end of a turn carries its reply and the results after it, the end of the run all messages |
| AgentLoop.Run.AppendMessages | crates/bake-agent/src/agent_loop.rs:318-342 | transcript, new messages and events grow alike, by messages that carry the pending ones and leave exactly the executable tools declared |
| AgentLoop.Run.ToolEvents | crates/bake-agent/src/agent_loop.rs:1299-1319 | updates of running calls and events of nested calls change neither turn nor messages |
| AgentLoop.Run.RunCall | crates/bake-agent/src/agent_loop.rs:1014-1030 | a call starts and ends within its turn |
| AgentLoop.Run.CloseTurn | crates/bake-agent/src/agent_loop.rs:550-557 | the end of a turn carries the reply and its results |
| AgentLoop.Run.Continue | crates/bake-agent/src/agent_loop.rs:578-603 | the run goes on exactly for follow-ups or an explicit wish, and finds no follow-ups only when none is queued; else it ends with nothing in hand |
| AgentLoop.Run.Deliver | crates/bake-agent/src/agent_loop.rs:408-409 | the messages in hand, which are those of the units in hand, are written with the prepared ones in one log entry, and nothing is in hand after it |
| AgentLoop.Run.Reconcile | crates/bake-agent/src/agent_loop.rs:411-438 | a context that a hook replaces has its tools declared before the request uses it |
| AgentLoop.Run.Request | crates/bake-agent/src/agent_loop.rs:411-465 | one request enters the log, made of the current transcript, with the reply right after it if there is one; the count of its steering units starts over |
| AgentLoop.Run.StreamResponse | crates/bake-agent/src/agent_loop.rs:718-828 | a reply leaves exactly one message end, a refusal none |
| AgentLoop.Run.ExecuteSequential | crates/bake-agent/src/agent_loop.rs:1006-1045 | results answer a prefix of the calls by id, all of them unless aborted, and the events balance |
| AgentLoop.Run.ExecuteParallel | crates/bake-agent/src/agent_loop.rs:1047-1107 | the same for the outputs of the bounded join, whose futures end in any order |
| AgentLoop.Run.StartAll | crates/bake-agent/src/agent_loop.rs:1055-1096 | the calls start in order until an abort, and those that need no tool have ended |
| AgentLoop.Run.AwaitCalls | crates/bake-agent/src/agent_loop.rs:1066-1099 | polling the join ends every call that has started once and gives one outcome a call, in call order |
| AgentLoop.Run.EndCalls | crates/bake-agent/src/agent_loop.rs:1077-1090 | calls end at the latest when the join has their outcome, and each only once |
| AgentLoop.Run.EmitResults | crates/bake-agent/src/agent_loop.rs:1099-1106 | the result messages are those of the join’s outcomes, one each and in order; the batch terminates exactly when all of them ask for it and there is one |
| AgentLoop.Run.FailTruncated | crates/bake-agent/src/agent_loop.rs:836-862 | every call of a truncated message gets an error result |
| AgentLoop.Run.RunTools | crates/bake-agent/src/agent_loop.rs:508-533 | the batch’s results enter transcript, events and log alike; a truncated batch always continues |
| AgentLoop.Run.PrepareNext | crates/bake-agent/src/agent_loop.rs:376-405 | a second look at the queue only when the first found nothing |
| AgentLoop.Run.Prepare | crates/bake-agent/src/agent_loop.rs:376-409 | one delivery is logged before a request, of the units in hand if there are any, and no request gets two steering units in one-at-a-time mode |
| AgentLoop.Run.Turn | crates/bake-agent/src/agent_loop.rs:411-569 | a turn ends closed unless the control refused its request |
| AgentLoop.Run.Advance | crates/bake-agent/src/agent_loop.rs:365-576 | what was in hand is the first thing the pass logs as delivered, unless the control stops the run at the head of the loop |
| AgentLoop.Run.RunLoop | crates/bake-agent/src/agent_loop.rs:345-604 | every ending: the log accounts for all that was written, the last event carries all new messages, only a control stop leaves a turn open, every drained unit is in the log or returned as lost |
| AgentLoop.Run.OverIsSourced | crates/bake-agent/src/agent_loop.rs:345-604 | a finished run’s events promise all of that, and its messages are those the log accounts for |
| AgentLoop.Run.RunPrompt | crates/bake-agent/src/agent_loop.rs:224-263 | event sourcing of a whole run, prompts first, with every unit drained from a queue standing in the transcript in order or returned as lost |
| AgentLoop.Run.RunContinue | crates/bake-agent/src/agent_loop.rs:277-303 | the same for a run that continues a transcript without a prompt |
| AgentLoop.SelectContinue | crates/bake-agent/src/agent.rs:1016-1050 | a continue drains steering, else follow-ups, and skips the next poll only after steering |
| AgentLoop.ContinueRun | crates/bake-agent/src/agent.rs:1016-1047 | a continued run, with or without queued prompts: the units that stand in its transcript, in order, and those still queued are exactly the pushed ones; there is no run only when there is nothing to continue from |
| Delivery.Driver.Receive | crates/bake-codemode/src/vm.rs:328-350 | whatever the arrival order, exactly the longest run of answers without a gap has been applied, once each and in order |
| Delivery.Driver.ApplyNext | crates/bake-codemode/src/vm.rs:333-349 | one more answer applied: clock, state, Idle event and next number |
| Delivery.ClockIsLatest | crates/bake-codemode/src/vm.rs:334-341 | the clock is the latest of the start and the applied answers’ times |
| Delivery.IdlesAreNumbered | crates/bake-codemode/src/vm.rs:296-349 | the Idle events are numbered 0 to the last applied answer |
| Delivery.LaterAnswerKeeps | crates/bake-codemode/src/vm.rs:328-350 | an answer that comes later changes nothing already applied |
| Delivery.OrderDoesNotMatter | crates/bake-codemode/src/vm.rs:301-350 | two runs that accepted the same answers are in the same state |
| Delivery.SameAnswersSameMap | crates/bake-codemode/src/run.rs:395-426 | reordering arrivals with distinct numbers does not change what was accepted |
| Delivery.DeliverAll | crates/bake-codemode/src/vm.rs:301-350 | any arrival order ends in that state |
| CallLedger.Session.Call | crates/bake-codemode/assets/prelude.js:178-192 | a call enters prelude, host and book with one new id, or fails the run exactly when a limit is passed |
| CallLedger.Session.Answer | crates/bake-codemode/src/run.rs:365-382 | the errors in their order, and an answer moves its call from the book to the channel |
| CallLedger.Session.AnswerInOrder | crates/bake-codemode/src/run.rs:395-426 | the same with result numbers, none of them used twice |
| CallLedger.Session.Receive | crates/bake-codemode/src/vm.rs:316-350 | the places agree after every command, one call settled per answer applied, and nothing that could be applied is kept back |
| CallLedger.Session.Keep | crates/bake-codemode/src/vm.rs:332-332 | an answer before its turn moves from the channel to the kept ones |
| CallLedger.Session.Take | crates/bake-codemode/src/vm.rs:328-331 | an unnumbered answer settles its call at once |
| CallLedger.Session.ApplyNext | crates/bake-codemode/src/vm.rs:333-349 | the next numbered answer settles its call in prelude and host |
| CallLedger.Session.Drain | crates/bake-codemode/src/vm.rs:460-481 | a script is told it can never go on only when no answer is left anywhere, and always then |
| CallLedger.IssueKeepsLedger | crates/bake-codemode/src/host.rs:844-898 | a call within the limits keeps all four places in agreement |
| CallLedger.SendKeepsLedger | crates/bake-codemode/src/run.rs:395-426 | so does sending an answer |
| CallLedger.HoldKeepsLedger | crates/bake-codemode/src/vm.rs:332-332 | so does keeping one that is early |
| CallLedger.ApplyKeepsLedger | crates/bake-codemode/src/vm.rs:402-456 | so does applying one |
| CallLedger.NothingAnywhere | crates/bake-codemode/assets/prelude.js:490-501 | nothing pending in the prelude is the same as no answer to give, sent or held back |
| CallLedger.Interleave | crates/bake-codemode/src/vm.rs:260-352 | over every interleaving of script, owner and VM |
| Surrogates.ReplaceLoneSurrogateEscapes | crates/bake-codemode/src/host.rs:714-758 | the index-driven scan computes the rewriting of the text |
| Surrogates.Rewritten | crates/bake-codemode/src/host.rs:714-758 | the rewriting keeps the length |
| SurrogateText.RewritesToFixed | crates/bake-codemode/src/host.rs:714-758 | on well-formed strings it rewrites exactly the escapes of unpaired halves |
| SurrogateText.RewritingCommutes | crates/bake-codemode/src/host.rs:701-758 | rewriting and then reading is reading to UTF-16 and then replacing unpaired units by U+FFFD (section 7 of RFC 8259) |
| SurrogateText.UntouchedIffPaired | crates/bake-codemode/src/host.rs:751-757 | the text is returned as it is exactly when no unpaired half exists |
| SurrogateText.PairedIsStable | crates/bake-codemode/src/host.rs:708-713 | nothing unpaired is left |
| Wtf8.DecodeWtf8 | crates/bake-codemode/src/guest.rs:101-128 | the strict decoder when it accepts, else the scan by chunks |
| Wtf8.DecodingIsLossy | crates/bake-codemode/src/guest.rs:101-128 | of any WTF-8 text the result is the text with each lone surrogate replaced, whichever decoder ran |
| Wtf8.LossyKeepsLengths | crates/bake-codemode/src/guest.rs:96-100 | its length in UTF-16 units and in bytes is kept |
| Lifecycle.StepKeepsInv | crates/bake-agent/src/agent.rs:360-400 | every step keeps: the active run is the one not yet cleared, and no observer of a closed run executes |
| Lifecycle.OneRunAtATime | crates/bake-agent/src/agent.rs:1054-1111 | at most one run is open in any reachable state |
| Lifecycle.NoObserverAfterIdle | crates/bake-agent/src/agent.rs:1231-1246 | once idle is signalled no observer of the run executes, then or in any continuation |

## Left out

- Coercion.AcceptedIsFixedPoint: its two conditions are sufficient, and neither can be dropped, but some schemas that fail one have the property all the same; telling which would mean deciding whether a schema accepts anything at all.
- Checker.Validator.ErrorsOf: errors carry their path and keyword, not the wording of their message.
- CanonicalJson.AppendObject: objects are maps, so the order in which members were written is not modelled; loops over members visit them in any order.
- Checker.Validator.Check: the deadline may pass at any step; the cache of compiled patterns is not modelled.
- Validation.ValidateArguments: how many steps a given schema and value need is not bounded.
- Checker.NumberErrors: `multipleOf` is a parameter, since its rounding in floating point is not the point; bounds compare exact values.
- AdmissionRuns.NoWaiterIsStranded: states that a waiter can be brought back, not that a scheduler does so; fairness is not modelled.
- AdmissionLocks.NoCircularWait: an observer that calls back into its own interval while it is polled, and the locks inside the abort signal, are not modelled; neither is the order in which waiters get a lock.
- RunControls.RunControl.Observe: one poll runs to its end in the class; what other tasks may do between its parts is in the protocol only.
- NestedRuns.CloseEndsEverythingBelow: runs in which the tasks of a scope are aborted from outside, or the pipeline itself panics, are not modelled.
- NestedRuns.EverySummaryIsFaithful: durations, error texts and the summed usage of nested results are not part of the record.
- NestedCalls.StepKeepsPermit: any queued call may get the free permit, so the first-in-first-out order of the queue is not modelled.
- ToolChanges.Declared: tools are maps by name, so several executable tools of one name, and the order of tools, are not modelled; a declaration is its serialised text, and an empty list of changes is the same as none.
- AgentLoop.Run.Deliver: which message a change of tools is announced in is fixed by `ToolChanges.Declared`, and the loop’s contracts promise only what follows from it.
- AgentLoop.Run.RunLoop: `turns` bounds how much of a run is looked at, so an ending of `Running` concludes nothing; a run that fails with an error ends without its last event, and the failure turn reported afterwards is not modelled.
- JoinAll.Joining.Poll: the futures are answers given from outside; wakers are not modelled.
- AgentLoop.Run.AwaitCalls: a batch whose futures never all finish is not looked at.
- CallLedger.Session.Call: the script is any sequence of calls; QuickJS, the store and output limits are not modelled.
- Delivery.Driver.Receive: the guest is a deterministic function of its state, the answer and the clock.
- Wtf8.DecodingIsLossy: the standard library's decoders are parameters of which only their result on valid UTF-8 is used.
- Surrogates.ReplaceLoneSurrogateEscapes: texts are sequences of characters; all that the scan looks at is ASCII, so positions in bytes would be the same.
- HTTP, processes, files, the terminal interface, session storage and the adapters of providers are not part of this model.
- `declarations.rs`, search scoring, cost arithmetic and option parsing would only add easy members.
