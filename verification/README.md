# Hermes workflows: a verified model

A model in Dafny of the workflow engine's core, with proofs about every run it
can make. Six parts:

1. **Checker and interpreter.** Definitions are raw JSON values. `Lint` holds the
   recursive lint walks as they are written, each proved to report an error
   exactly when a predicate of `Definition` fails; `Interpreter` holds the
   interpreter as a mutable context, each method proved equal to a function of
   `Runtime`. About those functions, `Soundness` proves that validated workflows
   do not go wrong, and `WriteOnce`, `StatusRecords`, `Dispatch`, `AwaitBound` and
   `Cycles` prove scoping, status records, budgets and operator stops, the Kanban
   wait bound, and the exactness of the cycle search. What a run computes is stated
   apart from all of them: `References` is the reference grammar as a relation,
   `Meaning` the relation of a value to what it denotes, with Python's equality and
   truth from `Equality`, and `StepMeaning` tells from these what each step kind
   gives, which branch a condition takes, and what each call carries. `Plans` is a
   family of definitions, nested to any depth, that must be accepted, and
   `Refusals` traces each refusal to the step that exceeds the policy. `Primitives` puts the parts
   together: one method that validates and runs, with all of this as its contract. The agent runner, the operator log and
   the inputs are arbitrary.
2. **Guest scheduler and RPC connection.** `Pool` proves `parallel` and
   `pipeline` for every completion order; `Rpc` proves call/return matching over
   every cancellation-free interleaving, and exactly what cancellation breaks.
3. **Durable Kanban await.** `EventLog` (appends torn at any character),
   `Notify` (no lost wakeup in any interleaving), `Kanban` (latest-state
   records), `DurableAwait` (two version spaces joined into one) and `CardAlias`
   (real tasks and logical cards, under crashes between any two store writes).
4. **Two stores, one contract.** `Store` is the contract; `FileStore` and
   `SqliteStore` are proved to represent it after every call; `Backends` concludes
   that every read agrees, in every journal durability mode.
5. **Feedback-loop controller.** `Loop` proves that the `while True` ends within
   its brakes and that each final state means what it says; `LoopOutcomes` decides
   the final state from the caller's own answers, both ways; `Resources` proves
   resource merging, and `Closeouts` how the host's answers decide the closeout.
6. **Control log and schema subset.** `Controls` and `SchemaSubset`.

How to read it: a `class` has the source's own fields and methods; each method's
contract equates the new state with a function of the old one, and the laws are
lemmas about those functions. Where the repository promises more than its code
does, the model follows the code, and a lemma states exactly when the promise
holds; these cases are listed under "Where the code and its promises part".

## Model

| member | source | states |
|---|---|---|
| Primitives.WorkflowRun | src/hermes_workflows/primitives.py:434-541 | Validate, then run: a run is created exactly for the definitions both checks accept; it never fails for a reason they exclude and completes with exactly the predicted outputs; its calls stay within the policy, it obeys the operator at once, its records are well marked at every moment, and it is reported stopped or paused exactly when a check of its own saw a stop, or a leaf's check a pause without one |
| Primitives.EffectiveMaxParallel | src/hermes_workflows/primitives.py:399-407 | The caller's width capped by the policy's, never below 1, and unchanged when neither applies |
| Soundness.ValidatedWorkflowsDoNotGoWrong | src/hermes_workflows/runtime.py:217-262 | A definition that passes structural validation and the policy lint never fails with a missing dependency, a malformed or unavailable reference, an unknown kind or operator, a profile outside the policy, a malformed schema or a Python crash, for any runner, inputs and operator; a completed run holds exactly the outputs the lint predicted |
| Soundness.StepSound | src/hermes_workflows/runtime.py:236-252 | From a state whose output keys equal the lint's available set, a clean step keeps that equality and leaves its own output as the last one, or fails for a non-static reason |
| Soundness.SequenceSound | src/hermes_workflows/runtime.py:229-233 | The same invariant over sequences, in the declaration order the lint walks |
| Soundness.CleanValuesResolve | src/hermes_workflows/runtime.py:577-610 | A value whose references the lint accepts always resolves against the outputs available at that point |
| Soundness.DependenciesHold | src/hermes_workflows/runtime.py:255-262 | Dependencies the lint found available are met at run time |
| Soundness.IfSound | src/hermes_workflows/runtime.py:507-549 | Whichever branch an `if` takes, the invariant survives dropping what the branch published |
| Soundness.ConditionHolds | src/hermes_workflows/runtime.py:552-574 | A condition that passed validation evaluates, to the answer `Meaning.ConditionsAnswer` gives: known operator, reference available |
| Soundness.PolicyIsReadable | src/hermes_workflows/runtime.py:92-117 | A policy block the lint accepts is read by the runtime without an error, with the profile whitelist the lint used |
| Meaning.ResolvingIsDenoting | src/hermes_workflows/runtime.py:577-610 | A value resolves to another if and only if it denotes it: a string that is no reference denotes itself, an input reference the input given or nothing, an output reference what its path leads to from that step's output, entry by entry, a list or dict its parts; what is misspelt or unavailable denotes no value and is the only thing that fails |
| Meaning.ConditionsAnswer | src/hermes_workflows/runtime.py:552-574 | By operator: `eq` says whether what the reference denotes is the same as `value` up to how numbers are written, `ne` the opposite, `truthy` whether it is none of the seven falsy values, `exists` whether it denotes something but `None`; a reference that denotes nothing is an error for the first three, and any other operator always is |
| Meaning.OneAnswer | src/hermes_workflows/runtime.py:552-574 | A condition has at most one answer |
| StepMeaning.IfsMeanTheirCondition | src/hermes_workflows/runtime.py:507-549 | A completed `if` reports `then` exactly when its condition says yes and `else` when it says no; it ran the steps under that key and nothing else, and reports the output of the last of them, or an empty dict |
| StepMeaning.LeavesMeanWhatTheySay | src/hermes_workflows/runtime.py:265-356 | Every call an agent or Kanban step makes carries its agent or profile, what its input and task denote, `wait` and `durable`, each in its place; a completed leaf gives, and publishes, the dict that the runner answered that call with, which fits the declared schema |
| StepMeaning.CallsCompleteExactlyWhen | src/hermes_workflows/runtime.py:314-356 | A call completes if and only if the runner returns a dict that fits a well-formed schema, and each other answer is the failure named for it |
| StepMeaning.NoStepBeforeItsDependencies | src/hermes_workflows/runtime.py:255-262 | A step with a declared dependency that is not published fails for it, and does nothing; and only such a step does |
| StepMeaning.StepYields | src/hermes_workflows/runtime.py:236-252 | A completed step of any kind publishes what it gives under its id, and leaves it as the latest output |
| StepMeaning.SequenceYieldsItsLast | src/hermes_workflows/runtime.py:229-233 | A completed sequence ends in its completed last step, whose output is then the latest; an empty one changes nothing |
| StepMeaning.PipelinesYieldTheirLast | src/hermes_workflows/runtime.py:415-447 | A pipeline gives the output of its last step |
| StepMeaning.PhasesYieldTheirIds | src/hermes_workflows/runtime.py:451-504 | A phase gives the ids of its steps, in their order |
| StepMeaning.ParallelsJoinTheirBranches | src/hermes_workflows/runtime.py:359-412 | With distinct ids, a parallel step gives every branch's own published output under the branch's id, and nothing under any other |
| StepMeaning.ControlRefsAre | src/hermes_workflows/runtime.py:157-165 | The operator can stop a step by exactly its id, label, title, task title, agent and profile, where these are non-empty strings |
| Equality.EqualIsTheSamePlainly | src/hermes_workflows/runtime.py:569-573 | Two JSON values are equal under `==` if and only if they are the same once every bool and int is replaced by the number it stands for, at every depth |
| Equality.EqualityLaws | src/hermes_workflows/runtime.py:565-573 | Equality is reflexive, symmetric and transitive, and equal values are equally true |
| Equality.FalsyValues | src/hermes_workflows/runtime.py:565-566 | The falsy values are `None`, `False`, 0, 0.0 and the empty string, list and dict |
| Equality.MembershipIsTheSamePlainly | src/hermes_workflows/schema_subset.py:357-358 | A value is in a list exactly when it equals an element so |
| References.ReferencesAreRead | src/hermes_workflows/sandbox.py:59-90 | A string is read as an input reference exactly when it is spelled as one, as an output reference exactly to the shortest step id that it can be spelled with, as malformed exactly when it has the mark and no spelling, and otherwise as no reference; a final line break is passed over |
| References.SplitsOnlyOnce | src/hermes_workflows/runtime.py:599-606 | Paths that read the same have the same parts |
| Plans.PlansAreAcceptedExactlyWhen | src/hermes_workflows/sandbox.py:91-123 | Agents and cards, grouped and under conditions to any depth, with well-spelled names and known agents: the structure is accepted if and only if no id is used twice, and the lint passes if and only if every step reads only what is in its scope, where a group opens what is in it to later steps and a condition does not |
| Plans.PoliciesAreAcceptedExactlyWhen | src/hermes_workflows/sandbox.py:126-215 | Validation accepts a policy block if and only if the runtime can read it, it asks for neither network nor files nor a width below 1, and it holds no other key |
| Plans.PoliciesAreRead | src/hermes_workflows/runtime.py:48-117 | The runtime reads each limit and the profile list as given, zero included, and fails if and only if a limit is no count or the list is not one of safe names |
| Plans.PlainIdsAreRead | src/hermes_workflows/sandbox.py:59-90 | An id without dots, other than `inputs`, is what a reference to it refers to |
| Plans.InputsIsReadAsAnInput | src/hermes_workflows/sandbox.py:59-90 | A step called `inputs` cannot be referred to as a whole: the reference is read as the input `output` |
| WriteOnce.StepKeeps | src/hermes_workflows/runtime.py:236-252 | With distinct ids, no step changes or removes an output published before it, or adds any but under its own ids, also when it fails |
| WriteOnce.SequenceKeeps | src/hermes_workflows/runtime.py:229-233 | The same over sequences |
| WriteOnce.IfAddsOnlyItself | src/hermes_workflows/runtime.py:507-549 | A completed `if` leaves exactly the outputs it found plus its own |
| StatusRecords.RunsAreWellMarked | src/hermes_workflows/runtime.py:314-549 | At every moment of a run the running records, then the failed ones, are one chain of nested steps starting at a top-level step; whenever the runner is called the whole chain is running and ends in the calling leaf; a run that returns leaves all succeeded, one that raises leaves none running and the failed ones such a chain |
| StatusRecords.RegistryIsTheLastWrite | src/hermes_workflows/registry.py:96-103 | The record list a run leaves has one record per started step, holding the last status written for it |
| StatusRecords.UpsertAt | src/hermes_workflows/registry.py:96-103 | An upsert replaces the record of that id where it stands, or appends it |
| StatusRecords.PositionAfterUpsert | src/hermes_workflows/registry.py:96-103 | An upsert moves no other record |
| StatusRecords.StepEmits | src/hermes_workflows/runtime.py:236-252 | What one step writes is well marked at every prefix and ends as its outcome says |
| Dispatch.BudgetsBoundCalls | src/hermes_workflows/runtime.py:120-134 | No run, completed or failed, makes more runner calls or Kanban calls than the policy allows, through copied phase contexts too |
| Dispatch.BudgetsAreUsedUp | src/hermes_workflows/runtime.py:120-134 | A run that ends for want of agent calls, or of cards, has made exactly as many as the policy allows |
| Refusals.RefusalsAreReal | src/hermes_workflows/runtime.py:120-134 | A run that ends for its fan-out, its awaits or a profile has a step in its definition with more branches, more awaits at once, or another profile than allowed |
| Refusals.WideStepsAreRefused | src/hermes_workflows/runtime.py:359-376 | Such a parallel step is refused where it is reached, before it writes or calls anything, for its awaits first |
| Refusals.AdmittedExactlyWhen | src/hermes_workflows/runtime.py:120-165 | A leaf may make its call if and only if the log its check reads does not forbid it and the policy leaves room for one call more; then and only then it is charged |
| Dispatch.NoCallAfterTheOperatorSaysNo | src/hermes_workflows/runtime.py:137-165 | Once a control check sees a stop, or a leaf check a pause or a matching task stop, the run fails with that very denial and nothing but failure records follows; every call is immediately preceded by an allowed check of its own |
| Dispatch.DenialsAreTheOperators | src/hermes_workflows/primitives.py:426-431 | A run is denied as stopped if and only if one of its checks saw a stop, and as paused if and only if a leaf's check saw an unresumed pause and no stop |
| Dispatch.CheckReading | src/hermes_workflows/runtime.py:137-165 | The code of a check, read off the log: a stop first, then at a leaf a pause, then a stop of one of the leaf's names |
| Dispatch.StepDispatches | src/hermes_workflows/runtime.py:236-252 | Per step: calls made are calls charged, each guarded, none after a denial, and a denial is what the step fails with |
| Interpreter.Run | src/hermes_workflows/runtime.py:217-227 | A run on a fresh context has the outcome, outputs, records, counters and trace of the functional interpreter, and leaves in its store what every run promises, validated or not: calls within the policy, and all of a budget used up if the run ended for want of it, the operator obeyed, for distinct ids well-marked status records, one per started step, and no static failure on a definition both checks accept |
| Interpreter.RunContext.ExecSequence | src/hermes_workflows/runtime.py:229-233 | Steps in order, stopping at the first failure |
| Interpreter.RunContext.ExecParallelStep | src/hermes_workflows/runtime.py:359-412 | Branch cap, await cap, branches in order, results joined under branch ids |
| Interpreter.RunContext.ExecPhaseStep | src/hermes_workflows/runtime.py:451-504 | The copied context shares outputs and store, and its counters are copied back when the phase completes |
| Interpreter.RunContext.ExecIfStep | src/hermes_workflows/runtime.py:507-549 | Branch choice and removal of the branch's outputs; a completed `if` reports and ran the branch that its condition, as a relation on what the reference denotes, says |
| Interpreter.RunContext.Condition | src/hermes_workflows/runtime.py:552-574 | The answer, or the error, that the operator has on what the reference denotes |
| Interpreter.Outputs.ForgetSince | src/hermes_workflows/runtime.py:507-549 | Removing the new keys leaves the restriction to the old ones |
| Interpreter.RunStore.UpdateStep | src/hermes_workflows/registry.py:244-250 | One in-place upsert per write |
| Lint.Linter.ValidateStructure | src/hermes_workflows/schema.py:97-142 | Reports an error exactly when the definition breaks the structural rules |
| Lint.Linter.ValidateSteps | src/hermes_workflows/schema.py:145-206 | The same for step lists; the shared seen-ids set ends as the union with the list's ids |
| Lint.Linter.ValidateIf | src/hermes_workflows/schema.py:241-275 | The same for `if` steps |
| Lint.Linter.ValidateEffectContract | src/hermes_workflows/schema.py:285-300 | The same for the input and output schema of a leaf |
| Lint.Linter.LintPolicyBlock | src/hermes_workflows/sandbox.py:126-215 | Errors exactly when the policy block is malformed |
| Lint.Linter.LintAgentSteps | src/hermes_workflows/sandbox.py:226-293 | Errors exactly when some leaf has an unknown agent, a forbidden profile, an unknown dependency or a bad reference |
| Lint.Linter.LintIfSteps | src/hermes_workflows/sandbox.py:296-327 | Errors exactly when a condition, at any depth, has a bad reference |
| Lint.Linter.LintRefs | src/hermes_workflows/sandbox.py:330-383 | Errors exactly when a string at any depth of a value is a malformed reference or names an unknown step |
| Lint.Linter.LintRefsAvailable | src/hermes_workflows/sandbox.py:446-478 | Errors exactly when a string at any depth refers to a step not available yet |
| Lint.Linter.WalkStep | src/hermes_workflows/sandbox.py:386-443 | Errors exactly when declaration order is violated below the step; the available set ends as the static scoping function says |
| Lint.Linter.WalkSteps | src/hermes_workflows/sandbox.py:386-443 | The same over a step list |
| Lint.Linter.LintCycles | src/hermes_workflows/sandbox.py:481-519 | Reports an error exactly when the dependency graph has a cycle |
| Lint.Linter.PolicyLint | src/hermes_workflows/sandbox.py:91-123 | All lints together, errors and warnings each exactly when their predicate fails |
| Lint.IterAgentSteps | src/hermes_workflows/schema.py:303-332 | Yields the leaves in document order, through every container and both branches |
| Lint.CollectAllStepIds | src/hermes_workflows/sandbox.py:522-535 | Collects exactly the ids at any depth |
| Lint.WorkflowValidate | src/hermes_workflows/primitives.py:344-397 | Accepts exactly the structurally valid definitions that pass the lints and, in strict mode, draw no warning; a warning is drawn exactly when the policy block is missing, a leaf has no output schema, or some reference names an undeclared input; the cycle lint never changes the verdict, which is proved from the order lint |
| Cycles.FindCyclic | src/hermes_workflows/sandbox.py:481-519 | The search reports a node exactly when the graph has a cycle, and every reported node lies on one |
| Cycles.Search.Visit | src/hermes_workflows/sandbox.py:495-512 | The three-colour invariant: grey nodes are the path to the current one, and without a report black nodes are in reverse topological order |
| Cycles.BackEdge | src/hermes_workflows/sandbox.py:495-512 | An edge into the current path puts both its ends on a cycle |
| Cycles.DescendingIsAcyclic | src/hermes_workflows/sandbox.py:481-519 | A reverse topological order of all nodes excludes cycles |
| Cycles.EdgesAreDependencies | src/hermes_workflows/sandbox.py:481-494 | The edges searched are exactly the declared dependencies of the leaves, an id declared twice having the union |
| Cycles.DeclarationOrderIsAcyclic | src/hermes_workflows/sandbox.py:386-443 | Unique ids and a clean execution-order lint imply an acyclic dependency graph |
| AwaitBound.NeverMoreWaitsThanCounted | src/hermes_workflows/runtime.py:168-196 | Under free interleaving of branches and any choice of `if` branches, the waits active at once never exceed the count |
| AwaitBound.TheCountIsReached | src/hermes_workflows/runtime.py:168-196 | Some schedule and choice reaches the count exactly |
| AwaitBound.OuterGuardCoversInner | src/hermes_workflows/runtime.py:359-376 | When the count of a whole step is within the limit, no await guard inside it can fire |
| Pool.Pool.Join | src/hermes_workflows/vm_guest.py:417-435 | For every completion order: at most `width` items run at once, items start once each in index order, nothing starts after an observed failure, and the loop ends, with the results in order or with the error of some item |
| Pool.Parallel | src/hermes_workflows/vm_guest.py:403-435 | `parallel` returns exactly when every thunk returns, with the sequential map as result; otherwise it raises some failing thunk's own error |
| Pool.Pipeline | src/hermes_workflows/vm_guest.py:437-478 | `pipeline` returns exactly when every item has a chain of values, from the item through each stage's answer to the value before it, and each result is the end of its item's chain; otherwise it raises what some item's stage raised on the end of a chain up to that stage |
| Pool.ItemMeans | src/hermes_workflows/vm_guest.py:437-478 | For any stages and item: the stages, in order, either lead from the item to one value or stop at one stage's own error |
| Pool.Pool.Wait | src/hermes_workflows/vm_guest.py:425-433 | Whatever the event loop reports done has ended, and at least one item is reported |
| Pool.Pool.StartReady | src/hermes_workflows/vm_guest.py:417-421 | Refilling keeps the width and leaves nothing idle while items wait |
| Rpc.EveryCallGetsItsOwnAnswer | src/hermes_workflows/vm_guest.py:182-264 | In every cancellation-free run: a resolved asynchronous call holds its own answer (or learns of a closed channel), an unresolved one is pending with a live reader, a synchronous call returns its own answer and never runs beside a reader |
| Rpc.ResolvedOnce | src/hermes_workflows/vm_guest.py:229-264 | A resolved future is never touched again |
| Rpc.PendingCallsProgress | src/hermes_workflows/vm_guest.py:210-257 | While a call is pending on an open channel some delivering step is enabled |
| Rpc.DeliveryShortens | src/hermes_workflows/vm_guest.py:229-257 | Every delivering step brings all pending calls strictly nearer their answers |
| Rpc.PendingCallsAreResolved | src/hermes_workflows/vm_guest.py:210-264 | From every moment of a cancellation-free run, on a closed channel too, the parent's answers and the reader alone can resolve every pending call |
| Rpc.StepKeepsInv | src/hermes_workflows/vm_guest.py:171-264 | The invariant tying futures, pending calls, the reader, frames under way and unanswered ids, under every step but a cancellation |
| Rpc.ReaderIsKeptExactlyWhen | src/hermes_workflows/vm_guest.py:210-257 | Over any run, with cancellations: pending calls have a reader at every moment if and only if the reader never takes up the frame of a cancelled call while another is pending |
| Rpc.StrandedExactlyWhen | src/hermes_workflows/vm_guest.py:210-257 | At each moment of any run, calls are stranded if and only if some are pending and the last reader ended on a cancelled call; the next asynchronous call revives them |
| Rpc.SyncCallIsSafeExactlyWhen | src/hermes_workflows/vm_guest.py:182-207 | After any run, a synchronous call past its guard gets its own answer in every continuation if and only if, as it is sent, no frame is waiting and either the channel is closed or nothing is unanswered and no reader is receiving |
| Rpc.GuardSufficesWithoutCancellation | src/hermes_workflows/vm_guest.py:182-192 | In a run without cancellations the guard alone implies that |
| Rpc.CancellationCanStrandACall | src/hermes_workflows/vm_guest.py:225-256 | A run in which a cancellation leaves another call pending, its answer unread, until another call restarts the reader |
| Rpc.CancellationCanMisdirectASyncCall | src/hermes_workflows/vm_guest.py:182-227 | A run in which a synchronous call passes its guard and takes a cancelled call's frame |
| Rpc.Connection.BeginACall | src/hermes_workflows/vm_guest.py:210-227 | The fields change as the step relation says: new id, pending future, reader started if there was none |
| Rpc.Connection.BeginCall | src/hermes_workflows/vm_guest.py:182-192 | The guard refuses exactly when asynchronous calls are pending |
| Rpc.Connection.EndCall | src/hermes_workflows/vm_guest.py:192-207 | Under the invariant the frame received is the call's own |
| Rpc.Connection.HandleReceived | src/hermes_workflows/vm_guest.py:237-257 | One turn of the reader loop |
| Rpc.Connection.FailPending | src/hermes_workflows/vm_guest.py:259-264 | Fails exactly the unresolved pending futures and clears the table |
| EventLog.TornWritesHarmOnlyThemselves | src/hermes_workflows/script_store.py:1283-1352 | Under any mix of completed appends and appends cut at any character, a reader gets exactly the complete lines, each at the number its appender computed |
| EventLog.CompletedAppendsStay | src/hermes_workflows/script_store.py:1283-1322 | A completed append is read back in every later state at exactly the `seq` it returned |
| EventLog.NothingIsInvented | src/hermes_workflows/script_store.py:1324-1352 | Every event read was passed to some append, at the number that append computed |
| EventLog.OneOperation | src/hermes_workflows/script_store.py:1283-1322 | One append or tear adds its own event or nothing, and keeps the counts aligned |
| EventLog.SeqIsExactlyRightWhen | src/hermes_workflows/script_store.py:1376-1403 | On any text, torn tails included, the appended line is the reader's next line, numbered as returned, if and only if it holds no Unicode line separator and none has yet set the two counts apart |
| EventLog.ReadBackExactlyWhen | src/hermes_workflows/script_store.py:1324-1352 | On any text whose counts agree, an appended event is read back at its `seq` if and only if its own text has no separator |
| EventLog.Log.Append | src/hermes_workflows/script_store.py:1283-1322 | The bytes written and the `seq` returned; on an aligned log the event is added there |
| EventLog.ReadPast | src/hermes_workflows/script_store.py:1324-1352 | The decodable lines after the given number |
| EventLog.Shape | src/hermes_workflows/script_store.py:1376-1403 | Physical line count, and a closing newline exactly when the log ends mid-line |
| EventLog.SplitLines | src/hermes_workflows/script_store.py:1324-1352 | The reader's line splitting |
| Notify.NoLostWakeup | src/hermes_workflows/kanban_notify.py:106-153 | In every interleaving, a consumer asleep although an event it would accept is logged implies that this event's notify is still to come, and that it will wake the consumer |
| Notify.AwaitsAreHonest | src/hermes_workflows/kanban_notify.py:379-418 | An await returns only an accepted event newer than asked, and gives up only when its last read held none |
| Notify.ReadsReturnTheNewest | src/hermes_workflows/kanban_notify.py:420-435 | A read that finds an acceptable event returns, with the newest one |
| Notify.AwaitsReturnAsAsked | src/hermes_workflows/kanban_notify.py:379-435 | In any run, what an await returned on is completed, failed or blocked, newer than asked for, and blocked only if the caller accepts blocked cards |
| Notify.ReadsReturnExactlyWhen | src/hermes_workflows/kanban_notify.py:420-435 | A read ends the await if and only if past its version there is a completed or failed event, or a blocked one and the caller accepts that; a blocked event alone never ends an await asked without it |
| Notify.StepKeepsInv | src/hermes_workflows/kanban_notify.py:106-153 | The invariant between log, outstanding notifies, counter and each consumer's seen value |
| Notify.LatestAccepted | src/hermes_workflows/kanban_notify.py:420-435 | The loop returns the newest acceptable version past the given one |
| Notify.Subscription.BeginWait | src/hermes_workflows/kanban_notify.py:113-120 | Returns at once exactly when a notify raced in since the last look |
| Notify.Subscription.EndWait | src/hermes_workflows/kanban_notify.py:113-120 | After waking, or timing out, the counter seen is the entry's, as in the step relation |
| Kanban.TerminalIsFinal | src/hermes_workflows/script_store.py:1211-1220 | A stored terminal status never becomes non-terminal, whatever is written later |
| Kanban.LastOutcomeStands | src/hermes_workflows/script_store.py:1193-1237 | Of any writes to a card's record the last completed or failed one stands, run id apart |
| Kanban.OtherwiseTheLastStands | src/hermes_workflows/script_store.py:1193-1237 | And without such a write the last one stands |
| Kanban.RunIdStays | src/hermes_workflows/script_store.py:1193-1237 | A stored run id survives every write that names no other |
| Kanban.RoundTrip | src/hermes_workflows/kanban.py:571-619 | A resolution stored as a record and read back is unchanged if and only if it is an outcome with a dict for result; what comes back once, from any record, is stable under storing again |
| DurableAwait.VersionsStrictlyIncrease | src/hermes_workflows/kanban.py:647-738 | Versions returned for a card strictly increase over any sequence of awaits |
| DurableAwait.ServedAtMostOnce | src/hermes_workflows/kanban.py:691-738 | The durable record is served at most once, only to `after_version` 0 and only if acceptable |
| DurableAwait.RecordEndsTheAwaitExactlyWhen | src/hermes_workflows/kanban.py:691-738 | The durable record ends an await if and only if that is the first from version 0 and the record says completed or failed, or blocked and the caller accepts that |
| DurableAwait.LogAnswersExactlyWhen | src/hermes_workflows/kanban_notify.py:420-435 | An event-log backend answers if and only if past the version there is such an event, and then with the newest |
| DurableAwait.AwaitsReturnAsAsked | src/hermes_workflows/kanban.py:691-738 | Over any awaits, whatever the record or an event-log backend ends one with is completed, failed or blocked, and blocked only if that await accepts it |
| DurableAwait.InnerEventsNotRepeated | src/hermes_workflows/kanban.py:691-738 | Inner events of positive version are delivered in strictly increasing order |
| DurableAwait.RedeliveryIsRefusedExactlyWhen | src/hermes_workflows/kanban.py:691-738 | A re-delivered inner event is refused if and only if a positive inner version had been consumed and the record does not answer instead; if neither, it is returned again under a new version |
| DurableAwait.DeliveredEventIsServedExactlyWhen | src/hermes_workflows/kanban.py:647-738 | After an event was delivered live, the next await returns it again from the record if and only if it asks from 0, the card was not served yet, the event is an outcome it accepts, and no outcome followed it in the log |
| DurableAwait.MirroredEventIsServedExactlyWhen | src/hermes_workflows/kanban.py:647-738 | The same for any inner backend, when the log holds no outcome: the event comes back from the card's state if and only if the next await asks from 0, the card was not served yet, the event is an accepted outcome with a dict for result, and no terminal state kept it out |
| DurableAwait.ServedEventComesBackUnless | src/hermes_workflows/kanban.py:691-738 | After the record was served, the next await, on an event-log backend, returns live the very event that was served, under a new version, if and only if nothing acceptable was appended since |
| DurableAwait.DurableKanbanBackend.AwaitResolution | src/hermes_workflows/kanban.py:691-738 | The wrapper's fields and the mirrored record after one await, other cards untouched, also when the write fails |
| CardAlias.ReportsReachTheirCard | src/hermes_workflows/hermes_kanban.py:218-285 | Over any calls, crashes between store writes, reports and awaits: once a call has returned for a card, reports on a task recorded for it land in that card's log and no other |
| CardAlias.NormalReturnsAreMapped | src/hermes_workflows/hermes_kanban.py:615-661 | A call that opens a task and returns has recorded it and mapped it to the card |
| CardAlias.FirstCallRecords | src/hermes_workflows/hermes_kanban.py:602-661 | The first call for a card that opens a task leaves a waiting record at version 0 with its profile, run and task, and under the task an alias record that names the card, and touches no other record |
| CardAlias.ReturnedTasksStayReported | src/hermes_workflows/hermes_kanban.py:582-661 | From a call that opened a task and returned on, whatever calls, crashes and reports come between, reports on the task land in its card's log and no other |
| CardAlias.NoSecondCreate | src/hermes_workflows/hermes_kanban.py:582-661 | Once anything durable is known of a card, no sequence of calls asks the board to create a task for it again |
| CardAlias.CreatesAreCounted | src/hermes_workflows/hermes_kanban.py:582-661 | Over any calls and crashes the board is asked for a card at most once more than calls for it ended before anything was recorded |
| CardAlias.ReattachMapsExactlyWhen | src/hermes_workflows/hermes_kanban.py:615-661 | A reattaching call leaves a task mapped if and only if it was mapped or the record still names it |
| CardAlias.EarlyMirrorWouldLoseTheTask | src/hermes_workflows/script_store.py:1193-1237 | Why an await has to follow a normal return: were an outcome mirrored between a card's record and its alias, no later calls, of any kind, would ever map the task again |
| CardAlias.StepKeepsInv | src/hermes_workflows/hermes_kanban.py:602-661 | The invariant between tasks opened, records, aliases and returned cards, under every step and crash point |
| CardAlias.HermesKanbanBackend.Create | src/hermes_workflows/hermes_kanban.py:615-661 | `create_or_reattach`, one store write at a time, for every point at which it can die |
| Store.NothingIsDropped | src/hermes_workflows/script_store.py:1474-1515 | In every durability mode the stored journal followed by the buffer is the full event sequence |
| Store.ModesAgree | src/hermes_workflows/script_store.py:968-1016 | After the same calls the modes agree on everything but what is buffered |
| Store.WaitOrdersDifferExactlyWhen | src/hermes_workflows/script_store.py:1245-1263 | Listing by file name and listing by card id order two cards differently if and only if one id continues the other and, where the continuation and a dot first depart from `.json`, has the smaller character |
| Store.FinishedJournalsAreStored | src/hermes_workflows/script_store.py:968-1016 | Once a run is finished and journals no more, nothing of its journal is left in a buffer, whatever else is called |
| Store.LastFinishStands | src/hermes_workflows/script_store.py:968-1016 | Over any calls, a run has the status, meta, value and error of its last `finish` |
| Store.FirstBeginStands | src/hermes_workflows/script_store.py:880-927 | And the script, args, limits, determinism and replay origin of its first `begin` |
| Store.CardsHoldTheirWrites | src/hermes_workflows/script_store.py:1193-1263 | Over any calls, a card's record is what its writes leave, one after the other, and its events are those appended, in order |
| Store.RecordedCallsStay | src/hermes_workflows/script_store.py:365-428 | What was recorded for a call is what the cache answers, whatever follows |
| Store.RecordedPromptsStay | src/hermes_workflows/script_store.py:416-428 | The same of prompts |
| Store.WaitsAreTheOpenCards | src/hermes_workflows/script_store.py:1245-1263 | The waits are exactly the recorded cards that are not completed, failed or an alias |
| FileStore.FileSimulates | src/hermes_workflows/script_store.py:880-1016 | Every call on the files does what it does on the represented store |
| FileStore.ScriptRunStore.Do | src/hermes_workflows/script_store.py:880-1016 | The files and buffers after each call |
| FileStore.ScriptRunStore.FlushJournalLocked | src/hermes_workflows/script_store.py:1504-1515 | Buffered lines are written once and then forgotten |
| FileStore.ScriptRunStore.AppendToJournal | src/hermes_workflows/script_store.py:1474-1492 | Write through, buffer, or buffer and flush, by mode and count |
| FileStore.ScriptRunStore.LoadCache | src/hermes_workflows/script_store.py:1028-1132 | The cache read line by line, or the corruption |
| FileStore.ScriptRunStore.RecentJournal | src/hermes_workflows/script_store.py:1134-1150 | The last `limit` stored events in order |
| FileStore.ScriptRunStore.ReadKanbanEvents | src/hermes_workflows/script_store.py:1324-1352 | The decodable lines of the card's text log, numbered by line, past the given position |
| FileStore.ScriptRunStore.AppendKanbanEvent | src/hermes_workflows/script_store.py:1283-1322 | The line is written after closing a torn one, and its number returned |
| FileStore.FileReadsEvents | src/hermes_workflows/script_store.py:1324-1352 | From the text of a represented log, splitting and decoding give exactly the events appended, past the position |
| FileStore.AppendedEventReadsBackExactlyWhen | src/hermes_workflows/script_store.py:1283-1352 | An appended event is read back under the next number if and only if its text has no line separator |
| SqliteStore.SqliteSimulates | src/hermes_workflows/script_store_sqlite.py:387-527 | Every call on the tables does what it does on the represented store |
| SqliteStore.SqliteReads | src/hermes_workflows/script_store_sqlite.py:539-650 | Cache, journal and event reads return the represented store's |
| SqliteStore.TopIsLastN | src/hermes_workflows/script_store_sqlite.py:628-650 | The newest rows in descending order, reversed, are the last ones of the sequence |
| SqliteStore.ReopeningKeepsTheNumbering | src/hermes_workflows/script_store_sqlite.py:938-943 | A new process carries on the journal numbering where the stored rows end |
| SqliteStore.SqliteScriptRunStore.NextJournalSeq | src/hermes_workflows/script_store_sqlite.py:938-943 | On a represented journal the next number is one past every row stored and buffered |
| SqliteStore.SqliteScriptRunStore.AppendJournalLocked | src/hermes_workflows/script_store_sqlite.py:919-936 | Numbered rows written through or buffered, by mode |
| SqliteStore.SqliteScriptRunStore.FinishRun | src/hermes_workflows/script_store_sqlite.py:481-527 | Terminal row, final event, forced flush |
| SqliteStore.SqliteScriptRunStore.AppendKanbanEvent | src/hermes_workflows/script_store_sqlite.py:745-796 | The event is added under the number returned |
| SqliteStore.SqliteScriptRunStore.Record | src/hermes_workflows/script_store_sqlite.py:243-277 | A duplicate call id is refused and changes nothing |
| Backends.BackendsAgree | src/hermes_workflows/script_store_sqlite.py:280-338 | After the same calls both backends answer every read alike: runs, caches, journals, cards, waits as a set, card events from text and from rows |
| Backends.ModesAgreeOnFinishedRuns | src/hermes_workflows/script_store_sqlite.py:481-527 | In any two durability modes, and from either backend, a run that was finished and is not journaled to afterwards reads back the same journal, wherever among the calls its `finish` was |
| Backends.FinishedRunsReadBackWhole | src/hermes_workflows/script_store.py:968-1016 | And that journal is the last events of everything the run was told |
| Backends.FinishedRunsLoadAsFinished | src/hermes_workflows/script_store_sqlite.py:387-527 | On either backend a finished run loads with its last `finish`'s status, meta, value and error and its first `begin`'s script, args, limits, determinism and replay origin, field by field, whatever other calls there were |
| Backends.UnfinishedRunsLoadAsBegun | src/hermes_workflows/script_store.py:880-927 | And a run that was not finished as it was begun |
| Backends.SeparatorsHideEventsFromTheFileStore | src/hermes_workflows/script_store.py:1324-1352 | For any event: the database gives it back under its number, the text log if and only if its text has no line separator |
| Backends.DuplicateIdsPoisonTheFileCache | src/hermes_workflows/script_store.py:365-428 | A cache line makes the file cache unloadable if and only if its id is already there or it is a failure without a code |
| Loop.LoopRun | src/hermes_workflows/loops.py:238-477 | Every loop ends, in the one status its turns lead to, which the sensor's, the clock's and the actions' own answers explain; closeout decides the final state |
| Loop.RunToStop | src/hermes_workflows/loops.py:312-467 | The `while True` ends, with the first status of the turns that is a stop |
| Loop.RunsAreDetermined | src/hermes_workflows/loops.py:312-467 | The same answers from outside lead to one final status only |
| Loop.RunsStop | src/hermes_workflows/loops.py:312-467 | Whatever status a run stops with is explained: each way of stopping is what its name says, after the calls and looks at the clock it takes to get there |
| Loop.TurnKeeps | src/hermes_workflows/loops.py:312-467 | A turn stops for an explained reason or completes exactly one more action |
| Loop.StoppedRunsAreBounded | src/hermes_workflows/loops.py:312-467 | At most `max_steps` actions and `max_steps`+1 iterations |
| Loop.SensorCallsAreBounded | src/hermes_workflows/loops.py:569-596 | At most (`max_steps`+1)(`max_sensor_retries`+1) sensor calls |
| Loop.StoppedRunsAreAffordable | src/hermes_workflows/loops.py:368-467 | Whatever stopped it, the actions are the first answers to the action calls, cost at most `max_cost` without the last one, and have all their declarations registered |
| Loop.SensingsAndActionsAlternate | src/hermes_workflows/loops.py:312-467 | The history of calls holds as many of each kind as the status counts, sensings and actions in turn |
| Loop.ReadingsAreTheSensors | src/hermes_workflows/loops.py:569-596 | Every reading is the sensor's answer to the call that ended its sensing, and not noise |
| Loop.ConvergedMeansSensedConvergence | src/hermes_workflows/loops.py:346-352 | A final `converged` means the sensor's last answer converged and was not noise, no action followed it, and no required finalizer failed |
| Loop.SensorErrorsAreTheSensors | src/hermes_workflows/loops.py:322-345 | A run halted on a sensor error ends on a sensor that raised, or was noise through every retry |
| LoopOutcomes.WaitsExactlyWhenAsked | src/hermes_workflows/loops.py:368-467 | No action before the last was denied a grant or asked to suspend; and the run ends over budget, denied, waiting for an event or waiting for an approval if and only if the last action was completed in time and, in this order, cost too much in all, was denied, or asked for just that |
| LoopOutcomes.SuspensionsAreWaitedFor | src/hermes_workflows/loops.py:453-467 | An action that asks to suspend is the last one; completed in time, within the cost and not denied, the run waits for what it asked |
| LoopOutcomes.StopsBeforeActingExactlyWhen | src/hermes_workflows/loops.py:312-400 | Only the last reading can have converged; the run ends converged if and only if that was in time, with a sensor error if and only if a sensing gave no reading, and with an actuator error or the step cap if and only if the last reading left it to act and there was no actuator, it raised, or no step was left |
| Loop.TimeCapExactlyWhen | src/hermes_workflows/loops.py:312-467 | A run is out of time if and only if the clock was late at one of its looks, four a turn; that look was its last |
| Loop.StalledExactlyWhen | src/hermes_workflows/loops.py:354-366 | For every brake k: a run ends stalled if and only if it has at least two signals, they end on k equal ones, the last reading did not converge, and the look at the clock after it was in time |
| Loop.NotStalledBefore | src/hermes_workflows/loops.py:354-366 | At no earlier reading did its signals end so |
| Loop.BrakeOfOneStallsOnTheSecondReading | src/hermes_workflows/loops.py:360-366 | With k = 1 a run has at most two readings, and the second stalls it whatever it says, unless it converged or the clock was late after it |
| Loop.NoLongerStretch | src/hermes_workflows/loops.py:354-366 | Bounded repetition counts exclude any longer window of equal signals |
| Loop.ReadSensor | src/hermes_workflows/loops.py:569-596 | Retries on noise only, up to the limit |
| Loop.ClearIsTheFirstClearReading | src/hermes_workflows/loops.py:569-596 | The reading used is the first without noise; a sensing gives up exactly on a raise or on noise to the end |
| Loop.RunSensing | src/hermes_workflows/loops.py:312-366 | The sensing half of a turn, as steps on the status |
| Loop.RunActing | src/hermes_workflows/loops.py:368-467 | The acting half, as steps on the status |
| Loop.Closeout | src/hermes_workflows/loops.py:966-1027 | Results of the finalizers due for the final state's trigger, none for waiting states, and the state they leave |
| Closeouts.CloseoutDecides | src/hermes_workflows/loops.py:966-1027 | Every result answers for a finalizer registered for what the run stopped with (success when converged, timeout when out of time, failure for every other halt, none while waiting), with the status its policy and the host's answer give; the run ends in a finalizer error if and only if a required one of these was not answered as done |
| Closeouts.RequiredFailureExactlyWhen | src/hermes_workflows/resources.py:339-345 | A required finalizer has failed if and only if the host did not say it succeeded, absent hosts and malformed answers included |
| Closeouts.RunOneCame | src/hermes_workflows/resources.py:347-457 | What each policy and answer make of a finalizer: preserved, left for approval, skipped, succeeded or failed |
| Resources.RegistrationsMerge | src/hermes_workflows/loops.py:894-945 | Any sequence of registrations leaves unique ids in first-seen order, each resource the right-biased merge of its declarations |
| Resources.MergeIsRightBiased | src/hermes_workflows/loops.py:948-963 | One finalizer per id: the last declared, at the place of the first |
| Resources.RegisteringAgainIsIdle | src/hermes_workflows/loops.py:894-945 | Declaring the same resource again changes nothing |
| Resources.MergeFinalizers | src/hermes_workflows/loops.py:948-963 | The loop with its index of positions computes that merge |
| Resources.RegisterResources | src/hermes_workflows/loops.py:894-933 | The loop computes the registration of each in turn |
| Resources.FirstDeclarationsAreKept | src/hermes_workflows/resources.py:272-298 | Within one action each id is kept once, with its first declaration |
| Resources.NormalizeEnvelopes | src/hermes_workflows/resources.py:272-298 | The loop keeps exactly those |
| Resources.RunFinalizers | src/hermes_workflows/resources.py:301-336 | The nested loops produce the results due, given those already there |
| Resources.OneResultPerFinalizer | src/hermes_workflows/resources.py:301-336 | Exactly one result for each declared (resource, finalizer) due at the trigger without one, and no other |
| Resources.ClosingOutAgainIsIdle | src/hermes_workflows/resources.py:301-336 | Closing out again with those results runs nothing |
| Controls.ProjectReadsTheLog | src/hermes_workflows/controls.py:701-795 | The fold is the declarative reading: a stop anywhere stops for good and names the first one; otherwise the last pause or resume decides; the row lists are the log filtered by action |
| Controls.ProjectControlState | src/hermes_workflows/controls.py:701-795 | The loop computes the fold |
| Controls.LastMatchIsLastRecord | src/hermes_workflows/controls.py:1243-1249 | The row found for a target is that of the log's last matching record |
| Controls.LastMatchLoop | src/hermes_workflows/controls.py:1243-1249 | The loop returns the last match |
| Controls.StartChildReading | src/hermes_workflows/controls.py:896-898 | New work may start if and only if there is no stop and the last pause or resume is not a pause |
| Controls.ContinueTaskReading | src/hermes_workflows/controls.py:901-903 | A task may continue if and only if neither the run nor that task was stopped |
| Controls.RetryTaskReading | src/hermes_workflows/controls.py:843-909 | A retry may go ahead if and only if the run was not stopped and does not end paused, and its target was neither stopped nor retried; otherwise the first of a stop, a stop of the target, a retry of it and a pause is the reason |
| Controls.CheckRunReading | src/hermes_workflows/controls.py:911-918 | A run may be checked if and only if there is no stop |
| Controls.StopKeepsItsRecord | src/hermes_workflows/controls.py:798-893 | A stop denial stays the same denial, naming the same control, under every extension of the log |
| Controls.DenialIsPermanentUnlessPaused | src/hermes_workflows/controls.py:798-893 | A denial survives every extension of the log if and only if its code is `run_stopped`, `task_stopped` or `retry_exists` |
| Controls.ControlBucket.Append | src/hermes_workflows/controls.py:355-362 | A known control id is a no-op that returns the stored record |
| Controls.ControlBucket.RetryTarget | src/hermes_workflows/controls.py:548-597 | An unforced retry returns the last recorded one and writes nothing; a forced or first one is appended under the next attempt |
| Controls.RetriesAreNumbered | src/hermes_workflows/controls.py:548-597 | Over any history, the retries of each target are numbered 1..n and every control id is distinct |
| Controls.FreshRetryId | src/hermes_workflows/controls.py:548-597 | On a numbered log the id of the attempt about to be minted is not stored yet, so a forced retry is never swallowed as a repeat |
| Controls.DenialNamesTheReusedRetry | src/hermes_workflows/controls.py:859-878 | On every log, the record the retry check finds is the last retry of the target |
| Controls.RetryExistsSurfacesLineage | src/hermes_workflows/controls.py:859-878 | A `retry_exists` denial carries the id, replacement and attempt of the record an unforced retry returns |
| Controls.RacingRetriesConverge | src/hermes_workflows/controls.py:548-597 | Two forced retries that both read before either wrote settle on one record |
| SchemaSubset.NormalizeIsIdempotent | src/hermes_workflows/schema_subset.py:179-193 | Normalizing a normalized schema returns it unchanged |
| SchemaSubset.NormalizeNodeIsIdentity | src/hermes_workflows/schema_subset.py:266-315 | A node that normalizes is already normal |
| SchemaSubset.LegacyNodeIsNormal | src/hermes_workflows/schema_subset.py:317-345 | What a flat schema normalizes to is a normal node, whatever its hints |
| SchemaSubset.NormalizeLegacyFlat | src/hermes_workflows/schema_subset.py:317-325 | The loop builds that node |
| SchemaSubset.CheckIsSatisfaction | src/hermes_workflows/schema_subset.py:348-387 | On every payload and nested schema, the payload satisfies the schema if and only if the checker accepts it and no lone `additionalProperties: false` was passed over |
| SchemaSubset.LoneAdditionalPropertiesIsNotEnforced | src/hermes_workflows/schema_subset.py:360-381 | A payload the documented meaning rejects and the checker accepts |
| SchemaSubset.TypeAgrees | src/hermes_workflows/schema_subset.py:348-359 | Type names accept the Python types they name, booleans only as `boolean` |
| SchemaSubset.FlatSchemasAgree | src/hermes_workflows/kanban.py:186-226 | On every schema not read as a subset root, the newer checker accepts exactly what the older one does, field by field, plus an int for `float` |
| SchemaSubset.FlatSchemasAgreeWithoutFloat | src/hermes_workflows/kanban.py:186-226 | Without a `float` hint the two verdicts are equal |
| SchemaSubset.FlatSchemasAgreeExactlyWhen | src/hermes_workflows/schema_subset.py:225-250 | The two checkers accept the same payloads of a flat schema if and only if it does not read as a subset root and has no `float` hint |
| SchemaSubset.FlatRootMeans | src/hermes_workflows/schema_subset.py:225-315 | Of a flat schema that does read as a subset root the newer checker looks at no field: `type` is taken for the payload's type, `additionalProperties` for a flag, and any other keyword makes it reject every payload |
| SchemaSubset.OrderIsIrrelevant | src/hermes_workflows/schema_subset.py:317-345 | The verdict the interpreter uses on outputs is the checker's, in whatever order the schema lists its fields |
| SchemaSubset.ValidateWorkflowResult | src/hermes_workflows/kanban.py:186-226 | No diagnostics exactly when every field is present with its type; each diagnostic names a field that is missing or of the wrong type |
| SchemaSubset.FloatFieldsDiffer | src/hermes_workflows/kanban.py:186-226 | A `float` field holding an int, on which the two part |
| SchemaSubset.TypeFieldsDiffer | src/hermes_workflows/schema_subset.py:225-250 | A flat schema with a field named `type`, on which the two part |
| SchemaSubset.HintsAreReadInAnyCase | src/hermes_workflows/schema_subset.py:326-345 | Hints that differ in case alone ask for the same, of either checker |
| SchemaSubset.LowerIsTheWord | src/hermes_workflows/schema_subset.py:326-345 | Two hints have the same lower-case form if and only if they are the same letters in some case |
| SchemaSubset.KnownHints | src/hermes_workflows/kanban.py:179-226 | The short words of the older checker ask for what they name |

## Where the code and its promises part

- `additionalProperties: false` on a node with no `type`, `properties` or `required` is never enforced, because the object checks are not entered (`SchemaSubset.CheckIsSatisfaction`).
- The two flat schema checkers part on a `float` hint, and on a flat schema that reads as a subset root: one with a field named `type`, or one whose field names are all keywords and include `properties`, `items`, `enum` or `additionalProperties` (`SchemaSubset.FlatSchemasAgreeExactlyWhen`, `SchemaSubset.FlatRootMeans`).
- A reference takes the shortest step id that fits: of a step called `inputs` the whole output cannot be named (`Plans.InputsIsReadAsAnInput`), and an id that ends in `.output`, or holds `.output.`, is cut there (`References.ReferencesAreRead`).
- `max_repeated_signal` = 1 cannot stop the first reading and stops the second whatever it reads (`Loop.StalledExactlyWhen`, `Loop.BrakeOfOneStallsOnTheSecondReading`).
- Event numbers and lines drift apart when a record's text holds U+0085, U+2028 or U+2029, since the writer counts newlines and the reader splits on more; such an event is lost to the file backend and kept by the database (`EventLog.SeqIsExactlyRightWhen`, `EventLog.ReadBackExactlyWhen`, `Backends.SeparatorsHideEventsFromTheFileStore`).
- The durable await refuses an inner backend's re-delivery only after a positive inner version was consumed (`DurableAwait.RedeliveryIsRefusedExactlyWhen`), and an event-log backend asked from 0 after the record was served returns that event again (`DurableAwait.ServedEventComesBackUnless`); and an event delivered live comes back from the record to a later await from 0 (`DurableAwait.DeliveredEventIsServedExactlyWhen`, `DurableAwait.MirroredEventIsServedExactlyWhen`).
- A cancelled call can end the reader for all others, or leave its frame for a synchronous call (`Rpc.ReaderIsKeptExactlyWhen`, `Rpc.SyncCallIsSafeExactlyWhen`).
- The two backends list waits in different orders (`Store.WaitOrdersDifferExactlyWhen`) and treat a duplicate call id differently (`Backends.DuplicateIdsPoisonTheFileCache`).

One hazard is out of reach as the engine calls the store: writing an outcome over
a card record keeps its run id but not its real task id, so an outcome mirrored
between a card's record and its alias would lose the task for good
(`CardAlias.EarlyMirrorWouldLoseTheTask`). An await follows the normal return of
`create_or_reattach` (vm.py:1538-1595), which has written both.

## Left out

- Rpc.EveryCallGetsItsOwnAnswer: cancellation-free runs and well-formed `ret` frames only; the budget figures a frame carries are not modelled, the reader counts as started from the moment `acall` creates its task, and for runs with cancellations there are the exact conditions.
- EventLog.TornWritesHarmOnlyThemselves: record text free of the three Unicode line separators, and tears on character boundaries; a tear inside a multi-byte character makes the reader's decoding raise, which is not modelled.
- Notify.NoLostWakeup: the await loop is a transition system over its atomic steps; the clock is the freedom to time out at any step. The FIFO notifier is not part of this model.
- CardAlias.ReportsReachTheirCard: calls follow one another, each cut short anywhere; two calls running at once are not modelled, and an await follows a normal return for its card, as in the source's callers.
- CardAlias.NoSecondCreate: the guarantee begins when something durable is known; a call cut short before its first store write is counted by `CardAlias.CreatesAreCounted`, and only the board's own idempotency key makes the next one harmless.
- Backends.BackendsAgree: crash-free calls on begun runs with distinct cache ids, current fingerprints, and events that read back from JSON text without separators (outside these, the exact statements named above), up to timestamps, and waits as a set; corrupt files, transcripts and the order of suspended runs are left out.
- DurableAwait.DurableKanbanBackend.AwaitResolution: the best-effort write may fail, but a record read that raises is not modelled.
- Loop.LoopRun: the status is a value that the methods pass on, not an object observed while it changes, so the context handed to a callback and event-sink aliasing are not captured; costs are reals, and the grant broker and any exception of a callback are answers of an arbitrary environment.
- Resources.NormalizeEnvelopes: envelopes are already parsed; field validation and redaction of their contents are left out.
- Lint.WorkflowValidate: the one list of diagnostics is kept as two, by severity; texts and pointers are left out, and JSON text is already parsed.
- Cycles.FindCyclic: recursion depth is unbounded; Python's recursion limit on very long dependency chains is not modelled.
- Pool.Pool.Join: cancelled items end; one that swallows its cancellation and goes on is not modelled.
- Interpreter.Run: a Kanban profile that is no string, which only an unvalidated definition can have, is the failure `ProfileDenied` or `Crash`; the source skips the whitelist for a missing value and formats any other into the runner's id.
- Primitives.WorkflowRun: validation is on, its default; the unvalidated path is `Interpreter.Run`. Run ids, definition hashes and what the store keeps besides step records are left out.
- Soundness.ValidatedWorkflowsDoNotGoWrong: identifiers and reference names are ASCII words, and a step kind or operator that cannot be hashed or a dependency list of another type is the failure `Crash`, which the theorem excludes.
- Store.NothingIsDropped: disk failures during a flush are not modelled.
- vm.py, the parent broker (replay dispatch, retry on block, approval suspension), is not part of this model.
- script_validator.py: per-node blocklists over Python's `ast`.
- background.py: its stop-wins rule is one guard in one method.
- events.py: a simpler form of the Kanban log, without subscriptions.
- grants.py, capabilities.py, delegation.py: field checks and redaction.
- The file control store: the in-memory bucket carries the control laws; unlike the Kanban log, the file form does not isolate a torn tail.
- Catalogs, agent type registry, transcripts, run overviews, links, diagnostic texts, timestamps, actors and phase metadata: presentation.
- Hashes, JSON text, fsync, SQL and clocks: symbolic ids, an abstract codec of which only the events written are asked to read back (`EventLog.CodecsExist`: for any of them some codec does), tables as maps, and an arbitrary answer at each look at the clock.
