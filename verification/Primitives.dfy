/** `workflow_run` (primitives.py): check a definition, then run it. This joins
    the static checks of module Lint to the interpreter of module Interpreter, and
    its contract is what the engine promises its callers. */
module Primitives {
  import opened Json
  import opened Definition
  import opened Runtime
  import Controls
  import Dispatch
  import Interpreter
  import Lint
  import Soundness

  datatype Lifecycle = Failed | Stopped | Paused

  /** A rejected definition raises before any run is created. */
  datatype Ending =
    | Rejected(errors: seq<Lint.Topic>)
    | Ended(lifecycle: Lifecycle, why: Failure)
    | Completed(outputs: map<string, Value>, last: Option<Value>)

  /** What answers a run from outside. */
  datatype Host = Host(runner: (nat, Value, Value) -> Reply, controlled: bool, controls: nat -> seq<Controls.Control>)

  /** `_effective_max_parallel`: the caller's width, capped by the policy's. */
  function EffectiveMaxParallel(definition: Value, width: int): (r: nat)
    ensures 1 <= r && (r <= width || r == 1)
    ensures var cap := Get(PolicyBlock(definition), "max_parallel");
            && (cap.Int? && cap.n > 0 ==> r <= cap.n)
            && (width >= 1 && (cap.Int? && cap.n > 0 ==> width <= cap.n) ==> r == width)
  {
    var cap := Get(PolicyBlock(definition), "max_parallel");
    var least := if cap.Int? && 0 < cap.n < width then cap.n else width;
    if least < 1 then 1 else least
  }

  /** The two `except` clauses. */
  function LifecycleOf(why: Failure): Lifecycle {
    if why == Failure.Denied(Controls.RunStopped) then Stopped
    else if why == Failure.Denied(Controls.RunPaused) then Paused
    else Lifecycle.Failed
  }

  ghost function EnvOf(definition: Value, inputs: map<string, Value>, host: Host, width: int): Env
    requires GovernanceOf(definition).Some?
  {
    Env(inputs, EffectiveMaxParallel(definition, width), GovernanceOf(definition).value, host.runner, host.controlled, host.controls)
  }

  ghost predicate Dicts(outputs: map<string, Value>, ids: set<string>) {
    outputs.Keys == ids && forall k | k in outputs :: outputs[k].Dict?
  }

  lemma AcceptedRunsGoWell(definition: Value, roster: set<string>, env: Env)
    requires StructureOk(definition) && LintOk(definition, roster) && Some(env.policy) == GovernanceOf(definition)
    ensures var (failure, after) := Execute(definition, env);
            && (failure.Some? ==> !Soundness.Static(failure.value))
            && (failure.None? ==> Dicts(after.outputs, AvailableAfterAll(Steps(definition), {})))
            && (failure.Some? && LifecycleOf(failure.value) == Stopped <==> Dispatch.SawStop(after.trace))
            && (failure.Some? && LifecycleOf(failure.value) == Paused <==> Dispatch.SawPause(after.trace))
  {
    Soundness.ValidatedWorkflowsDoNotGoWrong(definition, roster, env);
    Dispatch.DenialsAreTheOperators(definition, env);
  }

  /** With validation on, its default. A run is created exactly for the accepted
      definitions; it does not fail for a reason validation excludes, makes no
      call beyond the policy or against the operator, and is reported stopped or
      paused exactly when a check of its own saw that. */
  method WorkflowRun(definition: Value, roster: set<string>, inputs: map<string, Value>, host: Host, width: int)
    returns (ending: Ending, store: Interpreter.RunStore?)
    ensures store != null ==> fresh(store)
    ensures store != null <==> StructureOk(definition) && LintOk(definition, roster)
    ensures ending.Rejected? <==> store == null
    ensures ending.Rejected? ==> ending.errors != []
    ensures ending.Ended? ==> !Soundness.Static(ending.why)
    ensures ending.Completed? ==> Dicts(ending.outputs, AvailableAfterAll(Steps(definition), {}))
    ensures store != null ==> GovernanceOf(definition).Some? && Distinct(IdsIn(Steps(definition)))
    ensures store != null ==>
              Interpreter.WellRun(definition, EnvOf(definition, inputs, host, width),
                                  if ending.Ended? then Some(ending.why) else None, store.records, store.trace)
    ensures store != null ==>
              && (ending.Ended? && ending.lifecycle == Stopped <==> Dispatch.SawStop(store.trace))
              && (ending.Ended? && ending.lifecycle == Paused <==> Dispatch.SawPause(store.trace))
  {
    var ok, errors, _ := Lint.WorkflowValidate(definition, roster, false);
    if !ok {
      return Rejected(errors), null;
    }
    Soundness.PolicyIsReadable(definition);
    var env := Env(inputs, EffectiveMaxParallel(definition, width), GovernanceOf(definition).value,
                   host.runner, host.controlled, host.controls);
    var failure, context := Interpreter.Run(definition, env);
    AcceptedRunsGoWell(definition, roster, env);
    store := context.store;
    ending := if failure.Some? then Ended(LifecycleOf(failure.value), failure.value)
              else Completed(context.outputs.entries, context.last);
  }
}
