/** The interpreter in the form it is written in: a context object whose fields
    the steps update, sharing a run store and a table of outputs with the
    contexts that phases copy. Every method is proved equal to the function of
    the same name in module Runtime, so what is proved about those functions
    holds of these methods. */
module Interpreter {
  import opened Json
  import opened Definition
  import opened Runtime
  import Controls
  import Dispatch
  import Meaning
  import Soundness
  import StatusRecords
  import StepMeaning

  /** The run's record in the store, and the ghost history of the run. */
  class RunStore {
    var records: seq<Record>
    ghost var trace: seq<Event>

    constructor ()
      ensures records == [] && trace == []
    {
      records, trace := [], [];
    }

    method UpdateStep(id: string, status: Status, output: Value)
      modifies this
      ensures records == Upsert(old(records), Record(id, status, output))
      ensures trace == old(trace) + [Wrote(Record(id, status, output))]
    {
      var r := Record(id, status, output);
      StatusRecords.UpsertAt(records, r);
      var i := 0;
      while i < |records| && records[i].id != id
        invariant 0 <= i <= StatusRecords.Position(records, id)
      {
        i := i + 1;
      }
      if i < |records| {
        records := records[i := r];
      } else {
        records := records + [r];
      }
      trace := trace + [Wrote(r)];
    }
  }

  lemma Restricted(was: map<string, Value>, before: set<string>, now: map<string, Value>)
    requires now.Keys == was.Keys * before && forall k | k in now :: now[k] == was[k]
    ensures now == map k | k in was && k in before :: was[k]
  {
    assert forall k :: k in now <==> k in was && k in before;
  }

  class Outputs {
    var entries: map<string, Value>

    constructor ()
      ensures entries == map[]
    {
      entries := map[];
    }

    /** Pop every key that was not there before. */
    method ForgetSince(before: set<string>)
      modifies this
      ensures entries == map k | k in old(entries) && k in before :: old(entries)[k]
    {
      var extra := entries.Keys - before;
      while extra != {}
        invariant entries.Keys == (old(entries).Keys * before) + extra
        invariant extra !! before
        invariant forall k | k in entries :: k in old(entries) && entries[k] == old(entries)[k]
        decreases |extra|
      {
        var k :| k in extra;
        entries := entries - {k};
        extra := extra - {k};
      }
      Restricted(old(entries), before, entries);
    }
  }

  /** The runner and the operator's log, which answer each call in turn. */
  class Host {
    var checks: nat
    var calls: nat

    constructor ()
      ensures checks == 0 && calls == 0
    {
      checks, calls := 0, 0;
    }
  }

  class RunContext {
    const env: Env
    const store: RunStore
    const outputs: Outputs
    const host: Host
    var agentCalls: nat
    var kanbanCards: nat
    var last: Option<Value>

    constructor (env: Env, store: RunStore, outputs: Outputs, host: Host, agentCalls: nat, kanbanCards: nat, last: Option<Value>)
      ensures this.env == env && this.store == store && this.outputs == outputs && this.host == host
      ensures this.agentCalls == agentCalls && this.kanbanCards == kanbanCards && this.last == last
    {
      this.env, this.store, this.outputs, this.host := env, store, outputs, host;
      this.agentCalls, this.kanbanCards, this.last := agentCalls, kanbanCards, last;
    }

    /** The context and what it shares, as one value. */
    ghost function Now(): State
      reads this, store, outputs, host
    {
      State(outputs.entries, last, agentCalls, kanbanCards, store.records, host.checks, host.calls, store.trace)
    }

    method Record(id: string, status: Status, output: Value)
      modifies store
      ensures Now() == Write(old(Now()), id, status, output)
    {
      store.UpdateStep(id, status, output);
    }

    method EnforceRunControl(leaf: bool, refs: seq<string>) returns (code: Controls.Code)
      modifies store, host
      ensures (code, Now()) == EnforceControl(env, old(Now()), leaf, refs)
    {
      if !env.controlled {
        return Controls.Allowed;
      }
      var log := env.controls(host.checks);
      host.checks := host.checks + 1;
      store.trace := store.trace + [Checked(log, leaf, refs)];
      code := CheckCode(log, leaf, refs);
    }

    /** `_check_effect_budget` charges the counters when it raises nothing. */
    method CheckEffectBudget(kanban: bool, profile: Value) returns (failure: Option<Failure>)
      modifies this
      ensures failure == BudgetFailure(env, old(Now()), kanban, profile)
      ensures Now() == if failure.None? then Charge(old(Now()), kanban) else old(Now())
    {
      var p := env.policy;
      if kanban && p.allowedProfiles.Some? && !(profile.Str? && profile.s in p.allowedProfiles.value) {
        return Some(ProfileDenied);
      }
      if p.maxAgentCalls.Some? && agentCalls >= p.maxAgentCalls.value {
        return Some(AgentBudget);
      }
      if kanban && p.maxKanbanCards.Some? && kanbanCards >= p.maxKanbanCards.value {
        return Some(KanbanBudget);
      }
      agentCalls := agentCalls + 1;
      if kanban {
        kanbanCards := kanbanCards + 1;
      }
      failure := None;
    }

    /** `_exec_effect_step`. */
    method ExecEffectStep(step: Value, kanban: bool, agent: Value, payload: Value) returns (out: Outcome)
      modifies this, store, outputs, host
      ensures (out, Now()) == ExecEffect(step, kanban, agent, payload, env, old(Now()))
    {
      if !Get(step, "id").Str? {
        return Outcome.Failed(Crash);
      }
      var id := Get(step, "id").s;
      Record(id, Running, Null);
      var reply := env.runner(host.calls, agent, payload);
      host.calls := host.calls + 1;
      store.trace := store.trace + [Called(id, kanban, agent, payload)];
      var failure := None;
      if reply.Raises? {
        failure := Some(RunnerRaised);
      } else if !reply.v.Dict? {
        failure := Some(NotADict);
      } else {
        failure := OutputFailure(reply.v, Get(step, "output_schema"));
      }
      if failure.Some? {
        Record(id, Status.Failed, Null);
        return Outcome.Failed(failure.value);
      }
      Record(id, Succeeded, reply.v);
      outputs.entries := outputs.entries[id := reply.v];
      last := Some(reply.v);
      out := Done(reply.v);
    }

    method ExecAgentStep(step: Value) returns (out: Outcome)
      modifies this, store, outputs, host
      ensures (out, Now()) == ExecAgent(step, env, old(Now()))
    {
      if !Has(step, "agent") {
        return Outcome.Failed(Crash);
      }
      var code := EnforceRunControl(true, ControlRefs(step));
      if code != Controls.Allowed {
        return Outcome.Failed(Denied(code));
      }
      var failure := CheckEffectBudget(false, Null);
      if failure.Some? {
        return Outcome.Failed(failure.value);
      }
      var payload := Input(step);
      if payload.None? {
        return Outcome.Failed(BadReference);
      }
      out := ExecEffectStep(step, false, Get(step, "agent"), payload.value);
    }

    /** `_effect_input`. */
    method Input(step: Value) returns (r: Option<Value>)
      ensures r == EffectInput(step, env, Now())
    {
      var resolved := Resolve(if Has(step, "input") then Get(step, "input") else Dict(map[]), env.inputs, outputs.entries);
      if resolved.Some? && !resolved.value.Dict? {
        return Some(Dict(map["value" := resolved.value]));
      }
      r := resolved;
    }

    method ExecKanbanStep(step: Value) returns (out: Outcome)
      modifies this, store, outputs, host
      ensures (out, Now()) == ExecKanban(step, env, old(Now()))
    {
      if !Has(step, "profile") {
        return Outcome.Failed(Crash);
      }
      var profile := Get(step, "profile");
      var code := EnforceRunControl(true, ControlRefs(step));
      if code != Controls.Allowed {
        return Outcome.Failed(Denied(code));
      }
      var failure := CheckEffectBudget(true, profile);
      if failure.Some? {
        return Outcome.Failed(failure.value);
      }
      var task := Resolve(if Has(step, "task") then Get(step, "task") else Dict(map[]), env.inputs, outputs.entries);
      var input := Input(step);
      if task.None? || input.None? {
        return Outcome.Failed(BadReference);
      }
      if !profile.Str? {
        return Outcome.Failed(Crash);
      }
      out := ExecEffectStep(step, true, Str("kanban." + profile.s), KanbanPayload(step, task.value, input.value));
    }

    /** The common end of a container that returned: record, publish, remember. */
    method Complete(id: string, result: Value, setLast: bool) returns (out: Outcome)
      modifies this, store, outputs
      ensures (out, Now()) == Succeed(old(Now()), id, result, setLast)
    {
      Record(id, Succeeded, result);
      outputs.entries := outputs.entries[id := result];
      if setLast {
        last := Some(result);
      }
      out := Done(result);
    }

    method Raise(id: string, why: Failure) returns (out: Outcome)
      modifies store
      ensures (out, Now()) == Fail(old(Now()), id, why)
    {
      Record(id, Status.Failed, Null);
      out := Outcome.Failed(why);
    }

    method ExecStep(step: Value) returns (out: Outcome)
      modifies this, store, outputs, host
      ensures (out, Now()) == Runtime.ExecStep(step, env, old(Now()))
      decreases step, 1
    {
      if !step.Dict? {
        return Outcome.Failed(Crash);
      }
      var missing := CheckDependsOn(step, outputs.entries);
      if missing.Some? {
        return Outcome.Failed(missing.value);
      }
      var kind := Get(step, "kind");
      if kind == Str("agent") {
        out := ExecAgentStep(step);
      } else if kind == Str("kanban_agent") {
        out := ExecKanbanStep(step);
      } else if kind == Str("parallel") {
        out := ExecParallelStep(step);
      } else if kind == Str("pipeline") {
        out := ExecPipelineStep(step);
      } else if kind == Str("phase") {
        out := ExecPhaseStep(step);
      } else if kind == Str("if") {
        out := ExecIfStep(step);
      } else {
        out := Outcome.Failed(UnknownKind);
      }
    }

    /** `_exec_sequence`. */
    method ExecSequence(steps: seq<Value>) returns (failure: Option<Failure>)
      modifies this, store, outputs, host
      ensures (failure, Now()) == Runtime.ExecSequence(steps, env, old(Now()))
      decreases steps, 0
    {
      var i := 0;
      while i < |steps|
        invariant 0 <= i <= |steps|
        invariant Runtime.ExecSequence(steps, env, old(Now())) == Runtime.ExecSequence(steps[i..], env, Now())
      {
        assert steps[i..][0] == steps[i] && steps[i..][1..] == steps[i + 1..];
        var code := EnforceRunControl(false, []);
        if code != Controls.Allowed {
          return Some(Denied(code));
        }
        var out := ExecStep(steps[i]);
        if out.Failed? {
          return Some(out.why);
        }
        i := i + 1;
      }
      failure := None;
    }

    method ExecParallelStep(step: Value) returns (out: Outcome)
      modifies this, store, outputs, host
      ensures (out, Now()) == ExecParallel(step, env, old(Now()))
      decreases step, 0
    {
      if !Get(step, "id").Str? || !Lists(step, "branches") {
        return Outcome.Failed(Crash);
      }
      var branches := step.fields["branches"].items;
      if env.policy.maxActiveAwaits.Some? && SumWaiting(branches) > env.policy.maxActiveAwaits.value {
        return Outcome.Failed(AwaitBudget);
      }
      if |branches| > env.maxParallel {
        return Outcome.Failed(FanOut);
      }
      var id := Get(step, "id").s;
      Record(id, Running, Null);
      var joined: map<string, Value> := map[];
      var i := 0;
      ghost var start := Now();
      while i < |branches|
        invariant 0 <= i <= |branches|
        invariant ExecBranches(branches, map[], env, start) == ExecBranches(branches[i..], joined, env, Now())
      {
        assert branches[i..][0] == branches[i] && branches[i..][1..] == branches[i + 1..];
        var branch := ExecStep(branches[i]);
        if branch.Failed? {
          out := Raise(id, branch.why);
          return;
        }
        joined := joined[IdOf(branches[i]) := branch.out];
        i := i + 1;
      }
      out := Complete(id, Dict(map["branches" := Dict(joined)]), true);
    }

    method ExecPipelineStep(step: Value) returns (out: Outcome)
      modifies this, store, outputs, host
      ensures (out, Now()) == ExecPipeline(step, env, old(Now()))
      decreases step, 0
    {
      if !Get(step, "id").Str? {
        return Outcome.Failed(Crash);
      }
      var id := Get(step, "id").s;
      Record(id, Running, Null);
      if !Lists(step, "steps") {
        out := Raise(id, Crash);
        return;
      }
      var failure := ExecSequence(step.fields["steps"].items);
      if failure.Some? {
        out := Raise(id, failure.value);
        return;
      }
      var result := if last.Some? && Truthy(last.value) then last.value else Dict(map[]);
      out := Complete(id, result, false);
    }

    /** `_exec_phase`: the child context shares the store, the outputs and the
        host, but counts on its own. */
    method ExecPhaseStep(step: Value) returns (out: Outcome)
      modifies this, store, outputs, host
      ensures (out, Now()) == ExecPhase(step, env, old(Now()))
      decreases step, 0
    {
      if !Get(step, "id").Str? {
        return Outcome.Failed(Crash);
      }
      var id := Get(step, "id").s;
      Record(id, Running, Null);
      if !Lists(step, "steps") {
        out := Raise(id, Crash);
        return;
      }
      var child := new RunContext(env, store, outputs, host, agentCalls, kanbanCards, last);
      var failure := child.ExecSequence(step.fields["steps"].items);
      if failure.Some? {
        out := Raise(id, failure.value);
        return;
      }
      out := Complete(id, Dict(map["completed" := List(CompletedIds(step.fields["steps"].items))]), true);
      agentCalls, kanbanCards := child.agentCalls, child.kanbanCards;
    }

    method ExecIfStep(step: Value) returns (out: Outcome)
      modifies this, store, outputs, host
      ensures (out, Now()) == ExecIf(step, env, old(Now()))
      ensures out.Done? ==> StepMeaning.IfMeans(step, env, old(Now()), out.out, Now())
      decreases step, 0
    {
      hide StepMeaning.IfMeans;
      StepMeaning.IfsMeanTheirCondition(step, env, Now());
      if !Get(step, "id").Str? {
        return Outcome.Failed(Crash);
      }
      var id := Get(step, "id").s;
      Record(id, Running, Null);
      if !Has(step, "condition") {
        out := Raise(id, Crash);
        return;
      }
      ghost var st0 := Now();
      var test := Condition(Get(step, "condition"));
      if test.Err? {
        out := Raise(id, test.why);
        return;
      }
      var key := if test.value then "then" else "else";
      if !Truthy(Get(step, key)) {
        out := Complete(id, Dict(map["branch" := Str(key), "output" := Dict(map[])]), true);
        return;
      }
      if !Lists(step, key) {
        out := Raise(id, Crash);
        return;
      }
      var before := outputs.entries.Keys;
      var failure := ExecSequence(step.fields[key].items);
      if failure.Some? {
        out := Raise(id, failure.value);
        return;
      }
      var result := if last.Some? && Truthy(last.value) then last.value else Dict(map[]);
      ghost var st1 := Now();
      outputs.ForgetSince(before);
      assert outputs.entries == map k | k in st1.outputs && k in st0.outputs :: st1.outputs[k];
      out := Complete(id, Dict(map["branch" := Str(key), "output" := result]), true);
    }

    method Condition(condition: Value) returns (r: Result<bool>)
      ensures r == EvalCondition(condition, env, Now())
      ensures Meaning.Answers(condition, env.inputs, outputs.entries, r)
    {
      hide Meaning.Answers;
      Meaning.ConditionsAnswer(condition, env, Now());
      if !condition.Dict? {
        return Err(Crash);
      }
      var op := Get(condition, "op");
      var value := Resolve(Get(condition, "ref"), env.inputs, outputs.entries);
      if value.None? {
        return if op == Str("exists") then Ok(false) else Err(BadReference);
      }
      if op == Str("truthy") {
        return Ok(Truthy(value.value));
      }
      if op == Str("exists") {
        return Ok(value.value != Null);
      }
      if op == Str("eq") {
        return Ok(PyEq(value.value, Get(condition, "value")));
      }
      if op == Str("ne") {
        return Ok(!PyEq(value.value, Get(condition, "value")));
      }
      r := Err(UnknownOp);
    }
  }

  /** What a run leaves in its store: calls within the policy, a budget used up if
      the run ended for want of it, the operator
      obeyed at once and every call cleared by its own check; for distinct step
      ids, marks that form a chain of nested steps at every moment, a chain of
      failures or nothing but success at the end, and one record for each step
      that started, with the last status written for it. */
  ghost predicate WellRun(definition: Value, env: Env, failure: Option<Failure>, records: seq<Runtime.Record>, trace: seq<Event>) {
    && Dispatch.Within(Dispatch.Calls(trace, false), env.policy.maxAgentCalls)
    && Dispatch.Within(Dispatch.Calls(trace, true), env.policy.maxKanbanCards)
    && (failure == Some(AgentBudget) ==> env.policy.maxAgentCalls == Some(Dispatch.Calls(trace, false)))
    && (failure == Some(KanbanBudget) ==> env.policy.maxKanbanCards == Some(Dispatch.Calls(trace, true)))
    && Dispatch.HeedsTheOperator(trace, failure) && Dispatch.Guarded(trace, env)
    && (Distinct(IdsIn(Steps(definition))) ==>
          && (forall n | 0 <= n <= |trace| :: StatusRecords.WellPlaced(trace[..n], Steps(definition)))
          && (failure.None? ==> StatusRecords.AllSucceeded(StatusRecords.View(trace)))
          && (failure.Some? ==> StatusRecords.FailedChain(StatusRecords.View(trace), Steps(definition)))
          && StatusRecords.Holds(records, StatusRecords.View(trace)))
  }

  lemma ExecutionsAreWellRun(definition: Value, env: Env)
    ensures var (failure, after) := Execute(definition, env);
            WellRun(definition, env, failure, after.records, after.trace)
  {
    Dispatch.BudgetsBoundCalls(definition, env);
    Dispatch.BudgetsAreUsedUp(definition, env);
    Dispatch.NoCallAfterTheOperatorSaysNo(definition, env);
    if Distinct(IdsIn(Steps(definition))) {
      StatusRecords.RunsAreWellMarked(definition, env);
      StatusRecords.RegistryIsTheLastWrite(definition, env);
    }
  }

  /** Both checks accept the definition, for some roster of agents, and the run
      enforces its policy. */
  ghost predicate Accepted(definition: Value, env: Env) {
    && StructureOk(definition) && Some(env.policy) == GovernanceOf(definition)
    && exists roster: set<string> :: LintOk(definition, roster)
  }

  lemma AcceptedRunsAreNotStatic(definition: Value, env: Env)
    ensures var failure := Execute(definition, env).0;
            failure.Some? && Soundness.Static(failure.value) ==> !Accepted(definition, env)
  {
    if Accepted(definition, env) {
      var roster: set<string> :| LintOk(definition, roster);
      Soundness.ValidatedWorkflowsDoNotGoWrong(definition, roster, env);
    }
  }

  /** A whole run: a fresh context over a fresh store. */
  method Run(definition: Value, env: Env) returns (failure: Option<Failure>, context: RunContext)
    ensures fresh(context) && fresh(context.store) && fresh(context.outputs) && fresh(context.host)
    ensures (failure, context.Now()) == Execute(definition, env)
    ensures WellRun(definition, env, failure, context.store.records, context.store.trace)
    ensures failure.Some? && Soundness.Static(failure.value) ==> !Accepted(definition, env)
  {
    var store := new RunStore();
    var outputs := new Outputs();
    var host := new Host();
    context := new RunContext(env, store, outputs, host, 0, 0, None);
    failure := context.ExecSequence(Steps(definition));
    ExecutionsAreWellRun(definition, env);
    AcceptedRunsAreNotStatic(definition, env);
  }
}
