/** Validated workflows do not go wrong: a definition that structural
    validation and the policy lint accept never fails for a reason they are
    meant to exclude, whatever the runner, the inputs and the operator do. */
module Soundness {
  import opened Json
  import opened Definition
  import opened Runtime
  import SchemaSubset
  import Controls

  /** The failures the static checks exist to rule out. The others are decided
      by the runner's answers, by budgets or by the operator. */
  predicate Static(why: Failure) {
    why in [Crash, MissingDependency, BadReference, UnknownKind, UnknownOp, ProfileDenied, SchemaMalformed]
  }

  /** The invariant at every step entry: exactly the ids the lint holds
      available have an output, and every output is a dict. */
  ghost predicate Ready(st: State, available: set<string>) {
    && st.outputs.Keys == available
    && forall k | k in st.outputs :: st.outputs[k].Dict?
  }

  datatype Rules = Rules(known: set<string>, allowed: Option<set<string>>, roster: set<string>)

  ghost predicate EffectsOk(steps: seq<Value>, rules: Rules) {
    AllEffectsOk(steps, rules.known, rules.allowed, rules.roster)
  }

  ghost predicate CleanStep(step: Value, rules: Rules, available: set<string>) {
    && StepShapeOk(step)
    && IfRefsOk(step, rules.known)
    && OrderOk(step, available)
    && EffectsOk(EffectStepsOf(step), rules)
  }

  ghost predicate CleanSteps(steps: seq<Value>, rules: Rules, available: set<string>) {
    && StepsShapeOk(steps)
    && IfRefsOkAll(steps, rules.known)
    && OrderOkAll(steps, available)
    && EffectsOk(EffectSteps(steps), rules)
  }

  /** What a step promises when it returns, and what its failure is not. */
  ghost predicate StepGoesRight(step: Value, available: set<string>, out: Outcome, after: State) {
    match out
    case Done(v) => Ready(after, AvailableAfter(step, available)) && after.last == Some(v) && v.Dict?
    case Failed(why) => !Static(why)
  }

  ghost predicate SequenceGoesRight(steps: seq<Value>, available: set<string>, failure: Option<Failure>, after: State) {
    match failure
    case Some(why) => !Static(why)
    case None =>
      && Ready(after, AvailableAfterAll(steps, available))
      && (steps != [] ==> after.last.Some? && after.last.value.Dict?)
  }

  lemma CleanStepsSplit(steps: seq<Value>, rules: Rules, available: set<string>)
    requires CleanSteps(steps, rules, available) && steps != []
    ensures CleanStep(steps[0], rules, available)
    ensures CleanSteps(steps[1..], rules, AvailableAfter(steps[0], available))
  {
    EffectsSplit(EffectStepsOf(steps[0]), EffectSteps(steps[1..]), rules);
  }

  lemma {:induction false} EffectsSplit(a: seq<Value>, b: seq<Value>, rules: Rules)
    requires EffectsOk(a + b, rules)
    ensures EffectsOk(a, rules) && EffectsOk(b, rules)
    decreases a
  {
    if a == [] {
      assert a + b == b;
    } else {
      assert (a + b)[1..] == a[1..] + b;
      EffectsSplit(a[1..], b, rules);
    }
  }

  lemma {:induction false} AvailableGrows(step: Value, available: set<string>)
    ensures available <= AvailableAfter(step, available)
    decreases step
  {
    if !IsEffect(Get(step, "kind")) && !IsIf(step) && HasChildren(step) {
      AvailableGrowsAll(step.fields[ChildKey(Get(step, "kind"))].items, available);
    }
  }

  lemma {:induction false} AvailableGrowsAll(steps: seq<Value>, available: set<string>)
    ensures available <= AvailableAfterAll(steps, available)
    decreases steps
  {
    if steps != [] {
      AvailableGrows(steps[0], available);
      AvailableGrowsAll(steps[1..], AvailableAfter(steps[0], available));
    }
  }

  /** A value whose references the lint accepts always resolves. */
  lemma {:induction false} CleanValuesResolve(v: Value, known: set<string>, inputs: map<string, Value>, outputs: map<string, Value>)
    requires RefsKnown(v, known) && RefsAvailable(v, outputs.Keys)
    requires forall k | k in outputs :: outputs[k].Dict?
    ensures Resolve(v, inputs, outputs).Some?
    ensures v.Dict? ==> Resolve(v, inputs, outputs).value.Dict?
    decreases v
  {
    match v
    case Str(s) =>
    case List(items) =>
      forall i | 0 <= i < |items| ensures Resolve(items[i], inputs, outputs).Some? {
        CleanValuesResolve(items[i], known, inputs, outputs);
      }
    case Dict(fields) =>
      forall k | k in fields ensures Resolve(fields[k], inputs, outputs).Some? {
        CleanValuesResolve(fields[k], known, inputs, outputs);
      }
    case _ =>
  }

  /** Completing a step adds exactly its own output. */
  lemma SucceedAddsOne(st: State, id: string, result: Value, setLast: bool, available: set<string>)
    requires Ready(st, available) && result.Dict?
    ensures var (out, after) := Succeed(st, id, result, setLast);
            && out == Done(result) && Ready(after, available + {id})
            && after.last == (if setLast then Some(result) else st.last)
  {
    var after := Succeed(st, id, result, setLast).1;
    assert after.outputs.Keys == st.outputs.Keys + {id};
  }

  lemma DependenciesHold(step: Value, available: set<string>, outputs: map<string, Value>)
    requires DependsShapeOk(step) && DepsIn(step, available) && outputs.Keys == available
    ensures CheckDependsOn(step, outputs) == None
  {
    if Get(step, "depends_on").List? {
      assert Deps(step) == Get(step, "depends_on").items;
    }
  }

  /** Admission leaves the outputs alone, and refuses for no static reason when
      the profile is one the policy lists. */
  lemma AdmitKeepsContext(step: Value, kanban: bool, profile: Value, env: Env, st: State)
    ensures var (failure, after) := Admit(step, kanban, profile, env, st);
            && after.outputs == st.outputs && after.last == st.last
            && (failure.Some? && Static(failure.value) ==>
                  kanban && env.policy.allowedProfiles.Some? && !(profile.Str? && profile.s in env.policy.allowedProfiles.value))
  {
  }

  lemma InputResolves(step: Value, rules: Rules, env: Env, st: State, available: set<string>)
    requires Ready(st, available)
    requires RefsKnown(Get(step, "input"), rules.known) && RefsAvailable(Get(step, "input"), available)
    ensures EffectInput(step, env, st).Some?
  {
    CleanValuesResolve(Get(step, "input"), rules.known, env.inputs, st.outputs);
  }

  /** A leaf's schema was normalized before the run, so it cannot turn out malformed. */
  lemma SchemaIsWellFormed(step: Value, output: Value)
    requires EffectContractOk(step)
    ensures OutputFailure(output, Get(step, "output_schema")) != Some(SchemaMalformed)
  {
  }

  lemma EffectGoesRight(step: Value, kanban: bool, agent: Value, payload: Value, env: Env, st: State, available: set<string>)
    requires Ready(st, available)
    requires IdOk(step) && EffectContractOk(step) && IsEffect(Get(step, "kind"))
    ensures var (out, after) := ExecEffect(step, kanban, agent, payload, env, st);
            StepGoesRight(step, available, out, after)
  {
    var st1 := Write(st, Get(step, "id").s, Running, Null);
    var reply := env.runner(st1.calls, agent, payload);
    if reply.Returns? {
      SchemaIsWellFormed(step, reply.v);
    }
  }

  lemma LeafIsItsOwnEffect(step: Value, rules: Rules)
    requires IsEffect(Get(step, "kind")) && EffectsOk(EffectStepsOf(step), rules)
    ensures EffectOk(step, rules.known, rules.allowed, rules.roster)
  {
    assert EffectStepsOf(step)[0] == step;
  }

  lemma AgentGoesRight(step: Value, rules: Rules, env: Env, st: State, available: set<string>)
    requires CleanStep(step, rules, available) && Ready(st, available)
    requires Get(step, "kind") == Str("agent")
    ensures var (out, after) := ExecAgent(step, env, st); StepGoesRight(step, available, out, after)
  {
    LeafIsItsOwnEffect(step, rules);
    AdmitKeepsContext(step, false, Null, env, st);
    var st1 := Admit(step, false, Null, env, st).1;
    InputResolves(step, rules, env, st1, available);
    EffectGoesRight(step, false, Get(step, "agent"), EffectInput(step, env, st1).value, env, st1, available);
  }

  lemma KanbanGoesRight(step: Value, rules: Rules, env: Env, st: State, available: set<string>)
    requires CleanStep(step, rules, available) && Ready(st, available)
    requires Get(step, "kind") == Str("kanban_agent")
    requires env.policy.allowedProfiles == rules.allowed
    ensures var (out, after) := ExecKanban(step, env, st); StepGoesRight(step, available, out, after)
  {
    LeafIsItsOwnEffect(step, rules);
    AdmitKeepsContext(step, true, Get(step, "profile"), env, st);
    var st1 := Admit(step, true, Get(step, "profile"), env, st).1;
    InputResolves(step, rules, env, st1, available);
    CleanValuesResolve(Get(step, "task"), rules.known, env.inputs, st1.outputs);
    CallKanbanGoesRight(step, env, st1, available);
  }

  lemma CallKanbanGoesRight(step: Value, env: Env, st: State, available: set<string>)
    requires Get(step, "kind") == Str("kanban_agent") && IdOk(step) && EffectContractOk(step)
    requires Get(step, "profile").Str? && Has(step, "task") && Ready(st, available)
    requires Resolve(Get(step, "task"), env.inputs, st.outputs).Some? && EffectInput(step, env, st).Some?
    ensures var (out, after) := CallKanban(step, env, st); StepGoesRight(step, available, out, after)
  {
    var task := Resolve(Get(step, "task"), env.inputs, st.outputs);
    var input := EffectInput(step, env, st);
    EffectGoesRight(step, true, Str("kanban." + Get(step, "profile").s), KanbanPayload(step, task.value, input.value), env, st, available);
  }

  lemma ConditionHolds(step: Value, rules: Rules, env: Env, st: State, available: set<string>)
    requires CleanStep(step, rules, available) && Ready(st, available) && IsIf(step)
    ensures EvalCondition(Get(step, "condition"), env, st).Ok?
  {
    CleanValuesResolve(Get(Get(step, "condition"), "ref"), rules.known, env.inputs, st.outputs);
  }

  lemma {:induction false} StepSound(step: Value, rules: Rules, env: Env, st: State, available: set<string>)
    requires CleanStep(step, rules, available) && Ready(st, available)
    requires env.policy.allowedProfiles == rules.allowed
    ensures var (out, after) := ExecStep(step, env, st); StepGoesRight(step, available, out, after)
    decreases step, 2
  {
    DependenciesHold(step, available, st.outputs);
    var kind := Get(step, "kind");
    if kind == Str("agent") {
      AgentGoesRight(step, rules, env, st, available);
    } else if kind == Str("kanban_agent") {
      KanbanGoesRight(step, rules, env, st, available);
    } else if kind == Str("parallel") {
      ParallelSound(step, rules, env, st, available);
    } else if kind == Str("pipeline") {
      PipelineSound(step, rules, env, st, available);
    } else if kind == Str("phase") {
      PhaseSound(step, rules, env, st, available);
    } else {
      IfSound(step, rules, env, st, available);
    }
  }

  lemma SequenceOfOneMore(steps: seq<Value>, available: set<string>, failure: Option<Failure>, after: State, last: Option<Value>)
    requires steps != [] && SequenceGoesRight(steps[1..], AvailableAfter(steps[0], available), failure, after)
    requires last.Some? && last.value.Dict? && (failure.None? && steps[1..] == [] ==> after.last == last)
    ensures SequenceGoesRight(steps, available, failure, after)
  {
  }

  /** A denied check, or a step that goes right by failing, ends the sequence so. */
  lemma SequenceEndsEarly(steps: seq<Value>, env: Env, st: State, available: set<string>)
    requires steps != []
    requires var (code, st1) := EnforceControl(env, st, false, []);
             var (out, st2) := ExecStep(steps[0], env, st1);
             code != Controls.Allowed || (out.Failed? && StepGoesRight(steps[0], available, out, st2))
    ensures var (failure, after) := ExecSequence(steps, env, st); SequenceGoesRight(steps, available, failure, after)
  {
  }

  lemma {:induction false} SequenceSound(steps: seq<Value>, rules: Rules, env: Env, st: State, available: set<string>)
    requires CleanSteps(steps, rules, available) && Ready(st, available)
    requires env.policy.allowedProfiles == rules.allowed
    ensures var (failure, after) := ExecSequence(steps, env, st);
            SequenceGoesRight(steps, available, failure, after)
    ensures steps == [] ==> ExecSequence(steps, env, st).1.last == st.last
    decreases steps, 0
  {
    if steps != [] {
      CleanStepsSplit(steps, rules, available);
      var (code, st1) := EnforceControl(env, st, false, []);
      StepSound(steps[0], rules, env, st1, available);
      var (out, st2) := ExecStep(steps[0], env, st1);
      if code == Controls.Allowed && out.Done? {
        SequenceSound(steps[1..], rules, env, st2, AvailableAfter(steps[0], available));
        var (failure, after) := ExecSequence(steps[1..], env, st2);
        SequenceOfOneMore(steps, available, failure, after, st2.last);
      } else {
        SequenceEndsEarly(steps, env, st, available);
      }
    }
  }

  lemma {:induction false} BranchesSound(branches: seq<Value>, joined: map<string, Value>, rules: Rules, env: Env, st: State, available: set<string>)
    requires CleanSteps(branches, rules, available) && Ready(st, available)
    requires env.policy.allowedProfiles == rules.allowed
    ensures var (r, after) := ExecBranches(branches, joined, env, st);
            match r
            case Err(why) => !Static(why)
            case Ok(_) => Ready(after, AvailableAfterAll(branches, available))
    decreases branches, 0
  {
    if branches != [] {
      CleanStepsSplit(branches, rules, available);
      StepSound(branches[0], rules, env, st, available);
      var (out, st1) := ExecStep(branches[0], env, st);
      if out.Done? {
        BranchesSound(branches[1..], joined[IdOf(branches[0]) := out.out], rules, env, st1, AvailableAfter(branches[0], available));
      }
    }
  }

  /** The children of a clean container are a clean sequence, and its own id
      follows theirs. */
  lemma ChildrenAreClean(step: Value, rules: Rules, available: set<string>)
    requires CleanStep(step, rules, available) && IsContainer(Get(step, "kind"))
    ensures HasChildren(step) && Get(step, "id").Str?
    ensures var items := step.fields[ChildKey(Get(step, "kind"))].items;
            && items != [] && CleanSteps(items, rules, available)
            && AvailableAfter(step, available) == AvailableAfterAll(items, available) + {IdOf(step)}
  {
  }

  lemma {:induction false} ParallelSound(step: Value, rules: Rules, env: Env, st: State, available: set<string>)
    requires CleanStep(step, rules, available) && Ready(st, available)
    requires env.policy.allowedProfiles == rules.allowed && Get(step, "kind") == Str("parallel")
    ensures var (out, after) := ExecParallel(step, env, st); StepGoesRight(step, available, out, after)
    decreases step, 1
  {
    ChildrenAreClean(step, rules, available);
    var st0 := Write(st, IdOf(step), Running, Null);
    BranchesSound(step.fields["branches"].items, map[], rules, env, st0, available);
    ParallelFinishes(step, env, st, available);
  }

  lemma ParallelFinishes(step: Value, env: Env, st: State, available: set<string>)
    requires Lists(step, "branches") && Get(step, "id").Str?
    requires AvailableAfter(step, available) == AvailableAfterAll(step.fields["branches"].items, available) + {IdOf(step)}
    requires var (r, after) := ExecBranches(step.fields["branches"].items, map[], env, Write(st, IdOf(step), Running, Null));
             match r
             case Err(why) => !Static(why)
             case Ok(_) => Ready(after, AvailableAfterAll(step.fields["branches"].items, available))
    ensures var (out, after) := ExecParallel(step, env, st); StepGoesRight(step, available, out, after)
  {
    var items := step.fields["branches"].items;
    var (joined, st1) := ExecBranches(items, map[], env, Write(st, IdOf(step), Running, Null));
    if joined.Ok? {
      SucceedAddsOne(st1, IdOf(step), Dict(map["branches" := Dict(joined.value)]), true, AvailableAfterAll(items, available));
    }
  }

  lemma {:induction false} PipelineSound(step: Value, rules: Rules, env: Env, st: State, available: set<string>)
    requires CleanStep(step, rules, available) && Ready(st, available)
    requires env.policy.allowedProfiles == rules.allowed && Get(step, "kind") == Str("pipeline")
    ensures var (out, after) := ExecPipeline(step, env, st); StepGoesRight(step, available, out, after)
    decreases step, 1
  {
    ChildrenAreClean(step, rules, available);
    var st0 := Write(st, IdOf(step), Running, Null);
    SequenceSound(step.fields["steps"].items, rules, env, st0, available);
    PipelineFinishes(step, env, st, available);
  }

  ghost predicate ChildrenGoRight(step: Value, env: Env, st: State, available: set<string>)
    requires Lists(step, "steps")
  {
    var (failure, after) := ExecSequence(step.fields["steps"].items, env, Write(st, IdOf(step), Running, Null));
    && Get(step, "id").Str? && step.fields["steps"].items != []
    && AvailableAfter(step, available) == AvailableAfterAll(step.fields["steps"].items, available) + {IdOf(step)}
    && SequenceGoesRight(step.fields["steps"].items, available, failure, after)
  }

  lemma PipelineFinishes(step: Value, env: Env, st: State, available: set<string>)
    requires Lists(step, "steps") && ChildrenGoRight(step, env, st, available)
    ensures var (out, after) := ExecPipeline(step, env, st); StepGoesRight(step, available, out, after)
  {
    var items := step.fields["steps"].items;
    var (failure, st1) := ExecSequence(items, env, Write(st, IdOf(step), Running, Null));
    if failure.None? {
      SucceedAddsOne(st1, IdOf(step), LastOrEmpty(st1), false, AvailableAfterAll(items, available));
    }
  }

  lemma {:induction false} PhaseSound(step: Value, rules: Rules, env: Env, st: State, available: set<string>)
    requires CleanStep(step, rules, available) && Ready(st, available)
    requires env.policy.allowedProfiles == rules.allowed && Get(step, "kind") == Str("phase")
    ensures var (out, after) := ExecPhase(step, env, st); StepGoesRight(step, available, out, after)
    decreases step, 1
  {
    ChildrenAreClean(step, rules, available);
    var st0 := Write(st, IdOf(step), Running, Null);
    SequenceSound(step.fields["steps"].items, rules, env, st0, available);
    PhaseFinishes(step, env, st, available);
  }

  lemma PhaseFinishes(step: Value, env: Env, st: State, available: set<string>)
    requires Lists(step, "steps") && ChildrenGoRight(step, env, st, available)
    ensures var (out, after) := ExecPhase(step, env, st); StepGoesRight(step, available, out, after)
  {
    var items := step.fields["steps"].items;
    var (failure, child) := ExecSequence(items, env, Write(st, IdOf(step), Running, Null));
    if failure.None? {
      SucceedAddsOne(child, IdOf(step), Dict(map["completed" := List(CompletedIds(items))]), true, AvailableAfterAll(items, available));
    }
  }

  lemma {:induction false} IfSound(step: Value, rules: Rules, env: Env, st: State, available: set<string>)
    requires CleanStep(step, rules, available) && Ready(st, available)
    requires env.policy.allowedProfiles == rules.allowed && IsIf(step)
    ensures var (out, after) := ExecIf(step, env, st); StepGoesRight(step, available, out, after)
    decreases step, 1
  {
    var st0 := Write(st, IdOf(step), Running, Null);
    ConditionHolds(step, rules, env, st0, available);
    var key := if EvalCondition(Get(step, "condition"), env, st0).value then "then" else "else";
    if Truthy(Get(step, key)) {
      BranchIsClean(step, key, rules, available);
      var items := step.fields[key].items;
      SequenceSound(items, rules, env, st0, available);
      AvailableGrowsAll(items, available);
    }
    IfFinishes(step, key, env, st, available);
  }

  /** What the branch did inside is dropped; the `if` adds its own output. */
  lemma IfFinishes(step: Value, key: string, env: Env, st: State, available: set<string>)
    requires IsIf(step) && Get(step, "id").Str? && Has(step, "condition") && Ready(st, available)
    requires var test := EvalCondition(Get(step, "condition"), env, Write(st, IdOf(step), Running, Null));
             test.Ok? && key == if test.value then "then" else "else"
    requires Truthy(Get(step, key)) ==> Lists(step, key) && step.fields[key].items != []
    requires Truthy(Get(step, key)) ==> available <= AvailableAfterAll(step.fields[key].items, available)
    requires Truthy(Get(step, key)) ==>
               var (failure, after) := ExecSequence(step.fields[key].items, env, Write(st, IdOf(step), Running, Null));
               SequenceGoesRight(step.fields[key].items, available, failure, after)
    ensures var (out, after) := ExecIf(step, env, st); StepGoesRight(step, available, out, after)
  {
    var id, st0 := IdOf(step), Write(st, IdOf(step), Running, Null);
    if !Truthy(Get(step, key)) {
      SucceedAddsOne(st0, id, Dict(map["branch" := Str(key), "output" := Dict(map[])]), true, available);
    } else {
      var (failure, st1) := ExecSequence(step.fields[key].items, env, st0);
      if failure.None? {
        var kept := map k | k in st1.outputs && k in st0.outputs :: st1.outputs[k];
        assert kept.Keys == available;
        SucceedAddsOne(st1.(outputs := kept), id, Dict(map["branch" := Str(key), "output" := LastOrEmpty(st1)]), true, available);
      }
    }
  }

  lemma BranchIsClean(step: Value, key: string, rules: Rules, available: set<string>)
    requires CleanStep(step, rules, available) && IsIf(step)
    requires key == "then" || key == "else"
    requires Truthy(Get(step, key))
    ensures Lists(step, key) && CleanSteps(step.fields[key].items, rules, available)
  {
    var a := EffectSteps(step.fields["then"].items);
    var b := if Lists(step, "else") then EffectSteps(step.fields["else"].items) else [];
    assert EffectStepsOf(step) == a + b;
    EffectsSplit(a, b, rules);
  }

  /** The lint's view of the policy and the runtime's are the same. */
  lemma PolicyIsReadable(definition: Value)
    requires PolicyOk(definition)
    ensures GovernanceOf(definition).Some?
    ensures GovernanceOf(definition).value.allowedProfiles == AllowedProfiles(Get(PolicyBlock(definition), "allowed_profiles"))
  {
  }

  /** The main theorem. */
  lemma ValidatedWorkflowsDoNotGoWrong(definition: Value, roster: set<string>, env: Env)
    requires StructureOk(definition) && LintOk(definition, roster)
    requires Some(env.policy) == GovernanceOf(definition)
    ensures var (failure, after) := Execute(definition, env);
            match failure
            case Some(why) => !Static(why)
            case None => Ready(after, AvailableAfterAll(Steps(definition), {}))
  {
    PolicyIsReadable(definition);
    var rules := Rules(KnownIds(Steps(definition)), env.policy.allowedProfiles, roster);
    SequenceSound(Steps(definition), rules, env, FRESH, {});
  }
}
