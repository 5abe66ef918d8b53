/** Scoping of outputs: what a step published is never overwritten while later
    steps can read it, and an `if` publishes nothing but its own result. */
module WriteOnce {
  import opened Json
  import opened Definition
  import opened Runtime
  import Controls
  import StatusRecords

  /** Nothing published before has changed, and only the given ids were added. */
  ghost predicate Kept(before: State, after: State, ids: seq<string>) {
    && (forall k | k in before.outputs :: k in after.outputs && after.outputs[k] == before.outputs[k])
    && (forall k | k in after.outputs :: k in before.outputs || k in ids)
  }

  ghost predicate Unused(st: State, ids: seq<string>) {
    forall k | k in ids :: k !in st.outputs
  }

  lemma KeptThen(st: State, mid: State, after: State, a: seq<string>, b: seq<string>)
    requires Kept(st, mid, a) && Kept(mid, after, b)
    ensures Kept(st, after, a + b)
  {
  }

  lemma EffectKeeps(step: Value, kanban: bool, agent: Value, payload: Value, env: Env, st: State)
    requires IdOf(step) !in st.outputs
    ensures Kept(st, ExecEffect(step, kanban, agent, payload, env, st).1, [IdOf(step)])
  {
  }

  lemma AgentKeeps(step: Value, env: Env, st: State)
    requires IdOf(step) !in st.outputs
    ensures Kept(st, ExecAgent(step, env, st).1, [IdOf(step)])
  {
    var st1 := Admit(step, false, Null, env, st).1;
    EffectKeeps(step, false, Get(step, "agent"), EffectInput(step, env, st1).GetOr(Null), env, st1);
  }

  lemma CallKanbanKeeps(step: Value, env: Env, st: State)
    requires IdOf(step) !in st.outputs
    ensures Kept(st, CallKanban(step, env, st).1, [IdOf(step)])
  {
    var task := Resolve(if Has(step, "task") then Get(step, "task") else Dict(map[]), env.inputs, st.outputs);
    var input := EffectInput(step, env, st);
    if Get(step, "profile").Str? && task.Some? && input.Some? {
      EffectKeeps(step, true, Str("kanban." + Get(step, "profile").s), KanbanPayload(step, task.value, input.value), env, st);
    }
  }

  lemma KanbanKeeps(step: Value, env: Env, st: State)
    requires IdOf(step) !in st.outputs
    ensures Kept(st, ExecKanban(step, env, st).1, [IdOf(step)])
  {
    CallKanbanKeeps(step, env, Admit(step, true, Get(step, "profile"), env, st).1);
  }

  lemma LeafKeeps(step: Value, env: Env, st: State)
    requires IsEffect(Get(step, "kind")) && Unused(st, IdsOf(step))
    ensures Kept(st, ExecAgent(step, env, st).1, IdsOf(step)) && Kept(st, ExecKanban(step, env, st).1, IdsOf(step))
  {
    assert IdsOf(step) == [IdOf(step)];
    AgentKeeps(step, env, st);
    KanbanKeeps(step, env, st);
  }

  lemma {:induction false} StepKeeps(step: Value, env: Env, st: State)
    requires Distinct(IdsOf(step)) && Unused(st, IdsOf(step))
    ensures Kept(st, ExecStep(step, env, st).1, IdsOf(step))
    decreases step, 2
  {
    if step.Dict? && CheckDependsOn(step, st.outputs).None? {
      var kind := Get(step, "kind");
      if IsEffect(kind) {
        LeafKeeps(step, env, st);
      } else if kind == Str("parallel") {
        ParallelKeeps(step, env, st);
      } else if kind == Str("pipeline") || kind == Str("phase") {
        ContainerKeeps(step, env, st);
      } else if kind == Str("if") {
        IfAddsOnlyItself(step, env, st);
      }
    }
  }

  lemma {:induction false} SequenceKeeps(steps: seq<Value>, env: Env, st: State)
    requires Distinct(IdsIn(steps)) && Unused(st, IdsIn(steps))
    ensures Kept(st, ExecSequence(steps, env, st).1, IdsIn(steps))
    decreases steps, 0
  {
    if steps != [] {
      StatusRecords.DistinctSplit(IdsOf(steps[0]), IdsIn(steps[1..]));
      var (code, st1) := EnforceControl(env, st, false, []);
      StepKeeps(steps[0], env, st1);
      var (out, st2) := ExecStep(steps[0], env, st1);
      if code == Controls.Allowed && out.Done? {
        SequenceKeeps(steps[1..], env, st2);
        KeptThen(st, st2, ExecSequence(steps[1..], env, st2).1, IdsOf(steps[0]), IdsIn(steps[1..]));
      }
    }
  }

  lemma {:induction false} BranchesKeep(branches: seq<Value>, joined: map<string, Value>, env: Env, st: State)
    requires Distinct(IdsIn(branches)) && Unused(st, IdsIn(branches))
    ensures Kept(st, ExecBranches(branches, joined, env, st).1, IdsIn(branches))
    decreases branches, 0
  {
    if branches != [] {
      StatusRecords.DistinctSplit(IdsOf(branches[0]), IdsIn(branches[1..]));
      StepKeeps(branches[0], env, st);
      var (out, st1) := ExecStep(branches[0], env, st);
      if out.Done? {
        var joined' := joined[IdOf(branches[0]) := out.out];
        BranchesKeep(branches[1..], joined', env, st1);
        KeptThen(st, st1, ExecBranches(branches[1..], joined', env, st1).1, IdsOf(branches[0]), IdsIn(branches[1..]));
      }
    }
  }

  /** A container publishes at most its own output over what its steps left. */
  lemma ParallelEnds(step: Value, env: Env, st: State, mid: State)
    requires Get(step, "id").Str? && Lists(step, "branches") && IdOf(step) !in st.outputs && IdOf(step) in IdsOf(step)
    requires mid == ExecBranches(step.fields["branches"].items, map[], env, Write(st, IdOf(step), Running, Null)).1
    requires Kept(st, mid, IdsIn(step.fields["branches"].items))
    requires forall k | k in IdsIn(step.fields["branches"].items) :: k in IdsOf(step)
    ensures Kept(st, ExecParallel(step, env, st).1, IdsOf(step))
  {
  }

  lemma {:induction false} ParallelKeeps(step: Value, env: Env, st: State)
    requires Distinct(IdsOf(step)) && Unused(st, IdsOf(step)) && Get(step, "kind") == Str("parallel")
    ensures Kept(st, ExecParallel(step, env, st).1, IdsOf(step))
    decreases step, 1
  {
    assert IdsOf(step)[0] == IdOf(step);
    if Get(step, "id").Str? && Lists(step, "branches") {
      var items, st0 := step.fields["branches"].items, Write(st, IdOf(step), Running, Null);
      StatusRecords.DistinctInner(step, "branches");
      BranchesKeep(items, map[], env, st0);
      ParallelEnds(step, env, st, ExecBranches(items, map[], env, st0).1);
    }
  }

  lemma {:induction false} ContainerKeeps(step: Value, env: Env, st: State)
    requires Distinct(IdsOf(step)) && Unused(st, IdsOf(step))
    requires Get(step, "kind") == Str("pipeline") || Get(step, "kind") == Str("phase")
    ensures Get(step, "kind") == Str("pipeline") ==> Kept(st, ExecPipeline(step, env, st).1, IdsOf(step))
    ensures Get(step, "kind") == Str("phase") ==> Kept(st, ExecPhase(step, env, st).1, IdsOf(step))
    decreases step, 1
  {
    assert IdsOf(step)[0] == IdOf(step);
    if Get(step, "id").Str? && Lists(step, "steps") {
      var items, st0 := step.fields["steps"].items, Write(st, IdOf(step), Running, Null);
      StatusRecords.DistinctInner(step, "steps");
      SequenceKeeps(items, env, st0);
      ContainerEnds(step, env, st, ExecSequence(items, env, st0).1);
    }
  }

  lemma ContainerEnds(step: Value, env: Env, st: State, mid: State)
    requires Get(step, "id").Str? && Lists(step, "steps") && IdOf(step) !in st.outputs && IdOf(step) in IdsOf(step)
    requires mid == ExecSequence(step.fields["steps"].items, env, Write(st, IdOf(step), Running, Null)).1
    requires Kept(st, mid, IdsIn(step.fields["steps"].items))
    requires forall k | k in IdsIn(step.fields["steps"].items) :: k in IdsOf(step)
    ensures Kept(st, ExecPipeline(step, env, st).1, IdsOf(step)) && Kept(st, ExecPhase(step, env, st).1, IdsOf(step))
  {
  }

  /** Whichever branch ran, a completed `if` leaves the outputs it found plus its own. */
  lemma {:induction false} IfAddsOnlyItself(step: Value, env: Env, st: State)
    requires Distinct(IdsOf(step)) && Unused(st, IdsOf(step)) && IsIf(step)
    ensures var (out, after) := ExecIf(step, env, st);
            && (out.Done? ==> after.outputs == st.outputs[IdOf(step) := out.out])
            && Kept(st, after, IdsOf(step))
    decreases step, 1
  {
    assert IdsOf(step)[0] == IdOf(step);
    if Get(step, "id").Str? && Has(step, "condition") {
      var st0 := Write(st, IdOf(step), Running, Null);
      var test := EvalCondition(Get(step, "condition"), env, st0);
      var key := if test.Ok? && test.value then "then" else "else";
      if test.Ok? && Truthy(Get(step, key)) && Lists(step, key) {
        StatusRecords.DistinctInner(step, key);
        SequenceKeeps(step.fields[key].items, env, st0);
        RestrictionRestores(st0, ExecSequence(step.fields[key].items, env, st0).1, IdsIn(step.fields[key].items));
      }
      IfEnds(step, key, env, st);
    }
  }

  /** Dropping what was added leaves what was there. */
  lemma RestrictionRestores(before: State, after: State, ids: seq<string>)
    requires Kept(before, after, ids)
    ensures (map k | k in after.outputs && k in before.outputs :: after.outputs[k]) == before.outputs
  {
  }

  /** What an `if` leaves, given that the branch it ran only added outputs. */
  lemma IfEnds(step: Value, key: string, env: Env, st: State)
    requires Get(step, "id").Str? && Has(step, "condition") && IdOf(step) !in st.outputs && IdOf(step) in IdsOf(step)
    requires var test := EvalCondition(Get(step, "condition"), env, Write(st, IdOf(step), Running, Null));
             key == if test.Ok? && test.value then "then" else "else"
    requires var st0 := Write(st, IdOf(step), Running, Null);
             EvalCondition(Get(step, "condition"), env, st0).Ok? && Truthy(Get(step, key)) && Lists(step, key) ==>
               var st1 := ExecSequence(step.fields[key].items, env, st0).1;
               && (map k | k in st1.outputs && k in st0.outputs :: st1.outputs[k]) == st.outputs
               && Kept(st, st1, IdsOf(step))
    ensures var (out, after) := ExecIf(step, env, st);
            && (out.Done? ==> after.outputs == st.outputs[IdOf(step) := out.out])
            && Kept(st, after, IdsOf(step))
  {
  }
}
