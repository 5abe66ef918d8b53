/** What a completed step gives back, kind by kind (runtime.py:238-549), told from
    what its values denote and from what the steps below it gave. */
module StepMeaning {
  import opened Json
  import opened Definition
  import opened Runtime
  import opened Meaning
  import Controls
  import Dispatch
  import SchemaSubset
  import StatusRecords
  import WriteOnce

  // ------------------------------------------------------------------------
  // Leaf steps.
  // ------------------------------------------------------------------------

  function Given(step: Value, key: string): Value {
    if Has(step, key) then Get(step, key) else Dict(map[])
  }

  /** The runner gets what `input` denotes, wrapped unless it is a dict. */
  ghost predicate InputSays(step: Value, inputs: map<string, Value>, outputs: map<string, Value>, payload: Value) {
    exists d :: Denotes(Given(step, "input"), inputs, outputs, d)
                && payload == if d.Dict? then d else Dict(map["value" := d])
  }

  ghost predicate AgentCallSays(step: Value, inputs: map<string, Value>, outputs: map<string, Value>, e: Event) {
    e.Called? && e.step == IdOf(step) && !e.kanban && e.agent == Get(step, "agent") && InputSays(step, inputs, outputs, e.payload)
  }

  /** A card's call names the profile and carries the task and the input, each as denoted. */
  ghost predicate KanbanCallSays(step: Value, inputs: map<string, Value>, outputs: map<string, Value>, e: Event) {
    && e.Called? && e.step == IdOf(step) && e.kanban
    && Get(step, "profile").Str? && e.agent == Str("kanban." + Get(step, "profile").s)
    && e.payload.Dict?
    && var f := e.payload.fields;
       && f.Keys == {"profile", "task", "input", "wait", "durable"}
       && f["profile"] == Get(step, "profile") && f["durable"] == Bool(true)
       && f["wait"] == (if Has(step, "wait") then Get(step, "wait") else Bool(true))
       && Denotes(Given(step, "task"), inputs, outputs, f["task"])
       && InputSays(step, inputs, outputs, f["input"])
  }

  ghost predicate CallSays(step: Value, inputs: map<string, Value>, outputs: map<string, Value>, e: Event) {
    if Get(step, "kind") == Str("agent") then AgentCallSays(step, inputs, outputs, e) else KanbanCallSays(step, inputs, outputs, e)
  }

  /** The runner answered that call with a dict that fits the declared schema. */
  ghost predicate Answered(step: Value, env: Env, n: nat, e: Event, out: Value) {
    && e.Called? && env.runner(n, e.agent, e.payload) == Returns(out) && out.Dict?
    && SchemaSubset.NormalizeSchema(Get(step, "output_schema"), []) != SchemaSubset.Malformed
    && SchemaSubset.Accepts(out, Get(step, "output_schema"))
  }

  /** A leaf's call says what the leaf says; and a leaf that completed gives back,
      and publishes under its id, what the runner answered that call with. */
  ghost predicate LeafMeans(step: Value, env: Env, st: State, out: Outcome, after: State) {
    && st.trace <= after.trace
    && (forall e | e in after.trace[|st.trace|..] && e.Called? :: CallSays(step, env.inputs, st.outputs, e))
    && (out.Done? ==>
          && (exists e :: e in after.trace[|st.trace|..] && Answered(step, env, st.calls, e, out.out))
          && after.outputs == st.outputs[IdOf(step) := out.out] && after.calls == st.calls + 1)
  }

  lemma EffectCalls(step: Value, kanban: bool, agent: Value, payload: Value, env: Env, st: State)
    ensures var (out, after) := ExecEffect(step, kanban, agent, payload, env, st);
            var e := Called(IdOf(step), kanban, agent, payload);
            && st.trace <= after.trace
            && (forall x | x in after.trace[|st.trace|..] && x.Called? :: x == e)
            && (out.Done? ==> e in after.trace[|st.trace|..])
  {
    if Get(step, "id").Str? {
      Dispatch.EffectTrace(step, kanban, agent, payload, env, st);
      var (out, after) := ExecEffect(step, kanban, agent, payload, env, st);
      assert after.trace[|st.trace|..][1] == Called(IdOf(step), kanban, agent, payload);
    }
  }

  lemma EffectReturns(step: Value, kanban: bool, agent: Value, payload: Value, env: Env, st: State)
    requires ExecEffect(step, kanban, agent, payload, env, st).0.Done?
    ensures var (out, after) := ExecEffect(step, kanban, agent, payload, env, st);
            && Answered(step, env, st.calls, Called(IdOf(step), kanban, agent, payload), out.out)
            && after.outputs == st.outputs[IdOf(step) := out.out] && after.calls == st.calls + 1
            && after.last == Some(out.out)
  {
  }

  lemma AdmittedUnchanged(step: Value, kanban: bool, profile: Value, env: Env, st: State)
    ensures var mid := Admit(step, kanban, profile, env, st).1;
            && mid.outputs == st.outputs && mid.calls == st.calls && st.trace <= mid.trace
            && forall e | e in mid.trace[|st.trace|..] :: !e.Called?
  {
  }

  /** A call made after the admission, as part of the whole leaf. */
  lemma CallAfterAdmission(step: Value, kanban: bool, profile: Value, agent: Value, payload: Value, env: Env, st: State)
    requires var e := Called(IdOf(step), kanban, agent, payload); CallSays(step, env.inputs, st.outputs, e)
    ensures var (out, after) := ExecEffect(step, kanban, agent, payload, env, Admit(step, kanban, profile, env, st).1);
            LeafMeans(step, env, st, out, after)
  {
    var mid := Admit(step, kanban, profile, env, st).1;
    var (out, after) := ExecEffect(step, kanban, agent, payload, env, mid);
    AdmittedUnchanged(step, kanban, profile, env, st);
    EffectCalls(step, kanban, agent, payload, env, mid);
    if out.Done? {
      EffectReturns(step, kanban, agent, payload, env, mid);
    }
    LaterEvents(st.trace, mid.trace, after.trace);
  }

  lemma LaterEvents(a: seq<Event>, b: seq<Event>, c: seq<Event>)
    requires a <= b <= c
    ensures c[|a|..] == b[|a|..] + c[|b|..]
  {
  }

  lemma InputIsDenoted(step: Value, env: Env, st: State)
    requires EffectInput(step, env, st).Some?
    ensures InputSays(step, env.inputs, st.outputs, EffectInput(step, env, st).value)
  {
    var d := Resolve(Given(step, "input"), env.inputs, st.outputs).value;
    ResolvingIsDenoting(Given(step, "input"), env.inputs, st.outputs, d);
  }

  lemma AgentMeans(step: Value, env: Env, st: State)
    requires Get(step, "kind") == Str("agent")
    ensures var (out, after) := ExecAgent(step, env, st); LeafMeans(step, env, st, out, after)
  {
    if Has(step, "agent") {
      AdmittedUnchanged(step, false, Null, env, st);
      var (failure, mid) := Admit(step, false, Null, env, st);
      var payload := EffectInput(step, env, mid);
      if failure.None? && payload.Some? {
        InputIsDenoted(step, env, mid);
        CallAfterAdmission(step, false, Null, Get(step, "agent"), payload.value, env, st);
      }
    }
  }

  lemma CardSays(step: Value, env: Env, st: State, task: Value, input: Value)
    requires Get(step, "profile").Str?
    requires Resolve(Given(step, "task"), env.inputs, st.outputs) == Some(task) && EffectInput(step, env, st) == Some(input)
    ensures KanbanCallSays(step, env.inputs, st.outputs,
                           Called(IdOf(step), true, Str("kanban." + Get(step, "profile").s), KanbanPayload(step, task, input)))
  {
    InputIsDenoted(step, env, st);
    ResolvingIsDenoting(Given(step, "task"), env.inputs, st.outputs, task);
  }

  lemma KanbanMeans(step: Value, env: Env, st: State)
    requires Get(step, "kind") == Str("kanban_agent")
    ensures var (out, after) := ExecKanban(step, env, st); LeafMeans(step, env, st, out, after)
  {
    if Has(step, "profile") {
      var profile := Get(step, "profile");
      AdmittedUnchanged(step, true, profile, env, st);
      var (failure, mid) := Admit(step, true, profile, env, st);
      var task, input := Resolve(Given(step, "task"), env.inputs, mid.outputs), EffectInput(step, env, mid);
      if failure.None? && task.Some? && input.Some? && profile.Str? {
        CardSays(step, env, mid, task.value, input.value);
        CallAfterAdmission(step, true, profile, Str("kanban." + profile.s), KanbanPayload(step, task.value, input.value), env, st);
      }
    }
  }

  /** Every leaf means what it says, whatever the host answers. */
  lemma LeavesMeanWhatTheySay(step: Value, env: Env, st: State)
    requires IsEffect(Get(step, "kind"))
    ensures var (out, after) := ExecStep(step, env, st); LeafMeans(step, env, st, out, after)
  {
    if step.Dict? && CheckDependsOn(step, st.outputs).None? {
      if Get(step, "kind") == Str("agent") {
        AgentMeans(step, env, st);
      } else {
        KanbanMeans(step, env, st);
      }
    }
  }

  /** A call completes exactly on a dict that fits the declared schema, and every
      other answer is the failure it should be. */
  lemma CallsCompleteExactlyWhen(step: Value, kanban: bool, agent: Value, payload: Value, env: Env, st: State)
    requires Get(step, "id").Str?
    ensures var out, reply := ExecEffect(step, kanban, agent, payload, env, st).0, env.runner(st.calls, agent, payload);
            var schema := Get(step, "output_schema");
            && (out.Done? <==> reply.Returns? && Answered(step, env, st.calls, Called(IdOf(step), kanban, agent, payload), reply.v))
            && (out == Outcome.Failed(RunnerRaised) <==> reply.Raises?)
            && (out == Outcome.Failed(NotADict) <==> reply.Returns? && !reply.v.Dict?)
            && (out == Outcome.Failed(SchemaMalformed) <==>
                  reply.Returns? && reply.v.Dict? && SchemaSubset.NormalizeSchema(schema, []) == SchemaSubset.Malformed)
            && (out == Outcome.Failed(SchemaViolated) <==>
                  && reply.Returns? && reply.v.Dict? && SchemaSubset.NormalizeSchema(schema, []) != SchemaSubset.Malformed
                  && !SchemaSubset.Accepts(reply.v, schema))
  {
  }

  /** A step whose declared dependencies are not all published does nothing. */
  lemma NoStepBeforeItsDependencies(step: Value, env: Env, st: State)
    requires Lists(step, "depends_on")
    ensures (exists i :: 0 <= i < |Deps(step)| && Deps(step)[i].Str? && Deps(step)[i].s !in st.outputs)
            <==> CheckDependsOn(step, st.outputs) == Some(MissingDependency)
    ensures (exists i :: 0 <= i < |Deps(step)| && Deps(step)[i].Str? && Deps(step)[i].s !in st.outputs)
            ==> ExecStep(step, env, st) == (Outcome.Failed(MissingDependency), st)
  {
    var items := Get(step, "depends_on").items;
    assert Deps(step) == items;
    assert (exists i :: 0 <= i < |items| && items[i].Str? && items[i].s !in st.outputs)
           <==> !(forall i | 0 <= i < |items| :: items[i].Str? ==> items[i].s in st.outputs);
  }

  // ------------------------------------------------------------------------
  // Sequences.
  // ------------------------------------------------------------------------

  /** A completed step publishes what it gives, and leaves it as the latest output. */
  lemma StepYields(step: Value, env: Env, st: State)
    ensures var (out, after) := ExecStep(step, env, st);
            out.Done? ==> IdOf(step) in after.outputs && after.outputs[IdOf(step)] == out.out && LastOrEmpty(after) == out.out
  {
    var out := ExecStep(step, env, st).0;
    if out.Done? {
      if Get(step, "kind") == Str("agent") {
        AgentYields(step, env, st);
      } else if Get(step, "kind") == Str("kanban_agent") {
        KanbanYields(step, env, st);
      } else if Get(step, "kind") == Str("parallel") {
        ParallelYields(step, env, st);
      } else if Get(step, "kind") == Str("pipeline") {
        PipelineYields(step, env, st);
      } else if Get(step, "kind") == Str("phase") {
        PhaseYields(step, env, st);
      } else {
        IfYields(step, env, st);
      }
    }
  }

  lemma ParallelYields(step: Value, env: Env, st: State)
    ensures var (out, after) := ExecParallel(step, env, st);
            out.Done? ==> IdOf(step) in after.outputs && after.outputs[IdOf(step)] == out.out && LastOrEmpty(after) == out.out
  {
  }

  lemma PipelineYields(step: Value, env: Env, st: State)
    ensures var (out, after) := ExecPipeline(step, env, st);
            out.Done? ==> IdOf(step) in after.outputs && after.outputs[IdOf(step)] == out.out && LastOrEmpty(after) == out.out
  {
  }

  lemma PhaseYields(step: Value, env: Env, st: State)
    ensures var (out, after) := ExecPhase(step, env, st);
            out.Done? ==> IdOf(step) in after.outputs && after.outputs[IdOf(step)] == out.out && LastOrEmpty(after) == out.out
  {
  }

  lemma IfYields(step: Value, env: Env, st: State)
    ensures var (out, after) := ExecIf(step, env, st);
            out.Done? ==> IdOf(step) in after.outputs && after.outputs[IdOf(step)] == out.out && LastOrEmpty(after) == out.out
  {
  }

  lemma AgentYields(step: Value, env: Env, st: State)
    requires ExecAgent(step, env, st).0.Done?
    ensures var (out, after) := ExecAgent(step, env, st);
            IdOf(step) in after.outputs && after.outputs[IdOf(step)] == out.out && LastOrEmpty(after) == out.out
  {
    var mid := Admit(step, false, Null, env, st).1;
    EffectReturns(step, false, Get(step, "agent"), EffectInput(step, env, mid).value, env, mid);
  }

  lemma KanbanYields(step: Value, env: Env, st: State)
    requires ExecKanban(step, env, st).0.Done?
    ensures var (out, after) := ExecKanban(step, env, st);
            IdOf(step) in after.outputs && after.outputs[IdOf(step)] == out.out && LastOrEmpty(after) == out.out
  {
    var mid := Admit(step, true, Get(step, "profile"), env, st).1;
    var task := Resolve(Given(step, "task"), env.inputs, mid.outputs).value;
    EffectReturns(step, true, Str("kanban." + Get(step, "profile").s), KanbanPayload(step, task, EffectInput(step, env, mid).value), env, mid);
  }

  predicate Ends(step: Value, env: Env, before: State, o: Value, after: State) {
    ExecStep(step, env, before) == (Done(o), after)
  }

  /** A completed sequence ends in a completed last step, and leaves its output as
      the latest; an empty one changes nothing. */
  ghost predicate EndsWith(steps: seq<Value>, env: Env, st: State, after: State, o: Value) {
    if steps == [] then after == st
    else EndsInStep(steps[|steps| - 1], env, o, after)
  }

  ghost predicate EndsInStep(last: Value, env: Env, o: Value, after: State) {
    exists before :: Ends(last, env, before, o, after)
  }

  lemma {:induction false} SequenceYieldsItsLast(steps: seq<Value>, env: Env, st: State)
    requires ExecSequence(steps, env, st).0.None?
    ensures var after := ExecSequence(steps, env, st).1; EndsWith(steps, env, st, after, LastOrEmpty(after))
    decreases steps
  {
    if steps != [] {
      var st1 := EnforceControl(env, st, false, []).1;
      var (out, st2) := ExecStep(steps[0], env, st1);
      StepYields(steps[0], env, st1);
      if |steps| > 1 {
        SequenceYieldsItsLast(steps[1..], env, st2);
        assert steps[1..][|steps| - 2] == steps[|steps| - 1];
      } else {
        assert Ends(steps[0], env, st1, out.out, st2);
        assert steps[1..] == [];
      }
    }
  }

  // ------------------------------------------------------------------------
  // Containers and conditionals.
  // ------------------------------------------------------------------------

  /** A pipeline gives the output of its last step. */
  lemma PipelinesYieldTheirLast(step: Value, env: Env, st: State)
    requires Lists(step, "steps") && step.fields["steps"].items != []
    requires ExecPipeline(step, env, st).0.Done?
    ensures var steps, st0 := step.fields["steps"].items, Write(st, IdOf(step), Running, Null);
            EndsWith(steps, env, st0, ExecSequence(steps, env, st0).1, ExecPipeline(step, env, st).0.out)
  {
    SequenceYieldsItsLast(step.fields["steps"].items, env, Write(st, IdOf(step), Running, Null));
  }

  /** A phase gives the ids of its steps, in their order. */
  lemma PhasesYieldTheirIds(step: Value, env: Env, st: State)
    requires Lists(step, "steps") && forall s | s in step.fields["steps"].items :: s.Dict?
    requires ExecPhase(step, env, st).0.Done?
    ensures var out, steps := ExecPhase(step, env, st).0.out, step.fields["steps"].items;
            && out.Dict? && out.fields.Keys == {"completed"} && out.fields["completed"].List?
            && |out.fields["completed"].items| == |steps|
            && forall i | 0 <= i < |steps| :: out.fields["completed"].items[i] == Get(steps[i], "id")
  {
    CompletedIdsAre(step.fields["steps"].items);
  }

  lemma {:induction false} CompletedIdsAre(steps: seq<Value>)
    requires forall s | s in steps :: s.Dict?
    ensures |CompletedIds(steps)| == |steps|
    ensures forall i | 0 <= i < |steps| :: CompletedIds(steps)[i] == Get(steps[i], "id")
  {
    if steps != [] {
      CompletedIdsAre(steps[1..]);
    }
  }

  /** The branches so far, under their ids, as published. */
  ghost predicate Joins(branches: seq<Value>, before: map<string, Value>, joined: map<string, Value>, after: State) {
    && joined.Keys == before.Keys + (set i | 0 <= i < |branches| :: IdOf(branches[i]))
    && (forall i | 0 <= i < |branches| :: Published(IdOf(branches[i]), joined, after))
    && (forall k | k in before && (forall i | 0 <= i < |branches| :: IdOf(branches[i]) != k) :: joined[k] == before[k])
  }

  predicate Published(id: string, joined: map<string, Value>, after: State) {
    id in joined && id in after.outputs && joined[id] == after.outputs[id]
  }

  lemma FirstBranch(branches: seq<Value>, before: map<string, Value>, env: Env, st: State)
    requires branches != [] && ExecBranches(branches, before, env, st).0.Ok?
    ensures var (out, st1) := ExecStep(branches[0], env, st);
            && out.Done?
            && ExecBranches(branches, before, env, st) == ExecBranches(branches[1..], before[IdOf(branches[0]) := out.out], env, st1)
  {
  }

  lemma {:induction false} BranchesJoin(branches: seq<Value>, before: map<string, Value>, env: Env, st: State)
    requires Distinct(IdsIn(branches)) && WriteOnce.Unused(st, IdsIn(branches))
    requires ExecBranches(branches, before, env, st).0.Ok?
    ensures var (joined, after) := ExecBranches(branches, before, env, st);
            Joins(branches, before, joined.value, after)
    decreases branches
  {
    hide WriteOnce.Kept;
    hide WriteOnce.Unused;
    hide Joins;
    if branches == [] {
      NothingJoins(before, env, st);
    } else {
      FirstBranch(branches, before, env, st);
      hide ExecStep;
      hide ExecBranches;
      var (out, st1) := ExecStep(branches[0], env, st);
      var before' := before[IdOf(branches[0]) := out.out];
      FirstIsApart(branches, st);
      WriteOnce.StepKeeps(branches[0], env, st);
      RestIsUnused(branches, st, st1);
      BranchesJoin(branches[1..], before', env, st1);
      WriteOnce.BranchesKeep(branches[1..], before', env, st1);
      StepYields(branches[0], env, st);
      var (joined, after) := ExecBranches(branches[1..], before', env, st1);
      StillPublished(IdOf(branches[0]), st1, after, IdsIn(branches[1..]));
      OneBranchMore(branches, before, out.out, joined.value, after);
    }
  }

  lemma NothingJoins(before: map<string, Value>, env: Env, st: State)
    ensures Joins([], before, before, st) && ExecBranches([], before, env, st) == (Ok(before), st)
  {
  }

  lemma StillPublished(id: string, st: State, after: State, ids: seq<string>)
    requires id in st.outputs && WriteOnce.Kept(st, after, ids)
    ensures id in after.outputs && after.outputs[id] == st.outputs[id]
  {
  }

  /** Ids of other branches are others, and not used by the time it has run. */
  lemma FirstIsApart(branches: seq<Value>, st: State)
    requires branches != [] && Distinct(IdsIn(branches)) && WriteOnce.Unused(st, IdsIn(branches))
    ensures Distinct(IdsOf(branches[0])) && WriteOnce.Unused(st, IdsOf(branches[0])) && Distinct(IdsIn(branches[1..]))
    ensures forall i | 1 <= i < |branches| :: IdOf(branches[i]) != IdOf(branches[0])
  {
    var first, rest := IdsOf(branches[0]), IdsIn(branches[1..]);
    assert IdsIn(branches) == first + rest && first[0] == IdOf(branches[0]);
    StatusRecords.DistinctSplit(first, rest);
    forall i | 1 <= i < |branches| ensures IdOf(branches[i]) in rest {
      assert branches[i] == branches[1..][i - 1];
      IdsOfBranches(branches[1..]);
    }
    assert IdOf(branches[0]) in first;
  }

  lemma RestIsUnused(branches: seq<Value>, st: State, st1: State)
    requires branches != [] && Distinct(IdsIn(branches)) && WriteOnce.Unused(st, IdsIn(branches))
    requires WriteOnce.Kept(st, st1, IdsOf(branches[0]))
    ensures WriteOnce.Unused(st1, IdsIn(branches[1..]))
  {
    StatusRecords.DistinctSplit(IdsOf(branches[0]), IdsIn(branches[1..]));
  }

  lemma {:induction false} IdsOfBranches(branches: seq<Value>)
    ensures forall i | 0 <= i < |branches| :: IdOf(branches[i]) in IdsIn(branches)
  {
    if branches != [] {
      IdsOfBranches(branches[1..]);
      assert IdsOf(branches[0])[0] == IdOf(branches[0]);
      forall i | 0 <= i < |branches| ensures IdOf(branches[i]) in IdsIn(branches) {
        if i > 0 {
          assert branches[i] == branches[1..][i - 1];
        }
      }
    }
  }

  lemma BranchIds(branches: seq<Value>)
    requires branches != []
    ensures (set i | 0 <= i < |branches| :: IdOf(branches[i]))
            == {IdOf(branches[0])} + (set i | 0 <= i < |branches[1..]| :: IdOf(branches[1..][i]))
  {
    var rest := branches[1..];
    assert forall i | 1 <= i < |branches| :: branches[i] == rest[i - 1];
    forall i | 0 <= i < |rest| ensures IdOf(rest[i]) in (set j | 0 <= j < |branches| :: IdOf(branches[j])) {
      assert rest[i] == branches[i + 1];
    }
  }

  lemma OneBranchMore(branches: seq<Value>, before: map<string, Value>, out: Value, joined: map<string, Value>, after: State)
    requires branches != [] && Joins(branches[1..], before[IdOf(branches[0]) := out], joined, after)
    requires forall i | 1 <= i < |branches| :: IdOf(branches[i]) != IdOf(branches[0])
    requires IdOf(branches[0]) in after.outputs && after.outputs[IdOf(branches[0])] == out
    ensures Joins(branches, before, joined, after)
  {
    var id, rest := IdOf(branches[0]), branches[1..];
    assert forall i | 1 <= i < |branches| :: branches[i] == rest[i - 1];
    BranchIds(branches);
    forall i | 0 <= i < |branches| ensures Published(IdOf(branches[i]), joined, after) {
      if i > 0 {
        assert Published(IdOf(rest[i - 1]), joined, after);
      }
    }
  }

  /** A parallel step gives every branch's output, as published, under the
      branch's id. */
  lemma ParallelsJoinTheirBranches(step: Value, env: Env, st: State)
    requires Get(step, "kind") == Str("parallel") && Distinct(IdsOf(step)) && WriteOnce.Unused(st, IdsOf(step))
    requires Lists(step, "branches") && ExecParallel(step, env, st).0.Done?
    ensures var (out, after) := ExecParallel(step, env, st);
            var branches := step.fields["branches"].items;
            && out.out.Dict? && out.out.fields.Keys == {"branches"} && out.out.fields["branches"].Dict?
            && var joined := out.out.fields["branches"].fields;
               && joined.Keys == (set i | 0 <= i < |branches| :: IdOf(branches[i]))
               && forall i | 0 <= i < |branches| :: Published(IdOf(branches[i]), joined, after)
  {
    var branches := step.fields["branches"].items;
    var st0 := Write(st, IdOf(step), Running, Null);
    StatusRecords.DistinctInner(step, "branches");
    BranchesJoin(branches, map[], env, st0);
    IdsOfBranches(branches);
  }

  /** A completed `if` reports the branch that its condition chose, and the output
      of that branch's last step; it ran that branch and nothing else. */
  ghost predicate IfMeans(step: Value, env: Env, st: State, out: Value, after: State) {
    exists yes :: ConditionSays(Get(step, "condition"), env.inputs, st.outputs, yes)
                  && BranchRan(step, if yes then "then" else "else", env, st, out, after)
  }

  ghost predicate BranchRan(step: Value, key: string, env: Env, st: State, out: Value, after: State) {
    && out.Dict? && out.fields.Keys == {"branch", "output"} && out.fields["branch"] == Str(key)
    && var steps, st0 := Items(Get(step, key)), Write(st, IdOf(step), Running, Null);
       exists mid ::
         && ExecSequence(steps, env, st0) == (None, mid)
         && (if steps == [] then out.fields["output"] == Dict(map[]) else EndsWith(steps, env, st0, mid, out.fields["output"]))
         && after.trace == mid.trace + [Wrote(Record(IdOf(step), Succeeded, out))]
  }

  lemma ChosenBranchRan(step: Value, key: string, env: Env, st: State)
    requires ExecIf(step, env, st).0.Done?
    requires var test := EvalCondition(Get(step, "condition"), env, Write(st, IdOf(step), Running, Null));
             test.Ok? && key == if test.value then "then" else "else"
    ensures var (out, after) := ExecIf(step, env, st); BranchRan(step, key, env, st, out.out, after)
  {
    var st0 := Write(st, IdOf(step), Running, Null);
    if Truthy(Get(step, key)) {
      SequenceYieldsItsLast(step.fields[key].items, env, st0);
    } else {
      assert Items(Get(step, key)) == [];
      assert ExecSequence([], env, st0) == (None, st0);
    }
  }

  lemma IfsMeanTheirCondition(step: Value, env: Env, st: State)
    ensures var (out, after) := ExecIf(step, env, st); out.Done? ==> IfMeans(step, env, st, out.out, after)
  {
    if ExecIf(step, env, st).0.Done? {
      var st0 := Write(st, IdOf(step), Running, Null);
      var test := EvalCondition(Get(step, "condition"), env, st0);
      ConditionsAnswer(Get(step, "condition"), env, st0);
      ChosenBranchRan(step, if test.value then "then" else "else", env, st);
    }
  }

  /** The names under which the operator may stop a step. */
  lemma ControlRefsAre(step: Value, name: string)
    ensures name in ControlRefs(step) <==>
            name != "" && Str(name) in [Get(step, "id"), Get(step, "label"), Get(step, "title"),
                                        Get(step, "task_title"), Get(step, "agent"), Get(step, "profile")]
  {
    var keys := ["id", "label", "title", "task_title", "agent", "profile"];
    RefsAre(step, keys, [], name);
    assert keys[0] == "id" && keys[1] == "label" && keys[2] == "title"
           && keys[3] == "task_title" && keys[4] == "agent" && keys[5] == "profile";
  }

  lemma {:induction false} RefsAre(step: Value, keys: seq<string>, refs: seq<string>, name: string)
    ensures name in RefsUnder(step, keys, refs) <==> name in refs || (name != "" && exists i :: 0 <= i < |keys| && Get(step, keys[i]) == Str(name))
    decreases keys
  {
    if keys != [] {
      var v := Get(step, keys[0]);
      RefsAre(step, keys[1..], if v.Str? && v.s != "" && v.s !in refs then refs + [v.s] else refs, name);
      assert forall i | 1 <= i < |keys| :: keys[i] == keys[1..][i - 1];
    }
  }
}
