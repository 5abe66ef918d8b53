/** What the policy refuses (runtime.py:113-145, 379-394), traced to the definition:
    a run that ends for its fan-out, its awaits or a profile holds a step that
    really exceeds what the policy allows. */
module Refusals {
  import opened Json
  import opened Definition
  import opened Runtime
  import Controls
  import Dispatch

  /** The step and every step below it, in document order. */
  function TreeOf(step: Value): seq<Value>
    decreases step
  {
    [step]
    + (if Lists(step, "branches") then Trees(step.fields["branches"].items) else [])
    + (if Lists(step, "steps") then Trees(step.fields["steps"].items) else [])
    + (if Lists(step, "then") then Trees(step.fields["then"].items) else [])
    + (if Lists(step, "else") then Trees(step.fields["else"].items) else [])
  }

  function Trees(steps: seq<Value>): seq<Value>
    decreases steps
  {
    if steps == [] then [] else TreeOf(steps[0]) + Trees(steps[1..])
  }

  /** A parallel step with more branches than may run. */
  predicate TooWide(s: Value, env: Env) {
    Get(s, "kind") == Str("parallel") && Lists(s, "branches") && |s.fields["branches"].items| > env.maxParallel
  }

  /** A parallel step that could wait for more cards at once than the policy allows. */
  predicate TooManyAwaits(s: Value, env: Env) {
    && Get(s, "kind") == Str("parallel") && Lists(s, "branches")
    && env.policy.maxActiveAwaits.Some? && SumWaiting(s.fields["branches"].items) > env.policy.maxActiveAwaits.value
  }

  /** A Kanban step for a profile that is not on the list. */
  predicate NotAllowed(s: Value, env: Env) {
    && Get(s, "kind") == Str("kanban_agent") && env.policy.allowedProfiles.Some?
    && forall p | p in env.policy.allowedProfiles.value :: Get(s, "profile") != Str(p)
  }

  predicate Blames(s: Value, env: Env, why: Failure) {
    match why
    case FanOut => TooWide(s, env)
    case AwaitBudget => TooManyAwaits(s, env)
    case ProfileDenied => NotAllowed(s, env)
    case _ => true
  }

  ghost predicate Blamed(steps: seq<Value>, env: Env, why: Option<Failure>) {
    why.Some? && why.value in {FanOut, AwaitBudget, ProfileDenied} ==> exists s :: s in steps && Blames(s, env, why.value)
  }

  function Why(out: Outcome): Option<Failure> {
    if out.Failed? then Some(out.why) else None
  }

  lemma BlamedAmong(some: seq<Value>, all: seq<Value>, env: Env, why: Option<Failure>)
    requires Blamed(some, env, why) && forall s | s in some :: s in all
    ensures Blamed(all, env, why)
  {
  }

  lemma AgentBlames(step: Value, env: Env, st: State)
    ensures var why := Why(ExecAgent(step, env, st).0); why.Some? ==> why.value !in {FanOut, AwaitBudget, ProfileDenied}
  {
  }

  lemma KanbanBlames(step: Value, env: Env, st: State)
    requires Get(step, "kind") == Str("kanban_agent")
    ensures Blamed([step], env, Why(ExecKanban(step, env, st).0))
  {
    assert step in [step];
  }

  lemma {:induction false} StepBlames(step: Value, env: Env, st: State)
    ensures Blamed(TreeOf(step), env, Why(ExecStep(step, env, st).0))
    decreases step, 2
  {
    var tree := TreeOf(step);
    assert tree[0] == step;
    if step.Dict? && CheckDependsOn(step, st.outputs).None? {
      var kind := Get(step, "kind");
      if kind == Str("agent") {
        AgentBlames(step, env, st);
      } else if kind == Str("kanban_agent") {
        KanbanBlames(step, env, st);
        BlamedAmong([step], tree, env, Why(ExecKanban(step, env, st).0));
      } else if kind == Str("parallel") {
        ParallelBlames(step, env, st);
      } else if kind == Str("pipeline") || kind == Str("phase") {
        ContainerBlames(step, env, st);
      } else if kind == Str("if") {
        IfBlames(step, env, st);
      }
    }
  }

  lemma {:induction false} SequenceBlames(steps: seq<Value>, env: Env, st: State)
    ensures Blamed(Trees(steps), env, ExecSequence(steps, env, st).0)
    decreases steps, 0
  {
    if steps != [] {
      var (code, st1) := EnforceControl(env, st, false, []);
      if code == Controls.Allowed {
        var (out, st2) := ExecStep(steps[0], env, st1);
        StepBlames(steps[0], env, st1);
        if out.Done? {
          SequenceBlames(steps[1..], env, st2);
        }
      }
    }
  }

  lemma {:induction false} BranchesBlame(branches: seq<Value>, joined: map<string, Value>, env: Env, st: State)
    ensures var r := ExecBranches(branches, joined, env, st).0;
            Blamed(Trees(branches), env, if r.Err? then Some(r.why) else None)
    decreases branches, 0
  {
    if branches != [] {
      var (out, st1) := ExecStep(branches[0], env, st);
      StepBlames(branches[0], env, st);
      if out.Done? {
        BranchesBlame(branches[1..], joined[IdOf(branches[0]) := out.out], env, st1);
      }
    }
  }

  lemma {:induction false} ParallelBlames(step: Value, env: Env, st: State)
    requires Get(step, "kind") == Str("parallel")
    ensures Blamed(TreeOf(step), env, Why(ExecParallel(step, env, st).0))
    decreases step, 1
  {
    assert TreeOf(step)[0] == step;
    if Lists(step, "branches") && TooManyAwaits(step, env) {
      assert Blames(step, env, AwaitBudget);
    } else if Lists(step, "branches") && TooWide(step, env) {
      assert Blames(step, env, FanOut);
    } else if Lists(step, "branches") {
      BranchesBlame(step.fields["branches"].items, map[], env, Write(st, IdOf(step), Running, Null));
    }
  }

  lemma {:induction false} ContainerBlames(step: Value, env: Env, st: State)
    ensures Blamed(TreeOf(step), env, Why(ExecPipeline(step, env, st).0))
    ensures Blamed(TreeOf(step), env, Why(ExecPhase(step, env, st).0))
    decreases step, 1
  {
    if Lists(step, "steps") {
      SequenceBlames(step.fields["steps"].items, env, Write(st, IdOf(step), Running, Null));
    }
  }

  lemma {:induction false} IfBlames(step: Value, env: Env, st: State)
    ensures Blamed(TreeOf(step), env, Why(ExecIf(step, env, st).0))
    decreases step, 1
  {
    var st0 := Write(st, IdOf(step), Running, Null);
    if Lists(step, "then") {
      SequenceBlames(step.fields["then"].items, env, st0);
    }
    if Lists(step, "else") {
      SequenceBlames(step.fields["else"].items, env, st0);
    }
  }

  /** A run fails for its fan-out, its awaits or a profile only if its definition
      holds a step to blame. */
  lemma RefusalsAreReal(definition: Value, env: Env)
    ensures var failure, tree := Execute(definition, env).0, Trees(Steps(definition));
            && (failure == Some(FanOut) ==> exists s :: s in tree && TooWide(s, env))
            && (failure == Some(AwaitBudget) ==> exists s :: s in tree && TooManyAwaits(s, env))
            && (failure == Some(ProfileDenied) ==> exists s :: s in tree && NotAllowed(s, env))
  {
    SequenceBlames(Steps(definition), env, FRESH);
  }

  /** And a step to blame that is reached is refused, before it writes or calls
      anything: one that could await too much, and then one that is too wide. */
  lemma WideStepsAreRefused(step: Value, env: Env, st: State)
    requires step.Dict? && Get(step, "id").Str? && CheckDependsOn(step, st.outputs).None?
    ensures TooManyAwaits(step, env) ==> ExecStep(step, env, st) == (Outcome.Failed(AwaitBudget), st)
    ensures TooWide(step, env) && !TooManyAwaits(step, env) ==> ExecStep(step, env, st) == (Outcome.Failed(FanOut), st)
  {
  }

  /** The policy leaves room for one call more. */
  predicate HasRoom(env: Env, st: State, kanban: bool, profile: Value) {
    var p := env.policy;
    && (p.maxAgentCalls.Some? ==> st.agentCalls < p.maxAgentCalls.value)
    && (kanban && p.maxKanbanCards.Some? ==> st.kanbanCards < p.maxKanbanCards.value)
    && (kanban && p.allowedProfiles.Some? ==> exists name :: name in p.allowedProfiles.value && profile == Str(name))
  }

  /** A leaf may make its call exactly when the operator has not said no and the
      policy leaves room for it, and then the call is charged. */
  lemma AdmittedExactlyWhen(step: Value, kanban: bool, profile: Value, env: Env, st: State)
    ensures var (failure, after) := Admit(step, kanban, profile, env, st);
            && (failure.None? <==>
                  && HasRoom(env, st, kanban, profile)
                  && (env.controlled ==> !Dispatch.OperatorSaysNo(env.controls(st.checks), true, ControlRefs(step))))
            && (failure.None? ==> after.agentCalls == st.agentCalls + 1 && after.kanbanCards == st.kanbanCards + if kanban then 1 else 0)
            && (failure.Some? ==> after.agentCalls == st.agentCalls && after.kanbanCards == st.kanbanCards)
  {
    if env.controlled {
      Dispatch.CheckReading(env.controls(st.checks), true, ControlRefs(step));
    }
    hide CheckCode;
    hide ControlRefs;
    RoomIsNoFailure(env, EnforceControl(env, st, true, ControlRefs(step)).1, kanban, profile);
    hide BudgetFailure;
  }

  lemma RoomIsNoFailure(env: Env, st: State, kanban: bool, profile: Value)
    ensures BudgetFailure(env, st, kanban, profile).None? <==> HasRoom(env, st, kanban, profile)
  {
    assert profile.Str? ==> profile == Str(profile.s);
  }
}
