/** Dispatch safety over whole runs: budgets bound the calls that are made, and
    no call is made without, or after, the operator's word. Nothing here needs
    the definition to have been validated. */
module Dispatch {
  import opened Json
  import opened Definition
  import opened Runtime
  import Controls

  /** Runner calls among the events; Kanban calls only, when asked. */
  function Calls(events: seq<Event>, kanbanOnly: bool): nat {
    if events == [] then 0
    else
      var e := events[|events| - 1];
      Calls(events[..|events| - 1], kanbanOnly) + if e.Called? && (kanbanOnly ==> e.kanban) then 1 else 0
  }

  predicate Denies(e: Event) {
    e.Checked? && CheckCode(e.log, e.leaf, e.refs) != Controls.Allowed
  }

  /** The failure a denied check raises. */
  function Denial(e: Event): Failure
    requires e.Checked?
  {
    Failure.Denied(CheckCode(e.log, e.leaf, e.refs))
  }

  predicate FailureRecord(e: Event) {
    e.Wrote? && e.record.status == Status.Failed
  }

  /** After a denial, nothing but the unwinding of the run is recorded. */
  ghost predicate Unwinds(events: seq<Event>) {
    forall i, j | 0 <= i < j < |events| && Denies(events[i]) :: FailureRecord(events[j])
  }

  /** A call is the third of three events: the leaf's own control check, which
      allowed it, its `running` record, and the call. */
  ghost predicate Cleared(events: seq<Event>, i: nat, env: Env)
    requires i < |events| && events[i].Called?
  {
    && 0 < i && events[i - 1].Wrote? && events[i - 1].record.status == Running
    && (env.controlled ==>
          && 1 < i && events[i - 2].Checked? && events[i - 2].leaf && !Denies(events[i - 2])
          && (events[i - 1].record.id != "" ==> events[i - 1].record.id in events[i - 2].refs))
  }

  /** A Kanban call goes to a profile the policy allows. */
  predicate ProfileOk(e: Event, allowed: Option<set<string>>) {
    e.Called? && e.kanban ==>
      e.agent.Str? && "kanban." <= e.agent.s && (allowed.Some? ==> e.agent.s[7..] in allowed.value)
  }

  ghost predicate Guarded(events: seq<Event>, env: Env) {
    forall i | 0 <= i < |events| ::
      && (events[i].Called? ==> Cleared(events, i, env))
      && ProfileOk(events[i], env.policy.allowedProfiles)
  }

  predicate Within(spent: nat, limit: Option<nat>) {
    limit.Some? ==> spent <= limit.value
  }

  /** A budget is what stopped the run only if the calls had used it up. */
  ghost predicate UsedUp(spent: nat, limit: Option<nat>, failed: bool) {
    failed && Within(spent, limit) ==> limit == Some(spent)
  }

  /** The counters of the context against the calls that were made. */
  ghost predicate Counted(env: Env, before: State, events: seq<Event>, after: State, failure: Option<Failure>) {
    var all, cards := Calls(events, false), Calls(events, true);
    && UsedUp(before.agentCalls + all, env.policy.maxAgentCalls, failure == Some(AgentBudget))
    && UsedUp(before.kanbanCards + cards, env.policy.maxKanbanCards, failure == Some(KanbanBudget))
    && (failure.None? ==> after.agentCalls == before.agentCalls + all && after.kanbanCards == before.kanbanCards + cards)
    && (Within(before.agentCalls, env.policy.maxAgentCalls) ==> Within(before.agentCalls + all, env.policy.maxAgentCalls))
    && (Within(before.kanbanCards, env.policy.maxKanbanCards) ==> Within(before.kanbanCards + cards, env.policy.maxKanbanCards))
  }

  /** A denial is what the run fails with, and it fails with no other denial. */
  ghost predicate Explains(events: seq<Event>, failure: Option<Failure>) {
    && (forall i | 0 <= i < |events| && Denies(events[i]) :: failure == Some(Denial(events[i])))
    && (failure.Some? && failure.value.Denied? ==> exists i | 0 <= i < |events| :: Denies(events[i]) && failure.value == Denial(events[i]))
  }

  ghost predicate Orderly(env: Env, events: seq<Event>, failure: Option<Failure>) {
    Guarded(events, env) && Unwinds(events) && Explains(events, failure)
  }

  ghost predicate Dispatched(env: Env, before: State, events: seq<Event>, after: State, failure: Option<Failure>) {
    && after.trace == before.trace + events
    && Counted(env, before, events, after, failure)
    && Orderly(env, events, failure)
  }

  /** What an outcome raises. */
  function Why(out: Outcome): Option<Failure> {
    if out.Failed? then Some(out.why) else None
  }

  lemma {:induction false} CallsAppend(a: seq<Event>, b: seq<Event>, kanbanOnly: bool)
    ensures Calls(a + b, kanbanOnly) == Calls(a, kanbanOnly) + Calls(b, kanbanOnly)
  {
    if b == [] {
      assert a + b == a;
    } else {
      CallsAppend(a, b[..|b| - 1], kanbanOnly);
      assert (a + b)[..|a + b| - 1] == a + b[..|b| - 1];
    }
  }

  lemma CallsOne(e: Event, kanbanOnly: bool)
    ensures Calls([e], kanbanOnly) == if e.Called? && (kanbanOnly ==> e.kanban) then 1 else 0
  {
    assert [e][..0] == [];
    assert Calls([], kanbanOnly) == 0;
  }

  lemma OrderlyThen(env: Env, a: seq<Event>, b: seq<Event>, failure: Option<Failure>)
    requires Orderly(env, a, None) && Orderly(env, b, failure)
    ensures Orderly(env, a + b, failure)
  {
    GuardedThen(env, a, b);
    ExplainsThen(a, b, failure);
    UnwindsThen(a, b);
  }

  lemma UnwindsThen(a: seq<Event>, b: seq<Event>)
    requires (forall i | 0 <= i < |a| :: !Denies(a[i])) && Unwinds(b)
    ensures Unwinds(a + b)
  {
    var c := a + b;
    forall i, j | 0 <= i < j < |c| && Denies(c[i]) ensures FailureRecord(c[j]) {
      LaterDenial(a, b, i);
      assert c[j] == b[j - |a|];
    }
  }

  lemma LaterDenial(a: seq<Event>, b: seq<Event>, i: nat)
    requires forall k | 0 <= k < |a| :: !Denies(a[k])
    requires i < |a + b| && Denies((a + b)[i])
    ensures |a| <= i && (a + b)[i] == b[i - |a|]
  {
  }

  lemma GuardedThen(env: Env, a: seq<Event>, b: seq<Event>)
    requires Guarded(a, env) && Guarded(b, env)
    ensures Guarded(a + b, env)
  {
    var c := a + b;
    forall i | 0 <= i < |c| ensures (c[i].Called? ==> Cleared(c, i, env)) && ProfileOk(c[i], env.policy.allowedProfiles) {
      if i < |a| {
        assert c[i] == a[i];
        assert a[i].Called? ==> Cleared(a, i, env);
      } else {
        assert c[i] == b[i - |a|];
        assert b[i - |a|].Called? ==> Cleared(b, i - |a|, env);
      }
    }
  }

  lemma ExplainsThen(a: seq<Event>, b: seq<Event>, failure: Option<Failure>)
    requires Explains(a, None) && Explains(b, failure)
    ensures Explains(a + b, failure)
  {
    var c := a + b;
    forall i | 0 <= i < |c| && Denies(c[i]) ensures failure == Some(Denial(c[i])) {
      LaterDenial(a, b, i);
    }
    if failure.Some? && failure.value.Denied? {
      var i :| 0 <= i < |b| && Denies(b[i]) && failure.value == Denial(b[i]);
      assert c[|a| + i] == b[i];
    }
  }

  lemma DispatchedThen(env: Env, st: State, a: seq<Event>, mid: State, b: seq<Event>, after: State, failure: Option<Failure>)
    requires Dispatched(env, st, a, mid, None) && Dispatched(env, mid, b, after, failure)
    ensures Dispatched(env, st, a + b, after, failure)
  {
    CallsAppend(a, b, false);
    CallsAppend(a, b, true);
    OrderlyThen(env, a, b, failure);
  }

  lemma CheckDispatches(env: Env, st: State, leaf: bool, refs: seq<string>) returns (events: seq<Event>)
    ensures var (code, after) := EnforceControl(env, st, leaf, refs);
            Dispatched(env, st, events, after, if code != Controls.Allowed then Some(Failure.Denied(code)) else None)
    ensures events == if env.controlled then [Checked(env.controls(st.checks), leaf, refs)] else []
  {
    events := [];
    if env.controlled {
      var e := Checked(env.controls(st.checks), leaf, refs);
      events := [e];
      CallsOne(e, false);
      CallsOne(e, true);
    }
  }

  /** One write before and one after add no call; a failing verdict may follow a denial. */
  lemma DispatchedAround(env: Env, st: State, r0: Record, inner: seq<Event>, mid: State, r1: Record, after: State, failure: Option<Failure>)
    returns (events: seq<Event>)
    requires r0.status == Running && r1.status == if failure.Some? then Status.Failed else Succeeded
    requires Dispatched(env, st.(records := Upsert(st.records, r0), trace := st.trace + [Wrote(r0)]), inner, mid, failure)
    requires after.trace == mid.trace + [Wrote(r1)]
    requires failure.None? ==> after.agentCalls == mid.agentCalls && after.kanbanCards == mid.kanbanCards
    ensures Dispatched(env, st, events, after, failure)
  {
    var e0, e1 := Wrote(r0), Wrote(r1);
    CallsOne(e0, false); CallsOne(e0, true); CallsOne(e1, false); CallsOne(e1, true);
    events := [e0] + inner + [e1];
    CallsAppend([e0], inner, false); CallsAppend([e0], inner, true);
    CallsAppend([e0] + inner, [e1], false); CallsAppend([e0] + inner, [e1], true);
    OrderlyThen(env, [e0], inner, failure);
    OrderlyBefore(env, [e0] + inner, r1, failure);
    assert after.trace == st.trace + events;
  }

  lemma OrderlyBefore(env: Env, a: seq<Event>, r: Record, failure: Option<Failure>)
    requires Orderly(env, a, failure) && r.status == if failure.Some? then Status.Failed else Succeeded
    ensures Orderly(env, a + [Wrote(r)], failure)
  {
    var c := a + [Wrote(r)];
    GuardedThen(env, a, [Wrote(r)]);
    forall i | 0 <= i < |c| && Denies(c[i]) ensures failure == Some(Denial(c[i])) {
      assert c[i] == a[i];
    }
    if failure.Some? && failure.value.Denied? {
      var i :| 0 <= i < |a| && Denies(a[i]) && failure.value == Denial(a[i]);
      assert c[i] == a[i];
    }
    forall i, j | 0 <= i < j < |c| && Denies(c[i]) ensures FailureRecord(c[j]) {
      assert c[i] == a[i];
      if j < |a| {
        assert c[j] == a[j];
      }
    }
  }

  // ------------------------------------------------------------------------
  // Leaf steps.
  // ------------------------------------------------------------------------

  lemma {:induction false} RefsUnderGrow(step: Value, keys: seq<string>, refs: seq<string>)
    ensures refs <= RefsUnder(step, keys, refs)
  {
    if keys != [] {
      var v := Get(step, keys[0]);
      RefsUnderGrow(step, keys[1..], if v.Str? && v.s != "" && v.s !in refs then refs + [v.s] else refs);
    }
  }

  lemma OwnIdIsARef(step: Value)
    requires IdOk(step)
    ensures Get(step, "id").s in ControlRefs(step)
  {
    var id := Get(step, "id").s;
    var keys := ["label", "title", "task_title", "agent", "profile"];
    var all := ["id", "label", "title", "task_title", "agent", "profile"];
    assert all[1..] == keys;
    RefsUnderGrow(step, keys, [id]);
    assert RefsUnder(step, all, []) == RefsUnder(step, keys, [] + [id]);
    assert [] + [id] == [id];
    assert ControlRefs(step)[0] == id;
  }

  /** The check, the charge, and the call of one leaf. */
  lemma EffectDispatches(step: Value, kanban: bool, profile: Value, agent: Value, payload: Value, env: Env, st: State)
    returns (events: seq<Event>)
    requires Admit(step, kanban, profile, env, st).0.None?
    requires ProfileOk(Called(IdOf(step), kanban, agent, payload), env.policy.allowedProfiles)
    ensures var (out, after) := ExecEffect(step, kanban, agent, payload, env, Admit(step, kanban, profile, env, st).1);
            Dispatched(env, st, events, after, Why(out))
  {
    var mid := Admit(step, kanban, profile, env, st).1;
    var check := CheckDispatches(env, st, true, ControlRefs(step));
    var (out, after) := ExecEffect(step, kanban, agent, payload, env, mid);
    events := check;
    if Get(step, "id").Str? {
      var id := Get(step, "id").s;
      if id != "" {
        OwnIdIsARef(step);
      }
      var e0, e1 := Wrote(Record(id, Running, Null)), Called(id, kanban, agent, payload);
      var e2 := Wrote(Record(id, if out.Failed? then Status.Failed else Succeeded, if out.Done? then out.out else Null));
      events := check + [e0, e1, e2];
      EffectTrace(step, kanban, agent, payload, env, mid);
      ThreeCalls(check, e0, e1, e2, false);
      ThreeCalls(check, e0, e1, e2, true);
      LeafIsOrderly(env, check, e0, e1, e2, Why(out));
    }
  }

  lemma EffectTrace(step: Value, kanban: bool, agent: Value, payload: Value, env: Env, st: State)
    requires Get(step, "id").Str?
    ensures var (out, after) := ExecEffect(step, kanban, agent, payload, env, st);
            var id := Get(step, "id").s;
            && after.trace == st.trace + [Wrote(Record(id, Running, Null)), Called(id, kanban, agent, payload),
                                          Wrote(Record(id, if out.Failed? then Status.Failed else Succeeded, if out.Done? then out.out else Null))]
            && after.agentCalls == st.agentCalls && after.kanbanCards == st.kanbanCards
  {
  }

  lemma ThreeCalls(check: seq<Event>, e0: Event, e1: Event, e2: Event, kanbanOnly: bool)
    requires (check == [] || (|check| == 1 && check[0].Checked?)) && e0.Wrote? && e1.Called? && e2.Wrote?
    ensures Calls(check + [e0, e1, e2], kanbanOnly) == if kanbanOnly ==> e1.kanban then 1 else 0
  {
    var events := check + [e0, e1, e2];
    assert events == ((check + [e0]) + [e1]) + [e2];
    CallsOne(e0, kanbanOnly); CallsOne(e1, kanbanOnly); CallsOne(e2, kanbanOnly);
    CallsAppend(check + [e0] + [e1], [e2], kanbanOnly);
    CallsAppend(check + [e0], [e1], kanbanOnly);
    CallsAppend(check, [e0], kanbanOnly);
    if check == [] {
      assert Calls(check, kanbanOnly) == 0;
    } else {
      assert check == [check[0]];
      CallsOne(check[0], kanbanOnly);
    }
  }

  ghost predicate OneCheck(env: Env, check: seq<Event>) {
    && (check == [] || (|check| == 1 && check[0].Checked? && check[0].leaf && !Denies(check[0])))
    && (env.controlled <==> check != [])
  }

  lemma LeafIsGuarded(env: Env, check: seq<Event>, e0: Event, e1: Event, e2: Event)
    requires OneCheck(env, check)
    requires e0.Wrote? && e0.record.status == Running && e1.Called? && e2.Wrote?
    requires check != [] && e0.record.id != "" ==> e0.record.id in check[0].refs
    requires ProfileOk(e1, env.policy.allowedProfiles)
    ensures Guarded(check + [e0, e1, e2], env)
  {
    var c := check + [e0, e1, e2];
    assert c == if check == [] then [e0, e1, e2] else [check[0], e0, e1, e2];
    forall i | 0 <= i < |c| && c[i].Called? ensures Cleared(c, i, env) {
      assert i == |check| + 1;
    }
  }

  lemma LeafIsOrderly(env: Env, check: seq<Event>, e0: Event, e1: Event, e2: Event, failure: Option<Failure>)
    requires OneCheck(env, check)
    requires e0.Wrote? && e0.record.status == Running && e1.Called? && e2.Wrote?
    requires check != [] && e0.record.id != "" ==> e0.record.id in check[0].refs
    requires ProfileOk(e1, env.policy.allowedProfiles)
    requires failure.Some? ==> !failure.value.Denied?
    ensures Orderly(env, check + [e0, e1, e2], failure)
  {
    LeafIsGuarded(env, check, e0, e1, e2);
    var c := check + [e0, e1, e2];
    assert c == if check == [] then [e0, e1, e2] else [check[0], e0, e1, e2];
    assert forall i | 0 <= i < |c| :: !Denies(c[i]);
  }

  /** A leaf refused, or stopped short of its call, has at most been checked. */
  lemma RefusalDispatches(step: Value, kanban: bool, profile: Value, env: Env, st: State, why: Failure) returns (events: seq<Event>)
    requires var (failure, _) := Admit(step, kanban, profile, env, st); failure == Some(why) || (failure.None? && !why.Denied? && why != AgentBudget && why != KanbanBudget)
    ensures Dispatched(env, st, events, Admit(step, kanban, profile, env, st).1, Some(why))
  {
    events := CheckDispatches(env, st, true, ControlRefs(step));
  }

  lemma AgentDispatches(step: Value, env: Env, st: State) returns (events: seq<Event>)
    ensures var (out, after) := ExecAgent(step, env, st); Dispatched(env, st, events, after, Why(out))
  {
    events := [];
    if Has(step, "agent") {
      var (failure, st1) := Admit(step, false, Null, env, st);
      var payload := EffectInput(step, env, st1);
      if failure.None? && payload.Some? {
        events := EffectDispatches(step, false, Null, Get(step, "agent"), payload.value, env, st);
      } else {
        events := RefusalDispatches(step, false, Null, env, st, ExecAgent(step, env, st).0.why);
      }
    }
  }

  lemma AllowedProfileIsNamed(step: Value, payload: Value, env: Env, st: State)
    requires Admit(step, true, Get(step, "profile"), env, st).0.None? && Get(step, "profile").Str?
    ensures ProfileOk(Called(IdOf(step), true, Str("kanban." + Get(step, "profile").s), payload), env.policy.allowedProfiles)
  {
    assert ("kanban." + Get(step, "profile").s)[7..] == Get(step, "profile").s;
  }

  lemma KanbanDispatches(step: Value, env: Env, st: State) returns (events: seq<Event>)
    ensures var (out, after) := ExecKanban(step, env, st); Dispatched(env, st, events, after, Why(out))
  {
    events := [];
    if Has(step, "profile") {
      var profile := Get(step, "profile");
      var (failure, st1) := Admit(step, true, profile, env, st);
      var task := Resolve(if Has(step, "task") then Get(step, "task") else Dict(map[]), env.inputs, st1.outputs);
      var input := EffectInput(step, env, st1);
      if failure.None? && task.Some? && input.Some? && profile.Str? {
        var payload := KanbanPayload(step, task.value, input.value);
        AllowedProfileIsNamed(step, payload, env, st);
        events := EffectDispatches(step, true, profile, Str("kanban." + profile.s), payload, env, st);
      } else {
        events := RefusalDispatches(step, true, profile, env, st, ExecKanban(step, env, st).0.why);
      }
    }
  }

  // ------------------------------------------------------------------------
  // The walk.
  // ------------------------------------------------------------------------

  lemma {:induction false} StepDispatches(step: Value, env: Env, st: State) returns (events: seq<Event>)
    ensures var (out, after) := ExecStep(step, env, st); Dispatched(env, st, events, after, Why(out))
    decreases step, 2
  {
    events := [];
    if step.Dict? && CheckDependsOn(step, st.outputs).None? {
      var kind := Get(step, "kind");
      if kind == Str("agent") {
        events := AgentDispatches(step, env, st);
      } else if kind == Str("kanban_agent") {
        events := KanbanDispatches(step, env, st);
      } else if kind == Str("parallel") {
        events := ParallelDispatches(step, env, st);
      } else if kind == Str("pipeline") || kind == Str("phase") {
        events := ContainerDispatches(step, env, st);
      } else if kind == Str("if") {
        events := IfDispatches(step, env, st);
      }
    }
  }

  lemma {:induction false} SequenceDispatches(steps: seq<Value>, env: Env, st: State) returns (events: seq<Event>)
    ensures var (failure, after) := ExecSequence(steps, env, st); Dispatched(env, st, events, after, failure)
    decreases steps, 0
  {
    events := [];
    if steps != [] {
      var (code, st1) := EnforceControl(env, st, false, []);
      events := CheckDispatches(env, st, false, []);
      if code == Controls.Allowed {
        var (out, st2) := ExecStep(steps[0], env, st1);
        var b := StepDispatches(steps[0], env, st1);
        DispatchedThen(env, st, events, st1, b, st2, Why(out));
        events := events + b;
        if out.Done? {
          var (failure, after) := ExecSequence(steps[1..], env, st2);
          var c := SequenceDispatches(steps[1..], env, st2);
          DispatchedThen(env, st, events, st2, c, after, failure);
          events := events + c;
        }
      }
    }
  }

  function WhyNot<T>(r: Result<T>): Option<Failure> {
    if r.Err? then Some(r.why) else None
  }

  lemma {:induction false} BranchesDispatch(branches: seq<Value>, joined: map<string, Value>, env: Env, st: State) returns (events: seq<Event>)
    ensures var (r, after) := ExecBranches(branches, joined, env, st); Dispatched(env, st, events, after, WhyNot(r))
    decreases branches, 0
  {
    events := [];
    if branches != [] {
      var (out, st1) := ExecStep(branches[0], env, st);
      events := StepDispatches(branches[0], env, st);
      if out.Done? {
        var joined' := joined[IdOf(branches[0]) := out.out];
        var (r, after) := ExecBranches(branches[1..], joined', env, st1);
        var c := BranchesDispatch(branches[1..], joined', env, st1);
        DispatchedThen(env, st, events, st1, c, after, WhyNot(r));
        events := events + c;
      }
    }
  }

  lemma {:induction false} ParallelDispatches(step: Value, env: Env, st: State) returns (events: seq<Event>)
    ensures var (out, after) := ExecParallel(step, env, st); Dispatched(env, st, events, after, Why(out))
    decreases step, 1
  {
    events := [];
    var (out, after) := ExecParallel(step, env, st);
    if Get(step, "id").Str? && Lists(step, "branches")
       && !(env.policy.maxActiveAwaits.Some? && SumWaiting(step.fields["branches"].items) > env.policy.maxActiveAwaits.value)
       && |step.fields["branches"].items| <= env.maxParallel {
      var id, items := IdOf(step), step.fields["branches"].items;
      var st0 := Write(st, id, Running, Null);
      var inner := BranchesDispatch(items, map[], env, st0);
      var (joined, mid) := ExecBranches(items, map[], env, st0);
      events := DispatchedAround(env, st, Record(id, Running, Null), inner, mid,
                                 Record(id, if out.Failed? then Status.Failed else Succeeded, if out.Done? then out.out else Null),
                                 after, Why(out));
    }
  }

  lemma {:induction false} ContainerDispatches(step: Value, env: Env, st: State) returns (events: seq<Event>)
    ensures var (out, after) := if Get(step, "kind") == Str("pipeline") then ExecPipeline(step, env, st) else ExecPhase(step, env, st);
            Dispatched(env, st, events, after, Why(out))
    decreases step, 1
  {
    events := [];
    if Get(step, "id").Str? {
      var id := IdOf(step);
      var (out, after) := if Get(step, "kind") == Str("pipeline") then ExecPipeline(step, env, st) else ExecPhase(step, env, st);
      var st0 := Write(st, id, Running, Null);
      var inner, mid := [], st0;
      if Lists(step, "steps") {
        inner := SequenceDispatches(step.fields["steps"].items, env, st0);
        mid := ExecSequence(step.fields["steps"].items, env, st0).1;
      }
      events := DispatchedAround(env, st, Record(id, Running, Null), inner, mid,
                                 Record(id, if out.Failed? then Status.Failed else Succeeded, if out.Done? then out.out else Null),
                                 after, Why(out));
    }
  }

  lemma {:induction false} IfDispatches(step: Value, env: Env, st: State) returns (events: seq<Event>)
    ensures var (out, after) := ExecIf(step, env, st); Dispatched(env, st, events, after, Why(out))
    decreases step, 1
  {
    events := [];
    if Get(step, "id").Str? {
      var id := IdOf(step);
      var (out, after) := ExecIf(step, env, st);
      var st0 := Write(st, id, Running, Null);
      var inner, mid := [], st0;
      if Has(step, "condition") {
        var test := EvalCondition(Get(step, "condition"), env, st0);
        var key := if test.Ok? && test.value then "then" else "else";
        if test.Ok? && Truthy(Get(step, key)) && Lists(step, key) {
          inner := SequenceDispatches(step.fields[key].items, env, st0);
          mid := ExecSequence(step.fields[key].items, env, st0).1;
        }
      }
      events := DispatchedAround(env, st, Record(id, Running, Null), inner, mid,
                                 Record(id, if out.Failed? then Status.Failed else Succeeded, if out.Done? then out.out else Null),
                                 after, Why(out));
    }
  }

  // ------------------------------------------------------------------------
  // Whole runs.
  // ------------------------------------------------------------------------

  /** No run, completed or failed, makes more calls than its policy allows. */
  lemma BudgetsBoundCalls(definition: Value, env: Env)
    ensures var trace := Execute(definition, env).1.trace;
            && Within(Calls(trace, false), env.policy.maxAgentCalls)
            && Within(Calls(trace, true), env.policy.maxKanbanCards)
  {
    var events := SequenceDispatches(Steps(definition), env, FRESH);
    assert FRESH.trace + events == events;
  }

  /** And a run that ends for want of a budget has made just as many calls as allowed. */
  lemma BudgetsAreUsedUp(definition: Value, env: Env)
    ensures var (failure, after) := Execute(definition, env);
            && (failure == Some(AgentBudget) ==> env.policy.maxAgentCalls == Some(Calls(after.trace, false)))
            && (failure == Some(KanbanBudget) ==> env.policy.maxKanbanCards == Some(Calls(after.trace, true)))
  {
    var events := SequenceDispatches(Steps(definition), env, FRESH);
    assert FRESH.trace + events == events;
  }

  /** What a log says against going on: a stop at any check; at a leaf check
      also an unresumed pause, or a stop of one of the leaf's names. */
  ghost predicate OperatorSaysNo(log: seq<Controls.Control>, leaf: bool, refs: seq<string>) {
    Controls.HasStop(log) || (leaf && (Controls.EndsPaused(log) || NamesStopped(log, refs)))
  }

  ghost predicate NamesStopped(log: seq<Controls.Control>, refs: seq<string>) {
    exists i | 0 <= i < |log| :: log[i].action == Controls.TaskStop && log[i].target.Some?
                                 && log[i].target.value != "" && log[i].target.value in refs
  }

  lemma {:induction false} FirstStoppedReading(log: seq<Controls.Control>, refs: seq<string>)
    requires !Controls.HasStop(log)
    ensures FirstStopped(Controls.Project(log), refs) == if NamesStopped(log, refs) then Controls.TaskStopped else Controls.Allowed
  {
    if refs != [] {
      FirstStoppedReading(log, refs[1..]);
      if refs[0] != "" {
        Controls.ContinueTaskReading(log, refs[0]);
        Controls.ProjectReadsTheLog(log);
      }
    }
  }

  /** The code of a check, read off the log. */
  lemma CheckReading(log: seq<Controls.Control>, leaf: bool, refs: seq<string>)
    ensures CheckCode(log, leaf, refs) ==
            if Controls.HasStop(log) then Controls.RunStopped
            else if leaf && Controls.EndsPaused(log) then Controls.RunPaused
            else if leaf && NamesStopped(log, refs) then Controls.TaskStopped
            else Controls.Allowed
  {
    Controls.ProjectReadsTheLog(log);
    if !Controls.HasStop(log) {
      FirstStoppedReading(log, refs);
    }
  }

  /** Once a check has seen the operator's no, the run fails with that denial and
      records only failures. */
  ghost predicate HeedsTheOperator(events: seq<Event>, failure: Option<Failure>) {
    forall i | 0 <= i < |events| && events[i].Checked? && OperatorSaysNo(events[i].log, events[i].leaf, events[i].refs) ::
      failure == Some(Denial(events[i])) && forall j | i < j < |events| :: FailureRecord(events[j])
  }

  lemma OrderlyHeeds(env: Env, events: seq<Event>, failure: Option<Failure>)
    requires Orderly(env, events, failure)
    ensures HeedsTheOperator(events, failure)
  {
    forall i | 0 <= i < |events| && events[i].Checked? && OperatorSaysNo(events[i].log, events[i].leaf, events[i].refs)
      ensures failure == Some(Denial(events[i])) && forall j | i < j < |events| :: FailureRecord(events[j])
    {
      CheckReading(events[i].log, events[i].leaf, events[i].refs);
      assert Denies(events[i]);
    }
  }

  /** Once a check sees the operator's no, no call follows in that run, and the
      run fails with that denial; and every call had an allowed check of its own
      just before. */
  lemma NoCallAfterTheOperatorSaysNo(definition: Value, env: Env)
    ensures var (failure, after) := Execute(definition, env);
            HeedsTheOperator(after.trace, failure) && Guarded(after.trace, env)
  {
    var events := SequenceDispatches(Steps(definition), env, FRESH);
    assert FRESH.trace + events == events;
    OrderlyHeeds(env, events, Execute(definition, env).0);
  }

  ghost predicate SawStop(events: seq<Event>) {
    exists i | 0 <= i < |events| :: events[i].Checked? && Controls.HasStop(events[i].log)
  }

  ghost predicate SawPause(events: seq<Event>) {
    exists i | 0 <= i < |events| ::
      events[i].Checked? && events[i].leaf && !Controls.HasStop(events[i].log) && Controls.EndsPaused(events[i].log)
  }

  /** A run ends stopped exactly when one of its checks saw a stop, and paused
      exactly when a leaf's check saw an unresumed pause and no stop. */
  lemma DenialsAreTheOperators(definition: Value, env: Env)
    ensures var (failure, after) := Execute(definition, env);
            && (failure == Some(Failure.Denied(Controls.RunStopped)) <==> SawStop(after.trace))
            && (failure == Some(Failure.Denied(Controls.RunPaused)) <==> SawPause(after.trace))
  {
    var events := SequenceDispatches(Steps(definition), env, FRESH);
    assert FRESH.trace + events == events;
    DenialsExplained(events, Execute(definition, env).0);
  }

  lemma DenialsExplained(events: seq<Event>, failure: Option<Failure>)
    requires Explains(events, failure)
    ensures failure == Some(Failure.Denied(Controls.RunStopped)) <==> SawStop(events)
    ensures failure == Some(Failure.Denied(Controls.RunPaused)) <==> SawPause(events)
  {
    forall i | 0 <= i < |events| && events[i].Checked?
      ensures Controls.HasStop(events[i].log) <==> Denial(events[i]).code == Controls.RunStopped
      ensures events[i].leaf && !Controls.HasStop(events[i].log) && Controls.EndsPaused(events[i].log)
              <==> Denial(events[i]).code == Controls.RunPaused
    {
      CheckReading(events[i].log, events[i].leaf, events[i].refs);
    }
  }
}
