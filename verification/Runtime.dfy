/** The interpreter (runtime.py) as a function of its inputs and of everything
    outside it: what the agent runner answers to its n-th call and what the
    operator log holds at the n-th control check. Both are arbitrary, so every
    statement about this function is about every host.

    A step is the raw JSON value, as in the source: reading a missing key or
    walking a value of the wrong type is the failure `Crash`. Timestamps, error
    texts and phase metadata of status records are not modelled. */
module Runtime {
  import opened Json
  import opened Definition
  import SchemaSubset
  import Controls

  datatype Failure =
    | Crash                       // KeyError, TypeError or AttributeError
    | MissingDependency
    | BadReference                // malformed or unavailable
    | UnknownKind
    | UnknownOp
    | ProfileDenied
    | AgentBudget
    | KanbanBudget
    | AwaitBudget
    | FanOut
    | Denied(code: Controls.Code)
    | RunnerRaised
    | NotADict
    | SchemaMalformed
    | SchemaViolated

  datatype Outcome = Done(out: Value) | Failed(why: Failure)

  datatype Status = Running | Succeeded | Failed

  datatype Record = Record(id: string, status: Status, output: Value)

  /** What a run does that can be seen from outside. */
  datatype Event =
    | Checked(log: seq<Controls.Control>, leaf: bool, refs: seq<string>)
    | Called(step: string, kanban: bool, agent: Value, payload: Value)
    | Wrote(record: Record)

  datatype Reply = Raises | Returns(v: Value)

  datatype Env = Env(
    inputs: map<string, Value>,
    maxParallel: nat,
    policy: Governance,
    runner: (nat, Value, Value) -> Reply,
    controlled: bool,
    controls: nat -> seq<Controls.Control>)

  /** `outputs`, `records`, `checks`, `calls` and `trace` are shared by every
      context of a run; the rest belongs to one context. */
  datatype State = State(
    outputs: map<string, Value>,
    last: Option<Value>,
    agentCalls: nat,
    kanbanCards: nat,
    records: seq<Record>,
    checks: nat,
    calls: nat,
    trace: seq<Event>)

  const FRESH: State := State(map[], None, 0, 0, [], 0, 0, [])

  // ------------------------------------------------------------------------
  // Status records.
  // ------------------------------------------------------------------------

  /** `_upsert_step`: replace the first record with the same id, or append. */
  function Upsert(records: seq<Record>, r: Record): seq<Record> {
    if records == [] then [r]
    else if records[0].id == r.id then [r] + records[1..]
    else [records[0]] + Upsert(records[1..], r)
  }

  function Write(st: State, id: string, status: Status, output: Value): State {
    var r := Record(id, status, output);
    st.(records := Upsert(st.records, r), trace := st.trace + [Wrote(r)])
  }

  // ------------------------------------------------------------------------
  // Controls and budgets.
  // ------------------------------------------------------------------------

  function RefsUnder(step: Value, keys: seq<string>, refs: seq<string>): seq<string> {
    if keys == [] then refs
    else
      var v := Get(step, keys[0]);
      RefsUnder(step, keys[1..], if v.Str? && v.s != "" && v.s !in refs then refs + [v.s] else refs)
  }

  /** `_step_control_refs`: the names a `task_stop` may use for a step. */
  function ControlRefs(step: Value): seq<string> {
    RefsUnder(step, ["id", "label", "title", "task_title", "agent", "profile"], [])
  }

  function VerdictCode(s: Controls.RunControlState, op: Controls.Operation, target: string): Controls.Code
    requires Controls.NeedsTarget(op) ==> target != ""
  {
    Controls.Evaluate(s, op, target).d.code
  }

  function FirstStopped(s: Controls.RunControlState, refs: seq<string>): Controls.Code {
    if refs == [] then Controls.Allowed
    else if refs[0] == "" then FirstStopped(s, refs[1..])
    else
      var code := VerdictCode(s, Controls.ContinueTask, refs[0]);
      if code != Controls.Allowed then code else FirstStopped(s, refs[1..])
  }

  /** The verdict of one check on a given log. */
  function CheckCode(log: seq<Controls.Control>, leaf: bool, refs: seq<string>): Controls.Code {
    var s := Controls.Project(log);
    var run := VerdictCode(s, Controls.CheckRun, "");
    if run != Controls.Allowed then run
    else if !leaf then Controls.Allowed
    else
      var start := VerdictCode(s, Controls.StartChild, "");
      if start != Controls.Allowed then start else FirstStopped(s, refs)
  }

  /** `_enforce_run_control`. */
  function EnforceControl(env: Env, st: State, leaf: bool, refs: seq<string>): (Controls.Code, State) {
    if !env.controlled then (Controls.Allowed, st)
    else
      var log := env.controls(st.checks);
      (CheckCode(log, leaf, refs),
       st.(checks := st.checks + 1, trace := st.trace + [Checked(log, leaf, refs)]))
  }

  /** `_check_effect_budget`: `None` when the call may go ahead. */
  function BudgetFailure(env: Env, st: State, kanban: bool, profile: Value): Option<Failure> {
    var p := env.policy;
    if kanban && p.allowedProfiles.Some? && !(profile.Str? && profile.s in p.allowedProfiles.value) then Some(ProfileDenied)
    else if p.maxAgentCalls.Some? && st.agentCalls >= p.maxAgentCalls.value then Some(AgentBudget)
    else if kanban && p.maxKanbanCards.Some? && st.kanbanCards >= p.maxKanbanCards.value then Some(KanbanBudget)
    else None
  }

  function Charge(st: State, kanban: bool): State {
    st.(agentCalls := st.agentCalls + 1, kanbanCards := st.kanbanCards + if kanban then 1 else 0)
  }

  // ------------------------------------------------------------------------
  // References and conditions.
  // ------------------------------------------------------------------------

  function Follow(v: Value, path: seq<string>): Value
    decreases path
  {
    if path == [] then v
    else if v.Dict? then Follow(Get(v, path[0]), path[1..])
    else Null
  }

  /** `_resolve`; `None` stands for the raised `SandboxPolicyError`. */
  function Resolve(v: Value, inputs: map<string, Value>, outputs: map<string, Value>): Option<Value>
    decreases v
  {
    match v
    case Str(s) =>
      (match ParseRef(s)
       case NotARef => Some(v)
       case Malformed => None
       case InputRef(key) => Some(if key in inputs then inputs[key] else Null)
       case OutputRef(id, path) =>
         if id in outputs && outputs[id] != Null then Some(Follow(outputs[id], path)) else None)
    case List(items) =>
      if forall i | 0 <= i < |items| :: Resolve(items[i], inputs, outputs).Some? then
        Some(List(seq(|items|, i requires 0 <= i < |items| => Resolve(items[i], inputs, outputs).GetOr(Null))))
      else None
    case Dict(fields) =>
      if forall k | k in fields :: Resolve(fields[k], inputs, outputs).Some? then
        Some(Dict(map k | k in fields :: Resolve(fields[k], inputs, outputs).GetOr(Null)))
      else None
    case _ => Some(v)
  }

  /** `_eval_condition`. */
  function EvalCondition(condition: Value, env: Env, st: State): (r: Result<bool>) {
    if !condition.Dict? then Err(Crash)
    else
      var op := Get(condition, "op");
      var value := Resolve(Get(condition, "ref"), env.inputs, st.outputs);
      if value.None? then
        if op == Str("exists") then Ok(false) else Err(BadReference)
      else if op == Str("truthy") then Ok(Truthy(value.value))
      else if op == Str("exists") then Ok(value.value != Null)
      else if op == Str("eq") then Ok(PyEq(value.value, Get(condition, "value")))
      else if op == Str("ne") then Ok(!PyEq(value.value, Get(condition, "value")))
      else Err(UnknownOp)
  }

  datatype Result<+T> = Ok(value: T) | Err(why: Failure)

  /** `_check_depends_on` over whatever truthy value the key holds. */
  function CheckDependsOn(step: Value, outputs: map<string, Value>): Option<Failure> {
    var v := Get(step, "depends_on");
    if !Truthy(v) then None
    else match v
      case List(items) =>
        if forall i | 0 <= i < |items| :: items[i].Str? ==> items[i].s in outputs then None else Some(MissingDependency)
      case Str(s) => if forall i | 0 <= i < |s| :: [s[i]] in outputs then None else Some(MissingDependency)
      case Dict(fields) => if forall k | k in fields :: k in outputs then None else Some(MissingDependency)
      case _ => Some(Crash)
  }

  // ------------------------------------------------------------------------
  // Await counting.
  // ------------------------------------------------------------------------

  function Max(a: nat, b: nat): nat {
    if a < b then b else a
  }

  /** `_waiting_kanban_count`. */
  function WaitingCount(step: Value): nat
    decreases step
  {
    if !step.Dict? then 0
    else
      var kind := Get(step, "kind");
      if kind == Str("kanban_agent") then
        if !Has(step, "wait") || Get(step, "wait") == Bool(true) then 1 else 0
      else if kind == Str("parallel") then
        if Lists(step, "branches") then SumWaiting(step.fields["branches"].items) else 0
      else if kind == Str("pipeline") || kind == Str("phase") then
        if Lists(step, "steps") then MaxWaiting(step.fields["steps"].items) else 0
      else if kind == Str("if") then
        Max(if Lists(step, "then") then MaxWaiting(step.fields["then"].items) else 0,
            if Lists(step, "else") then MaxWaiting(step.fields["else"].items) else 0)
      else 0
  }

  function SumWaiting(steps: seq<Value>): nat
    decreases steps
  {
    if steps == [] then 0 else WaitingCount(steps[0]) + SumWaiting(steps[1..])
  }

  function MaxWaiting(steps: seq<Value>): nat
    decreases steps
  {
    if steps == [] then 0 else Max(WaitingCount(steps[0]), MaxWaiting(steps[1..]))
  }

  // ------------------------------------------------------------------------
  // Executing steps.
  // ------------------------------------------------------------------------

  /** `_validate_output`. */
  function OutputFailure(output: Value, schema: Value): Option<Failure> {
    match SchemaSubset.NormalizeSchema(schema, [])
    case Malformed => Some(SchemaMalformed)
    case _ => if SchemaSubset.Accepts(output, schema) then None else Some(SchemaViolated)
  }

  /** `_exec_effect_step`: one call across the runner boundary. */
  function ExecEffect(step: Value, kanban: bool, agent: Value, payload: Value, env: Env, st: State): (Outcome, State) {
    if !Get(step, "id").Str? then (Outcome.Failed(Crash), st)
    else
      var id := Get(step, "id").s;
      var st1 := Write(st, id, Running, Null);
      var reply := env.runner(st1.calls, agent, payload);
      var st2 := st1.(calls := st1.calls + 1, trace := st1.trace + [Called(id, kanban, agent, payload)]);
      var failure :=
        if reply.Raises? then Some(RunnerRaised)
        else if !reply.v.Dict? then Some(NotADict)
        else OutputFailure(reply.v, Get(step, "output_schema"));
      if failure.Some? then (Outcome.Failed(failure.value), Write(st2, id, Status.Failed, Null))
      else
        var st3 := Write(st2, id, Succeeded, reply.v);
        (Done(reply.v), st3.(outputs := st3.outputs[id := reply.v], last := Some(reply.v)))
  }

  /** `_effect_input`. */
  function EffectInput(step: Value, env: Env, st: State): Option<Value> {
    var resolved := Resolve(if Has(step, "input") then Get(step, "input") else Dict(map[]), env.inputs, st.outputs);
    if resolved.None? then None
    else if resolved.value.Dict? then resolved
    else Some(Dict(map["value" := resolved.value]))
  }

  /** What precedes a leaf's call: its control check, its budget, the charge. */
  function Admit(step: Value, kanban: bool, profile: Value, env: Env, st: State): (Option<Failure>, State) {
    var (code, st1) := EnforceControl(env, st, true, ControlRefs(step));
    if code != Controls.Allowed then (Some(Denied(code)), st1)
    else
      var failure := BudgetFailure(env, st1, kanban, profile);
      (failure, if failure.Some? then st1 else Charge(st1, kanban))
  }

  function CallAgent(step: Value, env: Env, st: State): (Outcome, State) {
    var payload := EffectInput(step, env, st);
    if payload.None? then (Outcome.Failed(BadReference), st)
    else ExecEffect(step, false, Get(step, "agent"), payload.value, env, st)
  }

  function ExecAgent(step: Value, env: Env, st: State): (Outcome, State) {
    if !Has(step, "agent") then (Outcome.Failed(Crash), st)
    else
      var (failure, st1) := Admit(step, false, Null, env, st);
      if failure.Some? then (Outcome.Failed(failure.value), st1) else CallAgent(step, env, st1)
  }

  function KanbanPayload(step: Value, task: Value, input: Value): Value {
    Dict(map["profile" := Get(step, "profile"), "task" := task, "input" := input,
             "wait" := if Has(step, "wait") then Get(step, "wait") else Bool(true),
             "durable" := Bool(true)])
  }

  function CallKanban(step: Value, env: Env, st: State): (Outcome, State) {
    var task := Resolve(if Has(step, "task") then Get(step, "task") else Dict(map[]), env.inputs, st.outputs);
    var input := EffectInput(step, env, st);
    if task.None? || input.None? then (Outcome.Failed(BadReference), st)
    else if !Get(step, "profile").Str? then (Outcome.Failed(Crash), st)
    else
      ExecEffect(step, true, Str("kanban." + Get(step, "profile").s), KanbanPayload(step, task.value, input.value), env, st)
  }

  function ExecKanban(step: Value, env: Env, st: State): (Outcome, State) {
    if !Has(step, "profile") then (Outcome.Failed(Crash), st)
    else
      var (failure, st1) := Admit(step, true, Get(step, "profile"), env, st);
      if failure.Some? then (Outcome.Failed(failure.value), st1) else CallKanban(step, env, st1)
  }

  /** `ctx.last_output or {}`. */
  function LastOrEmpty(st: State): Value {
    if st.last.Some? && Truthy(st.last.value) then st.last.value else Dict(map[])
  }

  function Succeed(st: State, id: string, result: Value, setLast: bool): (Outcome, State) {
    var st1 := Write(st, id, Succeeded, result);
    (Done(result), st1.(outputs := st1.outputs[id := result], last := if setLast then Some(result) else st1.last))
  }

  function Fail(st: State, id: string, why: Failure): (Outcome, State) {
    (Outcome.Failed(why), Write(st, id, Status.Failed, Null))
  }

  /** `_exec_step`. */
  function ExecStep(step: Value, env: Env, st: State): (Outcome, State)
    decreases step, 1
  {
    if !step.Dict? then (Outcome.Failed(Crash), st)
    else if CheckDependsOn(step, st.outputs).Some? then (Outcome.Failed(CheckDependsOn(step, st.outputs).value), st)
    else
      var kind := Get(step, "kind");
      if kind == Str("agent") then ExecAgent(step, env, st)
      else if kind == Str("kanban_agent") then ExecKanban(step, env, st)
      else if kind == Str("parallel") then ExecParallel(step, env, st)
      else if kind == Str("pipeline") then ExecPipeline(step, env, st)
      else if kind == Str("phase") then ExecPhase(step, env, st)
      else if kind == Str("if") then ExecIf(step, env, st)
      else (Outcome.Failed(UnknownKind), st)
  }

  /** `_exec_sequence`: a control check before each step. */
  function ExecSequence(steps: seq<Value>, env: Env, st: State): (Option<Failure>, State)
    decreases steps, 0
  {
    if steps == [] then (None, st)
    else
      var (code, st1) := EnforceControl(env, st, false, []);
      if code != Controls.Allowed then (Some(Denied(code)), st1)
      else
        var (out, st2) := ExecStep(steps[0], env, st1);
        if out.Failed? then (Some(out.why), st2) else ExecSequence(steps[1..], env, st2)
  }

  /** The branch loop of a `parallel` step; no control check of its own. */
  function ExecBranches(branches: seq<Value>, joined: map<string, Value>, env: Env, st: State)
    : (Result<map<string, Value>>, State)
    decreases branches, 0
  {
    if branches == [] then (Ok(joined), st)
    else
      var (out, st1) := ExecStep(branches[0], env, st);
      if out.Failed? then (Err(out.why), st1)
      else ExecBranches(branches[1..], joined[IdOf(branches[0]) := out.out], env, st1)
  }

  function ExecParallel(step: Value, env: Env, st: State): (Outcome, State)
    decreases step, 0
  {
    if !Get(step, "id").Str? || !Lists(step, "branches") then (Outcome.Failed(Crash), st)
    else
      var branches := step.fields["branches"].items;
      if env.policy.maxActiveAwaits.Some? && SumWaiting(branches) > env.policy.maxActiveAwaits.value then
        (Outcome.Failed(AwaitBudget), st)
      else if |branches| > env.maxParallel then (Outcome.Failed(FanOut), st)
      else
        var id := IdOf(step);
        var (joined, st1) := ExecBranches(branches, map[], env, Write(st, id, Running, Null));
        if joined.Err? then Fail(st1, id, joined.why)
        else Succeed(st1, id, Dict(map["branches" := Dict(joined.value)]), true)
  }

  function ExecPipeline(step: Value, env: Env, st: State): (Outcome, State)
    decreases step, 0
  {
    if !Get(step, "id").Str? then (Outcome.Failed(Crash), st)
    else
      var id := IdOf(step);
      var st0 := Write(st, id, Running, Null);
      if !Lists(step, "steps") then Fail(st0, id, Crash)
      else
        var (failure, st1) := ExecSequence(step.fields["steps"].items, env, st0);
        if failure.Some? then Fail(st1, id, failure.value)
        else Succeed(st1, id, LastOrEmpty(st1), false)
  }

  function CompletedIds(steps: seq<Value>): seq<Value> {
    if steps == [] then []
    else (if steps[0].Dict? then [Get(steps[0], "id")] else []) + CompletedIds(steps[1..])
  }

  /** `_exec_phase` runs its steps in a copied context, and copies the counters
      back only when they all complete. */
  function ExecPhase(step: Value, env: Env, st: State): (Outcome, State)
    decreases step, 0
  {
    if !Get(step, "id").Str? then (Outcome.Failed(Crash), st)
    else
      var id := IdOf(step);
      var st0 := Write(st, id, Running, Null);
      if !Lists(step, "steps") then Fail(st0, id, Crash)
      else
        var (failure, child) := ExecSequence(step.fields["steps"].items, env, st0);
        if failure.Some? then
          Fail(child.(agentCalls := st.agentCalls, kanbanCards := st.kanbanCards, last := st.last), id, failure.value)
        else
          Succeed(child, id, Dict(map["completed" := List(CompletedIds(step.fields["steps"].items))]), true)
  }

  /** The steps of the branch taken: `step.get(branch_key) or []`. */
  function ExecIf(step: Value, env: Env, st: State): (Outcome, State)
    decreases step, 0
  {
    if !Get(step, "id").Str? then (Outcome.Failed(Crash), st)
    else
      var id := IdOf(step);
      var st0 := Write(st, id, Running, Null);
      if !Has(step, "condition") then Fail(st0, id, Crash)
      else
        var test := EvalCondition(Get(step, "condition"), env, st0);
        if test.Err? then Fail(st0, id, test.why)
        else
          var key := if test.value then "then" else "else";
          if !Truthy(Get(step, key)) then
            Succeed(st0, id, Dict(map["branch" := Str(key), "output" := Dict(map[])]), true)
          else if !Lists(step, key) then Fail(st0, id, Crash)
          else
            var (failure, st1) := ExecSequence(step.fields[key].items, env, st0);
            if failure.Some? then Fail(st1, id, failure.value)
            else
              var st2 := st1.(outputs := map k | k in st1.outputs && k in st0.outputs :: st1.outputs[k]);
              Succeed(st2, id, Dict(map["branch" := Str(key), "output" := LastOrEmpty(st1)]), true)
  }

  /** `execute`, from a fresh context. */
  function Execute(definition: Value, env: Env): (Option<Failure>, State) {
    ExecSequence(Steps(definition), env, FRESH)
  }
}
