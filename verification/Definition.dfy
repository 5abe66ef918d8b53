/** Workflow definitions (schema.py, sandbox.py): the reference grammar, the tree
    of steps, and what each static check demands of it. The checks themselves,
    which walk the tree and collect diagnostics, are in module Lint. */
module Definition {
  import opened Json
  import SchemaSubset

  // ------------------------------------------------------------------------
  // References.
  // ------------------------------------------------------------------------

  datatype Ref =
    | NotARef
    | Malformed
    | InputRef(key: string)
    | OutputRef(id: string, path: seq<string>)  // an empty path is the whole output

  predicate StartsWith(s: string, prefix: string) {
    prefix <= s
  }

  predicate IsLetter(c: char) {
    'A' <= c <= 'Z' || 'a' <= c <= 'z'
  }

  /** `\w` on ASCII text. */
  predicate IsWord(c: char) {
    IsLetter(c) || '0' <= c <= '9' || c == '_'
  }

  predicate IsPathChar(c: char) {
    IsWord(c) || c == '.' || c == '-'
  }

  /** `[A-Za-z_]` then any number of word characters and dashes. */
  predicate IsInputKey(s: string) {
    s != "" && (IsLetter(s[0]) || s[0] == '_') && forall i | 1 <= i < |s| :: IsWord(s[i]) || s[i] == '-'
  }

  predicate IsStepId(s: string) {
    s != "" && (IsLetter(s[0]) || s[0] == '_') && forall i | 1 <= i < |s| :: IsPathChar(s[i])
  }

  /** What may follow a step id: `.output` or `.output.<field>`. */
  predicate IsOutputTail(s: string) {
    ".output" <= s
    && (|s| == 7 || (|s| > 8 && s[7] == '.' && forall i | 8 <= i < |s| :: IsPathChar(s[i])))
  }

  function Split(s: string): (parts: seq<string>)
    ensures parts != []
  {
    if s == "" then [""]
    else
      var rest := Split(s[1..]);
      if s[0] == '.' then [""] + rest else [[s[0]] + rest[0]] + rest[1..]
  }

  /** The lazy step-id group takes the shortest id that lets the rest match. */
  function ParseOutput(body: string, end: nat): Ref
    requires end <= |body|
    decreases |body| - end
  {
    if IsStepId(body[..end]) && IsOutputTail(body[end..]) then
      OutputRef(body[..end], if |body| - end == 7 then [] else Split(body[end + 8..]))
    else if end == |body| then Malformed
    else ParseOutput(body, end + 1)
  }

  /** `parse_ref`. The pattern's `$` also matches before one final newline. */
  function ParseRef(v: string): Ref {
    if !StartsWith(v, "$ref:") then NotARef
    else
      var end := if v[|v| - 1] == '\n' then |v| - 1 else |v|;
      var body := v[5..end];
      if StartsWith(body, "inputs.") && IsInputKey(body[7..]) then InputRef(body[7..])
      else ParseOutput(body, 0)
  }

  /** No string in the value is a malformed reference, or a reference to a step
      outside `known`. */
  predicate RefsKnown(v: Value, known: set<string>) {
    match v
    case Str(s) =>
      var r := ParseRef(s);
      r != Malformed && (r.OutputRef? ==> r.id in known)
    case List(items) => forall i | 0 <= i < |items| :: RefsKnown(items[i], known)
    case Dict(fields) => forall k | k in fields :: RefsKnown(fields[k], known)
    case _ => true
  }

  /** Every input reference in the value is to a declared input. */
  predicate InputsDeclared(v: Value, declared: set<string>) {
    match v
    case Str(s) => ParseRef(s).InputRef? ==> ParseRef(s).key in declared
    case List(items) => forall i | 0 <= i < |items| :: InputsDeclared(items[i], declared)
    case Dict(fields) => forall k | k in fields :: InputsDeclared(fields[k], declared)
    case _ => true
  }

  /** Every well-formed step reference in the value is to an available step. */
  predicate RefsAvailable(v: Value, available: set<string>) {
    match v
    case Str(s) => ParseRef(s).OutputRef? ==> ParseRef(s).id in available
    case List(items) => forall i | 0 <= i < |items| :: RefsAvailable(items[i], available)
    case Dict(fields) => forall k | k in fields :: RefsAvailable(fields[k], available)
    case _ => true
  }

  // ------------------------------------------------------------------------
  // The shape of steps.
  // ------------------------------------------------------------------------

  predicate IsContainer(kind: Value) {
    kind in [Str("parallel"), Str("pipeline"), Str("phase")]
  }

  predicate IsEffect(kind: Value) {
    kind in [Str("agent"), Str("kanban_agent")]
  }

  /** The key that holds a container's children. */
  function ChildKey(kind: Value): string {
    if kind == Str("parallel") then "branches" else "steps"
  }

  function Items(v: Value): (items: seq<Value>)
    ensures v.List? ==> items == v.items
  {
    if v.List? then v.items else []
  }

  predicate IdentifierSafe(s: string) {
    forall i | 0 <= i < |s| :: IsLetter(s[i]) || '0' <= s[i] <= '9' || s[i] in "._-"
  }

  predicate StringIfPresent(step: Value, key: string) {
    Has(step, key) ==> Get(step, key).Str?
  }

  /** `input` and `output_schema` of a leaf step. */
  predicate EffectContractOk(step: Value) {
    && (Has(step, "input") ==> Get(step, "input").Dict? || Get(step, "input").Str?)
    && (Has(step, "output_schema") ==>
          Get(step, "output_schema").Dict? && SchemaSubset.NormalizeSchema(Get(step, "output_schema"), []) != SchemaSubset.Malformed)
  }

  predicate AgentShapeOk(step: Value) {
    Get(step, "agent").Str? && Get(step, "agent").s != "" && EffectContractOk(step)
  }

  predicate KanbanShapeOk(step: Value) {
    && Get(step, "profile").Str? && Get(step, "profile").s != "" && IdentifierSafe(Get(step, "profile").s)
    && Has(step, "task") && (Get(step, "task").Dict? || Get(step, "task").Str?)
    && (Has(step, "wait") ==> Get(step, "wait").Bool?)
    && EffectContractOk(step)
  }

  predicate EffectTitlesOk(step: Value) {
    && StringIfPresent(step, "title") && StringIfPresent(step, "task_title")
    && StringIfPresent(step, "phase_id") && StringIfPresent(step, "phase_title")
  }

  predicate ConditionOk(condition: Value) {
    && condition.Dict?
    && Get(condition, "ref").Str? && StartsWith(Get(condition, "ref").s, "$ref:")
    && Get(condition, "op") in [Str("truthy"), Str("exists"), Str("eq"), Str("ne")]
    && (Get(condition, "op") in [Str("eq"), Str("ne")] ==> Has(condition, "value"))
  }

  predicate PhaseLabelsOk(step: Value) {
    Get(step, "kind") == Str("phase") ==>
      StringIfPresent(step, "label") && StringIfPresent(step, "phase_id") && StringIfPresent(step, "phase_title")
  }

  predicate DependsShapeOk(step: Value) {
    Has(step, "depends_on") ==>
      Get(step, "depends_on").List? && SchemaSubset.AllStrings(Get(step, "depends_on").items)
  }

  predicate IdOk(step: Value) {
    Get(step, "id").Str? && Get(step, "id").s != ""
  }

  /** What structural validation demands of one step and everything below it,
      apart from ids being unique. */
  predicate StepShapeOk(step: Value)
    decreases step
  {
    && step.Dict?
    && IdOk(step)
    && DependsShapeOk(step)
    && var kind := Get(step, "kind");
       if kind == Str("agent") then AgentShapeOk(step) && EffectTitlesOk(step)
       else if kind == Str("kanban_agent") then KanbanShapeOk(step) && EffectTitlesOk(step)
       else if kind == Str("if") then
         && ConditionOk(Get(step, "condition"))
         && Has(step, "then") && step.fields["then"].List? && step.fields["then"].items != []
         && StepsShapeOk(step.fields["then"].items)
         && (Has(step, "else") ==> step.fields["else"].List? && StepsShapeOk(step.fields["else"].items))
       else if IsContainer(kind) then
         var key := ChildKey(kind);
         && Has(step, key) && step.fields[key].List? && step.fields[key].items != []
         && PhaseLabelsOk(step)
         && StepsShapeOk(step.fields[key].items)
       else false
  }

  predicate StepsShapeOk(steps: seq<Value>)
    decreases steps
  {
    steps == [] || (StepShapeOk(steps[0]) && StepsShapeOk(steps[1..]))
  }

  // ------------------------------------------------------------------------
  // Ids, leaf steps, availability.
  // ------------------------------------------------------------------------

  function IdOf(step: Value): string {
    if Get(step, "id").Str? then Get(step, "id").s else ""
  }

  /** The key holds a list, so the walks descend into it. */
  predicate Lists(step: Value, key: string) {
    step.Dict? && key in step.fields && step.fields[key].List?
  }

  /** The steps a leaf-first or preorder walk finds directly below a step:
      `then` and `else` of an `if`, the children of a container. */
  predicate IsIf(step: Value) {
    Get(step, "kind") == Str("if")
  }

  predicate HasChildren(step: Value) {
    IsContainer(Get(step, "kind")) && Lists(step, ChildKey(Get(step, "kind")))
  }

  /** Ids of a step and everything below it, in preorder. */
  function IdsOf(step: Value): seq<string>
    decreases step
  {
    [IdOf(step)]
    + (if IsIf(step) && Lists(step, "then") then IdsIn(step.fields["then"].items) else [])
    + (if IsIf(step) && Lists(step, "else") then IdsIn(step.fields["else"].items) else [])
    + (if HasChildren(step) then IdsIn(step.fields[ChildKey(Get(step, "kind"))].items) else [])
  }

  function IdsIn(steps: seq<Value>): seq<string>
    decreases steps
  {
    if steps == [] then [] else IdsOf(steps[0]) + IdsIn(steps[1..])
  }

  ghost predicate Distinct(ids: seq<string>) {
    forall i, j | 0 <= i < j < |ids| :: ids[i] != ids[j]
  }

  /** `iter_agent_steps`: every leaf step, in declaration order. */
  function EffectStepsOf(step: Value): seq<Value>
    decreases step
  {
    if IsEffect(Get(step, "kind")) then [step]
    else if HasChildren(step) then EffectSteps(step.fields[ChildKey(Get(step, "kind"))].items)
    else
      (if IsIf(step) && Lists(step, "then") then EffectSteps(step.fields["then"].items) else [])
      + (if IsIf(step) && Lists(step, "else") then EffectSteps(step.fields["else"].items) else [])
  }

  function EffectSteps(steps: seq<Value>): seq<Value>
    decreases steps
  {
    if steps == [] then [] else EffectStepsOf(steps[0]) + EffectSteps(steps[1..])
  }

  /** `step.get("depends_on", []) or []` of a step whose `depends_on` is a list. */
  function Deps(step: Value): seq<Value> {
    Items(Get(step, "depends_on"))
  }

  predicate DepsIn(step: Value, ids: set<string>) {
    forall i | 0 <= i < |Deps(step)| :: Deps(step)[i].Str? ==> Deps(step)[i].s in ids
  }

  function WithId(ids: set<string>, step: Value): set<string> {
    if Get(step, "id").Str? then ids + {Get(step, "id").s} else ids
  }

  /** The ids available after a step: an `if` contributes only its own. */
  function AvailableAfter(step: Value, available: set<string>): set<string>
    decreases step
  {
    if IsEffect(Get(step, "kind")) || IsIf(step) then WithId(available, step)
    else if IsContainer(Get(step, "kind")) then
      WithId(if HasChildren(step) then AvailableAfterAll(step.fields[ChildKey(Get(step, "kind"))].items, available)
             else available, step)
    else available
  }

  function AvailableAfterAll(steps: seq<Value>, available: set<string>): set<string>
    decreases steps
  {
    if steps == [] then available
    else AvailableAfterAll(steps[1..], AvailableAfter(steps[0], available))
  }

  /** Every edge of a step and of the steps below it points at an id available by then. */
  predicate OrderOk(step: Value, available: set<string>)
    decreases step
  {
    !step.Dict? ||
    (&& DepsIn(step, available)
     && (IsEffect(Get(step, "kind")) ==> RefsAvailable(Get(step, "input"), available))
     && (Get(step, "kind") == Str("kanban_agent") ==> RefsAvailable(Get(step, "task"), available))
     && (IsIf(step) && Get(step, "condition").Dict? ==> RefsAvailable(Get(Get(step, "condition"), "ref"), available))
     && (IsIf(step) && Lists(step, "then") ==> OrderOkAll(step.fields["then"].items, available))
     && (IsIf(step) && Lists(step, "else") ==> OrderOkAll(step.fields["else"].items, available))
     && (HasChildren(step) ==> OrderOkAll(step.fields[ChildKey(Get(step, "kind"))].items, available)))
  }

  predicate OrderOkAll(steps: seq<Value>, available: set<string>)
    decreases steps
  {
    steps == [] || (OrderOk(steps[0], available) && OrderOkAll(steps[1..], AvailableAfter(steps[0], available)))
  }

  /** Condition references of `if` steps, anywhere in the tree. */
  predicate IfRefsOk(step: Value, known: set<string>)
    decreases step
  {
    !step.Dict? ||
    (&& (IsIf(step) && Get(step, "condition").Dict? ==> RefsKnown(Get(Get(step, "condition"), "ref"), known))
     && (IsIf(step) && Lists(step, "then") ==> IfRefsOkAll(step.fields["then"].items, known))
     && (IsIf(step) && Lists(step, "else") ==> IfRefsOkAll(step.fields["else"].items, known))
     && (HasChildren(step) ==> IfRefsOkAll(step.fields[ChildKey(Get(step, "kind"))].items, known)))
  }

  predicate IfRefsOkAll(steps: seq<Value>, known: set<string>)
    decreases steps
  {
    steps == [] || (IfRefsOk(steps[0], known) && IfRefsOkAll(steps[1..], known))
  }

  // ------------------------------------------------------------------------
  // Policy.
  // ------------------------------------------------------------------------

  predicate IsKanbanRunnerId(agent: string) {
    "kanban." <= agent
  }

  function AllowedProfiles(v: Value): Option<set<string>> {
    if v.List? && forall i | 0 <= i < |v.items| :: v.items[i].Str? && v.items[i].s != "" && IdentifierSafe(v.items[i].s) then
      Some(set i | 0 <= i < |v.items| :: v.items[i].s)
    else None
  }

  /** The runtime's view of the policy block; `None` stands for `SandboxPolicyError`. */
  datatype Governance = Governance(
    maxAgentCalls: Option<nat>,
    maxKanbanCards: Option<nat>,
    maxActiveAwaits: Option<nat>,
    allowedProfiles: Option<set<string>>)

  predicate LimitOk(policy: Value, key: string) {
    Has(policy, key) ==> Get(policy, key).Int? && Get(policy, key).n >= 0
  }

  function Limit(policy: Value, key: string): Option<nat>
    requires LimitOk(policy, key)
  {
    if Has(policy, key) then Some(Get(policy, key).n) else None
  }

  function PolicyBlock(definition: Value): Value {
    if Get(definition, "policy").Dict? then Get(definition, "policy") else Dict(map[])
  }

  function GovernanceOf(definition: Value): Option<Governance> {
    var policy := PolicyBlock(definition);
    if !LimitOk(policy, "max_agent_calls") || !LimitOk(policy, "max_kanban_cards") || !LimitOk(policy, "max_active_awaits") then None
    else if Has(policy, "allowed_profiles") && AllowedProfiles(Get(policy, "allowed_profiles")).None? then None
    else Some(Governance(Limit(policy, "max_agent_calls"), Limit(policy, "max_kanban_cards"),
                         Limit(policy, "max_active_awaits"),
                         if Has(policy, "allowed_profiles") then AllowedProfiles(Get(policy, "allowed_profiles")) else None))
  }

  const CAPABILITIES: set<string> :=
    {"network", "filesystem", "max_parallel", "max_agent_calls", "max_kanban_cards", "max_active_awaits", "allowed_profiles"}

  /** No policy error: a missing block only warns. */
  predicate PolicyOk(definition: Value) {
    var policy := Get(definition, "policy");
    policy == Null ||
    (&& policy.Dict?
     && Get(policy, "network") != Bool(true) && Get(policy, "filesystem") != Bool(true)
     && (Has(policy, "max_parallel") ==> Get(policy, "max_parallel").Int? && Get(policy, "max_parallel").n >= 1)
     && LimitOk(policy, "max_agent_calls") && LimitOk(policy, "max_kanban_cards") && LimitOk(policy, "max_active_awaits")
     && (Has(policy, "allowed_profiles") ==> AllowedProfiles(Get(policy, "allowed_profiles")).Some?)
     && policy.fields.Keys <= CAPABILITIES)
  }

  /** The leaf-step lint. `roster` is the set of agent ids the host knows. */
  predicate EffectOk(step: Value, known: set<string>, allowed: Option<set<string>>, roster: set<string>) {
    && (Get(step, "kind") == Str("kanban_agent") && Get(step, "profile").Str? && allowed.Some? ==>
          Get(step, "profile").s in allowed.value)
    && (Get(step, "kind") == Str("agent") && Get(step, "agent").Str? ==>
          !IsKanbanRunnerId(Get(step, "agent").s) && (Get(step, "agent").s != "" ==> Get(step, "agent").s in roster))
    && RefsKnown(Get(step, "input"), known)
    && (Get(step, "kind") == Str("kanban_agent") ==> RefsKnown(Get(step, "task"), known))
    && (forall i | 0 <= i < |Deps(step)| :: Deps(step)[i].Str? && Deps(step)[i].s in known)
  }

  predicate AllEffectsOk(effects: seq<Value>, known: set<string>, allowed: Option<set<string>>, roster: set<string>) {
    effects == [] || (EffectOk(effects[0], known, allowed, roster) && AllEffectsOk(effects[1..], known, allowed, roster))
  }

  // ------------------------------------------------------------------------
  // What is warned about.
  // ------------------------------------------------------------------------

  predicate EffectQuiet(step: Value, declared: set<string>) {
    && Has(step, "output_schema")
    && InputsDeclared(Get(step, "input"), declared)
    && (Get(step, "kind") == Str("kanban_agent") ==> InputsDeclared(Get(step, "task"), declared))
  }

  predicate AllEffectsQuiet(effects: seq<Value>, declared: set<string>) {
    effects == [] || (EffectQuiet(effects[0], declared) && AllEffectsQuiet(effects[1..], declared))
  }

  predicate IfInputsDeclared(step: Value, declared: set<string>)
    decreases step
  {
    !step.Dict? ||
    (&& (IsIf(step) && Get(step, "condition").Dict? ==> InputsDeclared(Get(Get(step, "condition"), "ref"), declared))
     && (IsIf(step) && Lists(step, "then") ==> IfInputsDeclaredAll(step.fields["then"].items, declared))
     && (IsIf(step) && Lists(step, "else") ==> IfInputsDeclaredAll(step.fields["else"].items, declared))
     && (HasChildren(step) ==> IfInputsDeclaredAll(step.fields[ChildKey(Get(step, "kind"))].items, declared)))
  }

  predicate IfInputsDeclaredAll(steps: seq<Value>, declared: set<string>)
    decreases steps
  {
    steps == [] || (IfInputsDeclared(steps[0], declared) && IfInputsDeclaredAll(steps[1..], declared))
  }

  function DeclaredInputs(definition: Value): set<string> {
    if Get(definition, "inputs").Dict? then Get(definition, "inputs").fields.Keys else {}
  }

  /** A definition strict validation does not complain about: it has a policy
      block, every leaf an output schema, every input reference a declaration. */
  predicate Quiet(definition: Value) {
    && Get(definition, "policy") != Null
    && AllEffectsQuiet(EffectSteps(Steps(definition)), DeclaredInputs(definition))
    && IfInputsDeclaredAll(Steps(definition), DeclaredInputs(definition))
  }

  // ------------------------------------------------------------------------
  // Clean definitions.
  // ------------------------------------------------------------------------

  predicate TopLevelOk(definition: Value) {
    && Get(definition, "version") == Str("1")
    && Get(definition, "name").Str? && Get(definition, "name").s != "" && IdentifierSafe(Get(definition, "name").s)
    && (Has(definition, "inputs") ==> Get(definition, "inputs").Dict?)
    && Lists(definition, "steps")
  }

  function Steps(definition: Value): seq<Value> {
    Items(Get(definition, "steps"))
  }

  /** `_collect_all_step_ids`, which looks under every child key whatever the kind. */
  function KnownIdsOf(step: Value): set<string>
    decreases step
  {
    if !step.Dict? then {}
    else
      WithId({}, step)
      + (if Lists(step, "branches") then KnownIds(step.fields["branches"].items) else {})
      + (if Lists(step, "steps") then KnownIds(step.fields["steps"].items) else {})
      + (if Lists(step, "then") then KnownIds(step.fields["then"].items) else {})
      + (if Lists(step, "else") then KnownIds(step.fields["else"].items) else {})
  }

  function KnownIds(steps: seq<Value>): set<string>
    decreases steps
  {
    if steps == [] then {} else KnownIdsOf(steps[0]) + KnownIds(steps[1..])
  }

  /** No error from structural validation. */
  ghost predicate StructureOk(definition: Value) {
    && TopLevelOk(definition)
    && StepsShapeOk(Steps(definition))
    && Distinct(IdsIn(Steps(definition)))
  }

  /** No error from the walks of the policy lint, cycles apart. */
  ghost predicate LintOk(definition: Value, roster: set<string>) {
    var steps := Steps(definition);
    var known := KnownIds(steps);
    && PolicyOk(definition)
    && AllEffectsOk(EffectSteps(steps), known, AllowedProfiles(Get(PolicyBlock(definition), "allowed_profiles")), roster)
    && IfRefsOkAll(steps, known)
    && OrderOkAll(steps, {})
  }
}
