/** The static checks as they are written (schema.py, sandbox.py, and the
    composition in primitives.py): recursive walks that append diagnostics and
    grow shared id sets in place. Each is proved to report an error, or a warning,
    exactly when the corresponding predicate of module Definition fails. */
module Lint {
  import opened Json
  import opened Definition
  import SchemaSubset
  import Cycles

  datatype Topic =
    | SchemaTopLevel | BadVersion | SchemaStep | DuplicateId | SchemaOutput
    | PolicyNetwork | PolicyFilesystem | DisallowedCapability
    | UnknownAgent | BadRef | UnresolvedRef | CyclicGraph
    | PolicyDefault | NoOutputSchema | UndeclaredInput

  /** Between the two reports something was added exactly when `clean` fails. */
  ghost predicate Reported(before: seq<Topic>, after: seq<Topic>, clean: bool) {
    |after| >= |before| && (|after| == |before| <==> clean)
  }

  /** Distinct ids, none of them seen before. */
  ghost predicate NewIds(ids: seq<string>, seen: set<string>) {
    Distinct(ids) && forall id | id in ids :: id !in seen
  }

  ghost function AsSet(ids: seq<string>): set<string> {
    set id | id in ids
  }

  lemma NewIdsSplit(a: seq<string>, b: seq<string>, seen: set<string>)
    ensures NewIds(a + b, seen) <==> NewIds(a, seen) && NewIds(b, seen + AsSet(a))
    ensures AsSet(a + b) == AsSet(a) + AsSet(b)
  {
    var c := a + b;
    assert forall i | 0 <= i < |a| :: c[i] == a[i] && c[i] in a;
    assert forall i | 0 <= i < |b| :: c[|a| + i] == b[i] && b[i] in b;
    if NewIds(c, seen) {
      assert forall id | id in a || id in b :: id in c;
      assert forall i, j | 0 <= i < |a| <= j < |c| :: c[i] != c[j];
    }
    if NewIds(a, seen) && NewIds(b, seen + AsSet(a)) {
      forall i, j | 0 <= i < j < |c| ensures c[i] != c[j] {
        if i < |a| <= j {
          assert c[i] in AsSet(a) && c[j] in b;
        }
      }
    }
  }

  class IdSet {
    var ids: set<string>

    constructor (ids: set<string>)
      ensures this.ids == ids
    {
      this.ids := ids;
    }
  }

  // ------------------------------------------------------------------------
  // How far a walk over a list or a dict has come.
  // ------------------------------------------------------------------------

  ghost predicate KnownUpTo(items: seq<Value>, n: nat, known: set<string>)
    requires n <= |items|
  {
    forall j | 0 <= j < n :: RefsKnown(items[j], known)
  }

  ghost predicate DeclaredUpTo(items: seq<Value>, n: nat, declared: set<string>)
    requires n <= |items|
  {
    forall j | 0 <= j < n :: InputsDeclared(items[j], declared)
  }

  lemma OneMoreItem(items: seq<Value>, n: nat, known: set<string>, declared: set<string>)
    requires n < |items|
    ensures KnownUpTo(items, n + 1, known) <==> KnownUpTo(items, n, known) && RefsKnown(items[n], known)
    ensures DeclaredUpTo(items, n + 1, declared) <==> DeclaredUpTo(items, n, declared) && InputsDeclared(items[n], declared)
  {
  }

  ghost predicate KnownBut(fields: map<string, Value>, keys: set<string>, known: set<string>) {
    forall k | k in fields && k !in keys :: RefsKnown(fields[k], known)
  }

  ghost predicate DeclaredBut(fields: map<string, Value>, keys: set<string>, declared: set<string>) {
    forall k | k in fields && k !in keys :: InputsDeclared(fields[k], declared)
  }

  lemma OneMoreField(fields: map<string, Value>, keys: set<string>, key: string, known: set<string>, declared: set<string>)
    requires key in keys && key in fields
    ensures KnownBut(fields, keys - {key}, known) <==> KnownBut(fields, keys, known) && RefsKnown(fields[key], known)
    ensures DeclaredBut(fields, keys - {key}, declared) <==> DeclaredBut(fields, keys, declared) && InputsDeclared(fields[key], declared)
  {
  }

  /** The diagnostics of one validation, by severity. */
  class Linter {
    var errors: seq<Topic>
    var warnings: seq<Topic>

    constructor ()
      ensures errors == [] && warnings == []
    {
      errors, warnings := [], [];
    }

    method AddError(topic: Topic)
      modifies this`errors
      ensures errors == old(errors) + [topic]
    {
      errors := errors + [topic];
    }

    method ErrorUnless(ok: bool, topic: Topic)
      modifies this`errors
      ensures Reported(old(errors), errors, ok)
    {
      if !ok {
        AddError(topic);
      }
    }

    method WarnUnless(ok: bool, topic: Topic)
      modifies this`warnings
      ensures Reported(old(warnings), warnings, ok)
    {
      if !ok {
        warnings := warnings + [topic];
      }
    }

    // ----------------------------------------------------------------------
    // Structural validation.
    // ----------------------------------------------------------------------

    method ValidateStructure(definition: Value)
      requires definition.Dict?
      modifies this`errors
      ensures Reported(old(errors), errors, StructureOk(definition))
    {
      if !Has(definition, "version") {
        AddError(SchemaTopLevel);
      } else {
        ErrorUnless(Get(definition, "version") == Str("1"), BadVersion);
      }
      var name := Get(definition, "name");
      ErrorUnless(name.Str? && name.s != "" && IdentifierSafe(name.s), SchemaTopLevel);
      ErrorUnless(!Has(definition, "inputs") || Get(definition, "inputs").Dict?, SchemaTopLevel);
      if !Lists(definition, "steps") {
        AddError(SchemaTopLevel);
        return;
      }
      var seen := new IdSet({});
      ValidateSteps(definition.fields["steps"].items, seen);
    }

    /** `_validate_steps`. */
    method ValidateSteps(steps: seq<Value>, seen: IdSet)
      modifies this`errors, seen
      ensures Reported(old(errors), errors, StepsShapeOk(steps) && NewIds(IdsIn(steps), old(seen.ids)))
      ensures StepsShapeOk(steps) && NewIds(IdsIn(steps), old(seen.ids)) ==> seen.ids == old(seen.ids) + AsSet(IdsIn(steps))
      decreases steps, 0
    {
      var i := 0;
      while i < |steps|
        invariant 0 <= i <= |steps|
        invariant |errors| >= |old(errors)|
        invariant |errors| == |old(errors)| && StepsShapeOk(steps[i..]) && NewIds(IdsIn(steps[i..]), seen.ids)
                  <==> StepsShapeOk(steps) && NewIds(IdsIn(steps), old(seen.ids))
        invariant |errors| == |old(errors)| ==>
                    seen.ids + AsSet(IdsIn(steps[i..])) == old(seen.ids) + AsSet(IdsIn(steps))
      {
        assert steps[i..][0] == steps[i] && steps[i..][1..] == steps[i + 1..];
        NewIdsSplit(IdsOf(steps[i]), IdsIn(steps[i + 1..]), seen.ids);
        ValidateStep(steps[i], seen);
        i := i + 1;
      }
    }

    /** One turn of the loop of `_validate_steps`. */
    method ValidateStep(step: Value, seen: IdSet)
      modifies this`errors, seen
      ensures Reported(old(errors), errors, StepShapeOk(step) && NewIds(IdsOf(step), old(seen.ids)))
      ensures StepShapeOk(step) && NewIds(IdsOf(step), old(seen.ids)) ==> seen.ids == old(seen.ids) + AsSet(IdsOf(step))
      decreases step, 2
    {
      if !step.Dict? {
        AddError(SchemaStep);
        return;
      }
      var kind := Get(step, "kind");
      if !IsEffect(kind) && !IsContainer(kind) && !IsIf(step) {
        AddError(SchemaStep);
        return;
      }
      ghost var here := [IdOf(step)];
      assert IdsOf(step) == here + IdsOf(step)[1..];
      NewIdsSplit(here, IdsOf(step)[1..], seen.ids);
      ValidateId(step, seen);
      ErrorUnless(DependsShapeOk(step), SchemaStep);
      if IsEffect(kind) {
        assert IdsOf(step) == here;
        ValidateEffect(step);
      } else if IsIf(step) {
        ValidateIf(step, seen);
      } else {
        ValidateContainer(step, seen);
      }
    }

    method ValidateId(step: Value, seen: IdSet)
      requires step.Dict?
      modifies this`errors, seen
      ensures Reported(old(errors), errors, IdOk(step) && NewIds([IdOf(step)], old(seen.ids)))
      ensures IdOk(step) ==> seen.ids == old(seen.ids) + AsSet([IdOf(step)])
    {
      var id := Get(step, "id");
      if !id.Str? || id.s == "" {
        AddError(SchemaStep);
      } else {
        assert [IdOf(step)][0] == id.s;
        if id.s in seen.ids {
          AddError(DuplicateId);
        }
        seen.ids := seen.ids + {id.s};
      }
    }

    method ValidateEffect(step: Value)
      requires step.Dict? && IsEffect(Get(step, "kind"))
      modifies this`errors
      ensures Reported(old(errors), errors,
                EffectTitlesOk(step) && if Get(step, "kind") == Str("agent") then AgentShapeOk(step) else KanbanShapeOk(step))
    {
      if Get(step, "kind") == Str("agent") {
        var agent := Get(step, "agent");
        ErrorUnless(agent.Str? && agent.s != "", SchemaStep);
      } else {
        var profile := Get(step, "profile");
        if !profile.Str? || profile.s == "" {
          AddError(SchemaStep);
        } else {
          ErrorUnless(IdentifierSafe(profile.s), SchemaStep);
        }
        ErrorUnless(Has(step, "task") && (Get(step, "task").Dict? || Get(step, "task").Str?), SchemaStep);
        ErrorUnless(!Has(step, "wait") || Get(step, "wait").Bool?, SchemaStep);
      }
      ValidateEffectContract(step);
      ErrorUnless(StringIfPresent(step, "title"), SchemaStep);
      ErrorUnless(StringIfPresent(step, "task_title"), SchemaStep);
      ErrorUnless(StringIfPresent(step, "phase_id"), SchemaStep);
      ErrorUnless(StringIfPresent(step, "phase_title"), SchemaStep);
      ValidateEffectContract(step);
    }

    method ValidateEffectContract(step: Value)
      modifies this`errors
      ensures Reported(old(errors), errors, EffectContractOk(step))
    {
      ErrorUnless(!Has(step, "input") || Get(step, "input").Dict? || Get(step, "input").Str?, SchemaStep);
      if Has(step, "output_schema") {
        var schema := Get(step, "output_schema");
        if !schema.Dict? {
          AddError(SchemaStep);
        } else {
          ErrorUnless(SchemaSubset.NormalizeSchema(schema, []) != SchemaSubset.Malformed, SchemaOutput);
        }
      }
    }

    method ValidateCondition(condition: Value)
      modifies this`errors
      ensures Reported(old(errors), errors, ConditionOk(condition))
    {
      if !condition.Dict? {
        AddError(SchemaStep);
        return;
      }
      var ref, op := Get(condition, "ref"), Get(condition, "op");
      ErrorUnless(ref.Str? && StartsWith(ref.s, "$ref:"), SchemaStep);
      ErrorUnless(op in [Str("truthy"), Str("exists"), Str("eq"), Str("ne")], SchemaStep);
      ErrorUnless(!(op in [Str("eq"), Str("ne")]) || Has(condition, "value"), SchemaStep);
    }

    method ValidateIf(step: Value, seen: IdSet)
      requires step.Dict? && IsIf(step)
      modifies this`errors, seen
      ensures Reported(old(errors), errors,
                && ConditionOk(Get(step, "condition"))
                && Lists(step, "then") && step.fields["then"].items != [] && StepsShapeOk(step.fields["then"].items)
                && (Has(step, "else") ==> Lists(step, "else") && StepsShapeOk(step.fields["else"].items))
                && NewIds(IdsOf(step)[1..], old(seen.ids)))
      ensures |errors| == |old(errors)| ==> seen.ids == old(seen.ids) + AsSet(IdsOf(step)[1..])
      decreases step, 1
    {
      ghost var a := if Lists(step, "then") then IdsIn(step.fields["then"].items) else [];
      ghost var b := if Lists(step, "else") then IdsIn(step.fields["else"].items) else [];
      assert IdsOf(step)[1..] == a + b;
      NewIdsSplit(a, b, seen.ids);
      ValidateCondition(Get(step, "condition"));
      if !Lists(step, "then") || step.fields["then"].items == [] {
        AddError(SchemaStep);
      } else {
        ValidateSteps(step.fields["then"].items, seen);
      }
      if Has(step, "else") {
        if !step.fields["else"].List? {
          AddError(SchemaStep);
        } else {
          ValidateSteps(step.fields["else"].items, seen);
        }
      }
    }

    method ValidateContainer(step: Value, seen: IdSet)
      requires step.Dict? && IsContainer(Get(step, "kind"))
      modifies this`errors, seen
      ensures Reported(old(errors), errors,
                && HasChildren(step) && step.fields[ChildKey(Get(step, "kind"))].items != []
                && PhaseLabelsOk(step) && StepsShapeOk(step.fields[ChildKey(Get(step, "kind"))].items)
                && NewIds(IdsOf(step)[1..], old(seen.ids)))
      ensures |errors| == |old(errors)| ==> seen.ids == old(seen.ids) + AsSet(IdsOf(step)[1..])
      decreases step, 1
    {
      var key := ChildKey(Get(step, "kind"));
      if !Lists(step, key) || step.fields[key].items == [] {
        AddError(SchemaStep);
        return;
      }
      if Get(step, "kind") == Str("phase") {
        ErrorUnless(StringIfPresent(step, "label"), SchemaStep);
        ErrorUnless(StringIfPresent(step, "phase_id"), SchemaStep);
        ErrorUnless(StringIfPresent(step, "phase_title"), SchemaStep);
      }
      assert IdsOf(step)[1..] == IdsIn(step.fields[key].items);
      ValidateSteps(step.fields[key].items, seen);
    }

    // ----------------------------------------------------------------------
    // Policy block.
    // ----------------------------------------------------------------------

    method LintPolicyBlock(definition: Value)
      modifies this
      ensures Reported(old(errors), errors, PolicyOk(definition))
      ensures Reported(old(warnings), warnings, Get(definition, "policy") != Null)
    {
      var policy := Get(definition, "policy");
      WarnUnless(policy != Null, PolicyDefault);
      if policy == Null {
        return;
      }
      if !policy.Dict? {
        AddError(SchemaTopLevel);
        return;
      }
      ErrorUnless(Get(policy, "network") != Bool(true), PolicyNetwork);
      ErrorUnless(Get(policy, "filesystem") != Bool(true), PolicyFilesystem);
      if Has(policy, "max_parallel") {
        ErrorUnless(Get(policy, "max_parallel").Int? && Get(policy, "max_parallel").n >= 1, DisallowedCapability);
      }
      ErrorUnless(LimitOk(policy, "max_agent_calls"), DisallowedCapability);
      ErrorUnless(LimitOk(policy, "max_kanban_cards"), DisallowedCapability);
      ErrorUnless(LimitOk(policy, "max_active_awaits"), DisallowedCapability);
      if Has(policy, "allowed_profiles") {
        ErrorUnless(AllowedProfiles(Get(policy, "allowed_profiles")).Some?, DisallowedCapability);
      }
      LintPolicyKeys(policy);
    }

    method LintPolicyKeys(policy: Value)
      requires policy.Dict?
      modifies this`errors
      ensures Reported(old(errors), errors, policy.fields.Keys <= CAPABILITIES)
    {
      var keys := policy.fields.Keys;
      while keys != {}
        invariant keys <= policy.fields.Keys
        invariant Reported(old(errors), errors, policy.fields.Keys - keys <= CAPABILITIES)
        decreases |keys|
      {
        var key :| key in keys;
        ErrorUnless(key in CAPABILITIES, DisallowedCapability);
        keys := keys - {key};
      }
    }

    // ----------------------------------------------------------------------
    // References.
    // ----------------------------------------------------------------------

    method LintRefString(s: string, declared: set<string>, known: set<string>)
      modifies this
      ensures Reported(old(errors), errors, RefsKnown(Str(s), known))
      ensures Reported(old(warnings), warnings, InputsDeclared(Str(s), declared))
    {
      var r := ParseRef(s);
      match r {
        case NotARef =>
        case Malformed => AddError(BadRef);
        case InputRef(key) => WarnUnless(key in declared, UndeclaredInput);
        case OutputRef(id, _) => ErrorUnless(id in known, UnresolvedRef);
      }
    }

    /** `_lint_refs`. */
    method LintRefs(v: Value, declared: set<string>, known: set<string>)
      modifies this
      ensures Reported(old(errors), errors, RefsKnown(v, known))
      ensures Reported(old(warnings), warnings, InputsDeclared(v, declared))
      decreases v, 1
    {
      match v {
        case Str(s) => LintRefString(s, declared, known);
        case List(_) => LintRefsInList(v, declared, known);
        case Dict(_) => LintRefsInDict(v, declared, known);
        case _ =>
      }
    }

    method LintRefsInList(v: Value, declared: set<string>, known: set<string>)
      requires v.List?
      modifies this
      ensures Reported(old(errors), errors, RefsKnown(v, known))
      ensures Reported(old(warnings), warnings, InputsDeclared(v, declared))
      decreases v, 0
    {
      var i := 0;
      while i < |v.items|
        invariant 0 <= i <= |v.items|
        invariant Reported(old(errors), errors, KnownUpTo(v.items, i, known))
        invariant Reported(old(warnings), warnings, DeclaredUpTo(v.items, i, declared))
      {
        OneMoreItem(v.items, i, known, declared);
        LintRefs(v.items[i], declared, known);
        i := i + 1;
      }
    }

    method LintRefsInDict(v: Value, declared: set<string>, known: set<string>)
      requires v.Dict?
      modifies this
      ensures Reported(old(errors), errors, RefsKnown(v, known))
      ensures Reported(old(warnings), warnings, InputsDeclared(v, declared))
      decreases v, 0
    {
      var keys := v.fields.Keys;
      while keys != {}
        invariant keys <= v.fields.Keys
        invariant Reported(old(errors), errors, KnownBut(v.fields, keys, known))
        invariant Reported(old(warnings), warnings, DeclaredBut(v.fields, keys, declared))
        decreases |keys|
      {
        var key :| key in keys;
        OneMoreField(v.fields, keys, key, known, declared);
        LintRefs(v.fields[key], declared, known);
        keys := keys - {key};
      }
    }

    /** `_lint_step_refs_available`. */
    method LintRefsAvailable(v: Value, available: set<string>)
      modifies this`errors
      ensures Reported(old(errors), errors, RefsAvailable(v, available))
      decreases v, 1
    {
      match v {
        case Str(s) =>
          var r := ParseRef(s);
          if r.OutputRef? {
            ErrorUnless(r.id in available, UnresolvedRef);
          }
        case List(_) => LintAvailableInList(v, available);
        case Dict(_) => LintAvailableInDict(v, available);
        case _ =>
      }
    }

    method LintAvailableInList(v: Value, available: set<string>)
      requires v.List?
      modifies this`errors
      ensures Reported(old(errors), errors, RefsAvailable(v, available))
      decreases v, 0
    {
      var i := 0;
      while i < |v.items|
        invariant 0 <= i <= |v.items|
        invariant Reported(old(errors), errors, forall j | 0 <= j < i :: RefsAvailable(v.items[j], available))
      {
        LintRefsAvailable(v.items[i], available);
        i := i + 1;
      }
    }

    method LintAvailableInDict(v: Value, available: set<string>)
      requires v.Dict?
      modifies this`errors
      ensures Reported(old(errors), errors, RefsAvailable(v, available))
      decreases v, 0
    {
      var keys := v.fields.Keys;
      while keys != {}
        invariant keys <= v.fields.Keys
        invariant Reported(old(errors), errors, forall k | k in v.fields && k !in keys :: RefsAvailable(v.fields[k], available))
        decreases |keys|
      {
        var key :| key in keys;
        LintRefsAvailable(v.fields[key], available);
        keys := keys - {key};
      }
    }

    // ----------------------------------------------------------------------
    // Leaf steps and conditions.
    // ----------------------------------------------------------------------

    method LintAgentStep(step: Value, declared: set<string>, known: set<string>, allowed: Option<set<string>>, roster: set<string>)
      modifies this
      ensures Reported(old(errors), errors, EffectOk(step, known, allowed, roster))
      ensures Reported(old(warnings), warnings, EffectQuiet(step, declared))
    {
      var kind, profile := Get(step, "kind"), Get(step, "profile");
      if kind == Str("kanban_agent") && profile.Str? && allowed.Some? {
        ErrorUnless(profile.s in allowed.value, DisallowedCapability);
      }
      if kind == Str("agent") {
        LintAgentId(Get(step, "agent"), roster);
      }
      WarnUnless(Has(step, "output_schema"), NoOutputSchema);
      LintRefs(Get(step, "input"), declared, known);
      if kind == Str("kanban_agent") {
        LintRefs(Get(step, "task"), declared, known);
      }
      LintKnownDeps(step, known);
    }

    method LintAgentId(agent: Value, roster: set<string>)
      modifies this`errors
      ensures Reported(old(errors), errors, agent.Str? ==> !IsKanbanRunnerId(agent.s) && (agent.s != "" ==> agent.s in roster))
    {
      if agent.Str? {
        if IsKanbanRunnerId(agent.s) {
          AddError(UnknownAgent);
        } else if agent.s != "" {
          ErrorUnless(agent.s in roster, UnknownAgent);
        }
      }
    }

    method LintKnownDeps(step: Value, known: set<string>)
      modifies this`errors
      ensures Reported(old(errors), errors, forall i | 0 <= i < |Deps(step)| :: Deps(step)[i].Str? && Deps(step)[i].s in known)
    {
      var deps := Deps(step);
      var j := 0;
      while j < |deps|
        invariant 0 <= j <= |deps|
        invariant Reported(old(errors), errors, forall i | 0 <= i < j :: deps[i].Str? && deps[i].s in known)
      {
        ErrorUnless(deps[j].Str? && deps[j].s in known, UnresolvedRef);
        j := j + 1;
      }
    }

    /** `_lint_agent_steps`. */
    method LintAgentSteps(steps: seq<Value>, declared: set<string>, known: set<string>, allowed: Option<set<string>>, roster: set<string>)
      modifies this
      ensures Reported(old(errors), errors, AllEffectsOk(EffectSteps(steps), known, allowed, roster))
      ensures Reported(old(warnings), warnings, AllEffectsQuiet(EffectSteps(steps), declared))
    {
      var effects := IterAgentSteps(steps);
      var i := 0;
      while i < |effects|
        invariant 0 <= i <= |effects|
        invariant |errors| >= |old(errors)|
        invariant |errors| == |old(errors)| && AllEffectsOk(effects[i..], known, allowed, roster)
                  <==> AllEffectsOk(effects, known, allowed, roster)
        invariant |warnings| >= |old(warnings)|
        invariant |warnings| == |old(warnings)| && AllEffectsQuiet(effects[i..], declared) <==> AllEffectsQuiet(effects, declared)
      {
        assert effects[i..][0] == effects[i] && effects[i..][1..] == effects[i + 1..];
        LintAgentStep(effects[i], declared, known, allowed, roster);
        i := i + 1;
      }
    }

    /** `_lint_if_steps`. */
    method LintIfSteps(steps: seq<Value>, declared: set<string>, known: set<string>)
      modifies this
      ensures Reported(old(errors), errors, IfRefsOkAll(steps, known))
      ensures Reported(old(warnings), warnings, IfInputsDeclaredAll(steps, declared))
      decreases steps, 0
    {
      var i := 0;
      while i < |steps|
        invariant 0 <= i <= |steps|
        invariant |errors| >= |old(errors)|
        invariant |errors| == |old(errors)| && IfRefsOkAll(steps[i..], known) <==> IfRefsOkAll(steps, known)
        invariant |warnings| >= |old(warnings)|
        invariant |warnings| == |old(warnings)| && IfInputsDeclaredAll(steps[i..], declared) <==> IfInputsDeclaredAll(steps, declared)
      {
        assert steps[i..][0] == steps[i] && steps[i..][1..] == steps[i + 1..];
        LintIfStep(steps[i], declared, known);
        i := i + 1;
      }
    }

    method LintIfStep(step: Value, declared: set<string>, known: set<string>)
      modifies this
      ensures Reported(old(errors), errors, IfRefsOk(step, known))
      ensures Reported(old(warnings), warnings, IfInputsDeclared(step, declared))
      decreases step, 1
    {
      if !step.Dict? {
        return;
      }
      if IsIf(step) {
        if Get(step, "condition").Dict? {
          LintRefs(Get(Get(step, "condition"), "ref"), declared, known);
        }
        if Lists(step, "then") {
          LintIfSteps(step.fields["then"].items, declared, known);
        }
        if Lists(step, "else") {
          LintIfSteps(step.fields["else"].items, declared, known);
        }
      } else if HasChildren(step) {
        LintIfSteps(step.fields[ChildKey(Get(step, "kind"))].items, declared, known);
      }
    }

    // ----------------------------------------------------------------------
    // Execution order.
    // ----------------------------------------------------------------------

    /** `walk_step` of `_lint_execution_order`; `available` grows in place. */
    method WalkStep(step: Value, available: IdSet)
      modifies this`errors, available
      ensures Reported(old(errors), errors, OrderOk(step, old(available.ids)))
      ensures available.ids == AvailableAfter(step, old(available.ids))
      decreases step, 1
    {
      if !step.Dict? {
        return;
      }
      LintDeps(step, available.ids);
      if IsEffect(Get(step, "kind")) {
        LintRefsAvailable(Get(step, "input"), available.ids);
        if Get(step, "kind") == Str("kanban_agent") {
          LintRefsAvailable(Get(step, "task"), available.ids);
        }
        available.ids := WithId(available.ids, step);
      } else if IsIf(step) {
        if Get(step, "condition").Dict? {
          LintRefsAvailable(Get(Get(step, "condition"), "ref"), available.ids);
        }
        if Lists(step, "then") {
          var branch := new IdSet(available.ids);
          WalkSteps(step.fields["then"].items, branch);
        }
        if Lists(step, "else") {
          var branch := new IdSet(available.ids);
          WalkSteps(step.fields["else"].items, branch);
        }
        available.ids := WithId(available.ids, step);
      } else if IsContainer(Get(step, "kind")) {
        if HasChildren(step) {
          WalkSteps(step.fields[ChildKey(Get(step, "kind"))].items, available);
        }
        available.ids := WithId(available.ids, step);
      }
    }

    method LintDeps(step: Value, available: set<string>)
      modifies this`errors
      ensures Reported(old(errors), errors, DepsIn(step, available))
    {
      var deps := Deps(step);
      var j := 0;
      while j < |deps|
        invariant 0 <= j <= |deps|
        invariant Reported(old(errors), errors, forall i | 0 <= i < j :: deps[i].Str? ==> deps[i].s in available)
      {
        ErrorUnless(!deps[j].Str? || deps[j].s in available, UnresolvedRef);
        j := j + 1;
      }
    }

    method WalkSteps(steps: seq<Value>, available: IdSet)
      modifies this`errors, available
      ensures Reported(old(errors), errors, OrderOkAll(steps, old(available.ids)))
      ensures available.ids == AvailableAfterAll(steps, old(available.ids))
      decreases steps, 0
    {
      var i := 0;
      while i < |steps|
        invariant 0 <= i <= |steps|
        invariant |errors| >= |old(errors)|
        invariant |errors| == |old(errors)| && OrderOkAll(steps[i..], available.ids)
                  <==> OrderOkAll(steps, old(available.ids))
        invariant AvailableAfterAll(steps[i..], available.ids) == AvailableAfterAll(steps, old(available.ids))
      {
        assert steps[i..][0] == steps[i] && steps[i..][1..] == steps[i + 1..];
        WalkStep(steps[i], available);
        i := i + 1;
      }
    }

    method LintCycles(steps: seq<Value>)
      modifies this`errors
      ensures Reported(old(errors), errors, !Cycles.HasCycle(Cycles.EdgesOf(EffectSteps(steps))))
    {
      var effects := IterAgentSteps(steps);
      var edges := Cycles.CollectEdges(effects);
      var cyclic := Cycles.FindCyclic(edges);
      if cyclic != {} {
        AddError(CyclicGraph);
      }
    }

    // ----------------------------------------------------------------------
    // The policy lint as a whole.
    // ----------------------------------------------------------------------

    method PolicyLint(definition: Value, roster: set<string>)
      requires Lists(definition, "steps")
      modifies this
      ensures Reported(old(errors), errors,
                LintOk(definition, roster) && !Cycles.HasCycle(Cycles.EdgesOf(EffectSteps(Steps(definition)))))
      ensures Reported(old(warnings), warnings, Quiet(definition))
    {
      LintPolicyBlock(definition);
      var steps := definition.fields["steps"].items;
      var inputs := Get(definition, "inputs");
      var declared := if inputs.Dict? then inputs.fields.Keys else {};
      var known := CollectAllStepIds(steps);
      var allowed := AllowedProfiles(Get(PolicyBlock(definition), "allowed_profiles"));
      LintAgentSteps(steps, declared, known, allowed, roster);
      LintIfSteps(steps, declared, known);
      var available := new IdSet({});
      WalkSteps(steps, available);
      LintCycles(steps);
    }
  }

  /** `iter_agent_steps`. */
  method IterAgentSteps(steps: seq<Value>) returns (found: seq<Value>)
    ensures found == EffectSteps(steps)
    decreases steps, 0
  {
    found := [];
    var i := 0;
    while i < |steps|
      invariant 0 <= i <= |steps|
      invariant found + EffectSteps(steps[i..]) == EffectSteps(steps)
    {
      assert steps[i..][0] == steps[i] && steps[i..][1..] == steps[i + 1..];
      var here := IterAgentStep(steps[i]);
      found := found + here;
      i := i + 1;
    }
  }

  method IterAgentStep(step: Value) returns (found: seq<Value>)
    ensures found == EffectStepsOf(step)
    decreases step, 1
  {
    if IsEffect(Get(step, "kind")) {
      return [step];
    }
    if HasChildren(step) {
      found := IterAgentSteps(step.fields[ChildKey(Get(step, "kind"))].items);
      return;
    }
    found := [];
    if IsIf(step) && Lists(step, "then") {
      found := IterAgentSteps(step.fields["then"].items);
    }
    if IsIf(step) && Lists(step, "else") {
      var more := IterAgentSteps(step.fields["else"].items);
      found := found + more;
    }
  }

  /** `_collect_all_step_ids`. */
  method CollectAllStepIds(steps: seq<Value>) returns (ids: set<string>)
    ensures ids == KnownIds(steps)
    decreases steps, 0
  {
    ids := {};
    var i := 0;
    while i < |steps|
      invariant 0 <= i <= |steps|
      invariant ids + KnownIds(steps[i..]) == KnownIds(steps)
    {
      assert steps[i..][0] == steps[i] && steps[i..][1..] == steps[i + 1..];
      var here := CollectStepIds(steps[i]);
      ids := ids + here;
      i := i + 1;
    }
  }

  method CollectStepIds(step: Value) returns (ids: set<string>)
    ensures ids == KnownIdsOf(step)
    decreases step, 1
  {
    if !step.Dict? {
      return {};
    }
    var branches := CollectUnder(step, "branches");
    var steps := CollectUnder(step, "steps");
    var taken := CollectUnder(step, "then");
    var other := CollectUnder(step, "else");
    ids := WithId({}, step) + branches + steps + taken + other;
  }

  method CollectUnder(step: Value, key: string) returns (ids: set<string>)
    requires step.Dict?
    ensures ids == if Lists(step, key) then KnownIds(step.fields[key].items) else {}
    decreases step, 0
  {
    ids := {};
    if Lists(step, key) {
      ids := CollectAllStepIds(step.fields[key].items);
    }
  }

  /** `workflow_validate` on a parsed definition: the policy lint runs only when
      the structure has no error, and strict mode turns warnings into errors.
      The cycle lint never decides: on unique ids it is implied by the others. */
  method WorkflowValidate(definition: Value, roster: set<string>, strict: bool)
    returns (ok: bool, errors: seq<Topic>, warnings: seq<Topic>)
    ensures ok <==> StructureOk(definition) && LintOk(definition, roster) && (strict ==> Quiet(definition))
    ensures ok <==> errors == []
    ensures ok ==> (warnings == [] <==> Quiet(definition))
  {
    if !definition.Dict? {
      return false, [SchemaTopLevel], [];
    }
    var linter := new Linter();
    linter.ValidateStructure(definition);
    if linter.errors == [] {
      if StructureOk(definition) && LintOk(definition, roster) {
        Cycles.DeclarationOrderIsAcyclic(Steps(definition));
      }
      linter.PolicyLint(definition, roster);
    }
    errors, warnings := linter.errors, linter.warnings;
    if strict {
      errors, warnings := errors + warnings, [];
    }
    ok := errors == [];
  }
}
