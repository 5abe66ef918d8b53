/** A family of definitions that validation (schema.py, sandbox.py) must accept:
    agents and cards, alone, grouped and under conditions, nested to any depth, each
    reading the outputs of others. Such a workflow is accepted exactly when every
    step reads only what is in its scope. At the end, the same for policy blocks. */
module Plans {
  import opened Json
  import opened Definition
  import References

  datatype Grouping = Parallel | Pipeline | Phase

  /** A step: what it is called, what runs it or is in it, and whose outputs it reads. */
  datatype Plan =
    | Agent(id: string, agent: string, uses: seq<string>)
    | Card(id: string, profile: string, uses: seq<string>)
    | Group(id: string, kind: Grouping, parts: seq<Plan>)
    | Choice(id: string, op: string, on: string, value: Value, yes: seq<Plan>, no: seq<Plan>)

  // ------------------------------------------------------------------------
  // As definitions.
  // ------------------------------------------------------------------------

  function RefTo(id: string): string {
    "$ref:" + id + ".output"
  }

  function RefsTo(ids: seq<string>): Value {
    Dict(map id | id in ids :: Str(RefTo(id)))
  }

  function Names(ids: seq<string>): (r: Value)
    ensures r.List?
  {
    List(seq(|ids|, i requires 0 <= i < |ids| => Str(ids[i])))
  }

  function KindOf(kind: Grouping): string {
    match kind
    case Parallel => "parallel"
    case Pipeline => "pipeline"
    case Phase => "phase"
  }

  function StepOf(p: Plan): Value
    decreases p
  {
    match p
    case Agent(id, agent, uses) =>
      Dict(map["kind" := Str("agent"), "id" := Str(id), "agent" := Str(agent),
               "input" := RefsTo(uses), "depends_on" := Names(uses)])
    case Card(id, profile, uses) =>
      Dict(map["kind" := Str("kanban_agent"), "id" := Str(id), "profile" := Str(profile),
               "task" := RefsTo(uses), "depends_on" := Names(uses)])
    case Group(id, kind, parts) =>
      Dict(map["kind" := Str(KindOf(kind)), "id" := Str(id),
               (if kind == Parallel then "branches" else "steps") := List(StepsOf(parts))])
    case Choice(id, op, on, value, yes, no) =>
      Dict(map["kind" := Str("if"), "id" := Str(id),
               "condition" := Dict(map["op" := Str(op), "ref" := Str(RefTo(on)), "value" := value]),
               "then" := List(StepsOf(yes)), "else" := List(StepsOf(no))])
  }

  function StepsOf(ps: seq<Plan>): (steps: seq<Value>)
    ensures |steps| == |ps|
    decreases ps
  {
    if ps == [] then [] else [StepOf(ps[0])] + StepsOf(ps[1..])
  }

  function WorkflowOf(name: string, ps: seq<Plan>): Value {
    Dict(map["version" := Str("1"), "name" := Str(name), "steps" := List(StepsOf(ps))])
  }

  /** An id that a reference cannot read differently: without dots, and not `inputs`. */
  predicate PlainId(id: string) {
    References.SpellsId(id) && '.' !in id && id != "inputs"
  }

  predicate SafeName(name: string) {
    name != "" && forall c | c in name :: 'a' <= c <= 'z' || 'A' <= c <= 'Z' || '0' <= c <= '9' || c in "._-"
  }

  predicate AllPlain(ids: seq<string>) {
    forall i | 0 <= i < |ids| :: PlainId(ids[i])
  }

  /** Names are spelled right and agents known, and no group or branch is empty. */
  predicate PlanOk(p: Plan, roster: set<string>)
    decreases p
  {
    && PlainId(p.id)
    && match p
       case Agent(_, agent, uses) => AllPlain(uses) && agent != "" && !("kanban." <= agent) && agent in roster
       case Card(_, profile, uses) => AllPlain(uses) && SafeName(profile)
       case Group(_, _, parts) => parts != [] && PlansOk(parts, roster)
       case Choice(_, op, on, _, yes, no) =>
         PlainId(on) && op in ["truthy", "exists", "eq", "ne"] && yes != [] && PlansOk(yes, roster) && PlansOk(no, roster)
  }

  predicate PlansOk(ps: seq<Plan>, roster: set<string>)
    decreases ps
  {
    ps == [] || (PlanOk(ps[0], roster) && PlansOk(ps[1..], roster))
  }

  /** Every id, in the order in which the definition gives them. */
  function AllIds(p: Plan): seq<string>
    decreases p
  {
    match p
    case Group(id, _, parts) => [id] + IdsOfAll(parts)
    case Choice(id, _, _, _, yes, no) => [id] + IdsOfAll(yes) + IdsOfAll(no)
    case _ => [p.id]
  }

  function IdsOfAll(ps: seq<Plan>): seq<string>
    decreases ps
  {
    if ps == [] then [] else AllIds(ps[0]) + IdsOfAll(ps[1..])
  }

  // ------------------------------------------------------------------------
  // Scope.
  // ------------------------------------------------------------------------

  /** What may be read after a step: also what is in a group, but nothing of what
      is under a condition. */
  function ScopeAfter(p: Plan, scope: set<string>): set<string>
    decreases p
  {
    if p.Group? then ScopeAfterAll(p.parts, scope) + {p.id} else scope + {p.id}
  }

  function ScopeAfterAll(ps: seq<Plan>, scope: set<string>): set<string>
    decreases ps
  {
    if ps == [] then scope else ScopeAfterAll(ps[1..], ScopeAfter(ps[0], scope))
  }

  predicate InScope(p: Plan, scope: set<string>)
    decreases p
  {
    match p
    case Agent(_, _, uses) => forall id | id in uses :: id in scope
    case Card(_, _, uses) => forall id | id in uses :: id in scope
    case Group(_, _, parts) => AllInScope(parts, scope)
    case Choice(_, _, on, _, yes, no) => on in scope && AllInScope(yes, scope) && AllInScope(no, scope)
  }

  predicate AllInScope(ps: seq<Plan>, scope: set<string>)
    decreases ps
  {
    ps == [] || (InScope(ps[0], scope) && AllInScope(ps[1..], ScopeAfter(ps[0], scope)))
  }

  // ------------------------------------------------------------------------
  // References to plain ids.
  // ------------------------------------------------------------------------

  lemma PlainIdsAreRead(id: string)
    requires PlainId(id)
    ensures ParseRef(RefTo(id)) == OutputRef(id, [])
  {
    var v := RefTo(id);
    assert References.Dotted([]) == "";
    assert "$ref:" + id + ".output" + "" == v;
    assert References.SpellsOutput(v, id, []);
    forall key ensures !References.SpellsInput(v, key) {
      NotAnInput(id, key);
    }
    forall id', path | References.SpellsOutput(v, id', path) ensures |id| <= |id'| {
      if |id'| < |id| {
        ShorterDiffers(id, id', path);
      }
    }
    References.ReferencesAreRead(v);
  }

  /** A step named `inputs` has no reference to the whole of its output: that is
      read as the input `output`. */
  lemma InputsIsReadAsAnInput()
    ensures ParseRef(RefTo("inputs")) == InputRef("output")
  {
    assert RefTo("inputs") == "$ref:inputs." + "output";
    assert References.SpellsInput(RefTo("inputs"), "output");
    References.ReferencesAreRead(RefTo("inputs"));
  }

  lemma NotAnInput(id: string, key: string)
    requires PlainId(id)
    ensures !References.SpellsInput(RefTo(id), key)
  {
    var v, text, inputs := RefTo(id), "$ref:inputs." + key, "inputs";
    assert v[|v| - 1] == 't' && (text + "\n")[|text|] == '\n';
    assert text[11] == '.' && text[5..11] == inputs;
    if |id| > 6 {
      assert v[11] == id[6];
    } else if |id| < 6 {
      assert v[5 + |id|] == '.' && text[5..11][|id|] == inputs[|id|] != '.';
    } else {
      assert v[5..11] == id;
    }
  }

  lemma ShorterDiffers(id: string, id': string, path: seq<string>)
    requires PlainId(id) && |id'| < |id|
    ensures !References.SpellsOutput(RefTo(id), id', path)
  {
    var v, text := RefTo(id), "$ref:" + id' + ".output" + References.Dotted(path);
    assert text[5 + |id'|] == '.' && (text + "\n")[5 + |id'|] == '.';
    assert v[5 + |id'|] == id[|id'|];
  }

  lemma RefsAre(ids: seq<string>, known: set<string>)
    requires AllPlain(ids)
    ensures RefsKnown(RefsTo(ids), known) <==> forall id | id in ids :: id in known
    ensures RefsAvailable(RefsTo(ids), known) <==> forall id | id in ids :: id in known
  {
    var fields := RefsTo(ids).fields;
    forall id | id in ids
      ensures RefsKnown(fields[id], known) <==> id in known
      ensures RefsAvailable(fields[id], known) <==> id in known
    {
      PlainIdsAreRead(id);
    }
    assert forall id :: id in fields <==> id in ids;
  }

  lemma NamesAre(ids: seq<string>, known: set<string>)
    ensures var items := Names(ids).items;
            && (forall i | 0 <= i < |items| :: items[i].Str?)
            && ((forall i | 0 <= i < |items| :: items[i].s in known) <==> (forall id | id in ids :: id in known))
  {
    var items := Names(ids).items;
    assert |items| == |ids| && forall i | 0 <= i < |ids| :: items[i] == Str(ids[i]);
    if forall i | 0 <= i < |items| :: items[i].s in known {
      forall id | id in ids ensures id in known {
        var i :| 0 <= i < |ids| && ids[i] == id;
        assert items[i].s in known;
      }
    }
  }

  // ------------------------------------------------------------------------
  // What the steps look like.
  // ------------------------------------------------------------------------

  ghost predicate LooksLikeLeaf(step: Value, id: string, kind: string, uses: seq<string>) {
    && step.Dict? && Get(step, "id") == Str(id) && Get(step, "kind") == Str(kind)
    && kind in ["agent", "kanban_agent"] && !Has(step, "branches") && !Has(step, "steps") && !Has(step, "then") && !Has(step, "else")
    && Get(step, "depends_on") == Names(uses)
    && Get(step, if kind == "agent" then "input" else "task") == RefsTo(uses)
    && (kind == "kanban_agent" ==> !Has(step, "input"))
  }

  ghost predicate LooksLikeGroup(step: Value, id: string, kind: Grouping, steps: seq<Value>) {
    && step.Dict? && Get(step, "id") == Str(id) && Get(step, "kind") == Str(KindOf(kind))
    && !Has(step, "then") && !Has(step, "else") && !Has(step, "depends_on")
    && Has(step, "branches") == (kind == Parallel) && Has(step, "steps") == (kind != Parallel)
    && Get(step, if kind == Parallel then "branches" else "steps") == List(steps)
  }

  ghost predicate LooksLikeChoice(step: Value, id: string, on: string, yes: seq<Value>, no: seq<Value>) {
    && step.Dict? && Get(step, "id") == Str(id) && Get(step, "kind") == Str("if")
    && !Has(step, "branches") && !Has(step, "steps") && !Has(step, "depends_on")
    && Has(step, "then") && Has(step, "else") && Get(step, "then") == List(yes) && Get(step, "else") == List(no)
    && Get(step, "condition").Dict? && Get(Get(step, "condition"), "ref") == Str(RefTo(on))
  }

  lemma AgentLooks(p: Plan)
    requires p.Agent?
    ensures LooksLikeLeaf(StepOf(p), p.id, "agent", p.uses) && Get(StepOf(p), "agent") == Str(p.agent)
  {
    hide RefsTo;
    hide Names;
  }

  lemma CardLooks(p: Plan)
    requires p.Card?
    ensures LooksLikeLeaf(StepOf(p), p.id, "kanban_agent", p.uses) && Get(StepOf(p), "profile") == Str(p.profile)
  {
    hide RefsTo;
    hide Names;
  }

  lemma GroupLooks(p: Plan)
    requires p.Group?
    ensures LooksLikeGroup(StepOf(p), p.id, p.kind, StepsOf(p.parts))
  {
  }

  lemma ChoiceLooks(p: Plan)
    requires p.Choice?
    ensures LooksLikeChoice(StepOf(p), p.id, p.on, StepsOf(p.yes), StepsOf(p.no))
  {
    hide RefTo;
    ChoiceBranches(p);
  }

  lemma ChoiceBranches(p: Plan)
    requires p.Choice?
    ensures var step := StepOf(p);
            && !Has(step, "branches") && !Has(step, "steps") && !Has(step, "depends_on")
            && Has(step, "then") && Has(step, "else") && Get(step, "then") == List(StepsOf(p.yes)) && Get(step, "else") == List(StepsOf(p.no))
  {
  }

  lemma LeafIds(step: Value, id: string, kind: string, uses: seq<string>)
    requires LooksLikeLeaf(step, id, kind, uses)
    ensures IdsOf(step) == [id] && KnownIdsOf(step) == {id}
  {
  }

  lemma GroupIds(step: Value, id: string, kind: Grouping, steps: seq<Value>)
    requires LooksLikeGroup(step, id, kind, steps)
    ensures IdsOf(step) == [id] + IdsIn(steps) && KnownIdsOf(step) == {id} + KnownIds(steps)
  {
    assert IsContainer(Get(step, "kind")) && !IsIf(step) && HasChildren(step);
    assert ChildKey(Get(step, "kind")) == (if kind == Parallel then "branches" else "steps");
  }

  lemma ChoiceIds(step: Value, id: string, on: string, yes: seq<Value>, no: seq<Value>)
    requires LooksLikeChoice(step, id, on, yes, no)
    ensures IdsOf(step) == [id] + IdsIn(yes) + IdsIn(no) && KnownIdsOf(step) == {id} + KnownIds(yes) + KnownIds(no)
  {
    assert IsIf(step) && !IsContainer(Get(step, "kind"));
  }

  /** What definitions make of a step that looks so. */
  lemma LeafIs(step: Value, id: string, kind: string, uses: seq<string>)
    requires LooksLikeLeaf(step, id, kind, uses)
    ensures EffectStepsOf(step) == [step]
    ensures Deps(step) == Names(uses).items
    ensures forall ids :: AvailableAfter(step, ids) == ids + {id}
    ensures forall known :: IfRefsOk(step, known)
  {
  }

  lemma GroupIs(step: Value, id: string, kind: Grouping, steps: seq<Value>)
    requires LooksLikeGroup(step, id, kind, steps)
    ensures EffectStepsOf(step) == EffectSteps(steps) && Deps(step) == []
    ensures forall ids :: AvailableAfter(step, ids) == AvailableAfterAll(steps, ids) + {id}
    ensures forall known :: IfRefsOk(step, known) <==> IfRefsOkAll(steps, known)
    ensures forall ids :: OrderOk(step, ids) <==> OrderOkAll(steps, ids)
  {
    assert IsContainer(Get(step, "kind")) && !IsEffect(Get(step, "kind")) && !IsIf(step);
    assert ChildKey(Get(step, "kind")) == (if kind == Parallel then "branches" else "steps");
    assert HasChildren(step) && step.fields[ChildKey(Get(step, "kind"))].items == steps;
  }

  lemma ChoiceIs(step: Value, id: string, on: string, yes: seq<Value>, no: seq<Value>)
    requires LooksLikeChoice(step, id, on, yes, no)
    ensures EffectStepsOf(step) == EffectSteps(yes) + EffectSteps(no) && Deps(step) == []
    ensures forall ids :: AvailableAfter(step, ids) == ids + {id}
    ensures forall known :: IfRefsOk(step, known) <==>
                            RefsKnown(Str(RefTo(on)), known) && IfRefsOkAll(yes, known) && IfRefsOkAll(no, known)
    ensures forall ids :: OrderOk(step, ids) <==>
                          RefsAvailable(Str(RefTo(on)), ids) && OrderOkAll(yes, ids) && OrderOkAll(no, ids)
  {
    assert IsIf(step) && !IsEffect(Get(step, "kind")) && !IsContainer(Get(step, "kind"));
    assert step.fields["then"].items == yes && step.fields["else"].items == no;
  }

  // ------------------------------------------------------------------------
  // Shape, ids, scope.
  // ------------------------------------------------------------------------

  lemma AgentShape(p: Plan, roster: set<string>)
    requires PlanOk(p, roster) && p.Agent?
    ensures StepShapeOk(StepOf(p))
  {
    AgentLooks(p);
    AgentHasNo(p);
    hide StepOf;
    LeafShape(StepOf(p), p.id, "agent", p.uses);
  }

  lemma AgentHasNo(p: Plan)
    requires p.Agent?
    ensures var step := StepOf(p);
            && !Has(step, "output_schema") && !Has(step, "title") && !Has(step, "task_title")
            && !Has(step, "phase_id") && !Has(step, "phase_title")
  {
  }

  lemma CardShape(p: Plan, roster: set<string>)
    requires PlanOk(p, roster) && p.Card?
    ensures StepShapeOk(StepOf(p))
  {
    CardLooks(p);
    CardHasNo(p);
    hide StepOf;
    assert IdentifierSafe(p.profile);
    LeafShape(StepOf(p), p.id, "kanban_agent", p.uses);
  }

  lemma CardHasNo(p: Plan)
    requires p.Card?
    ensures var step := StepOf(p);
            && !Has(step, "output_schema") && !Has(step, "title") && !Has(step, "task_title")
            && !Has(step, "phase_id") && !Has(step, "phase_title") && !Has(step, "wait") && Has(step, "task")
  {
  }

  lemma LeafShape(step: Value, id: string, kind: string, uses: seq<string>)
    requires LooksLikeLeaf(step, id, kind, uses) && id != ""
    requires !Has(step, "output_schema") && !Has(step, "title") && !Has(step, "task_title") && !Has(step, "phase_id") && !Has(step, "phase_title")
    requires if kind == "agent" then Get(step, "agent").Str? && Get(step, "agent").s != ""
             else Get(step, "profile").Str? && Get(step, "profile").s != "" && IdentifierSafe(Get(step, "profile").s)
                  && !Has(step, "wait") && Has(step, "task")
    ensures StepShapeOk(step)
  {
    NamesAre(uses, {});
    hide Names;
    assert DependsShapeOk(step);
    assert StringIfPresent(step, "title") && StringIfPresent(step, "task_title");
    assert StringIfPresent(step, "phase_id") && StringIfPresent(step, "phase_title");
  }

  lemma GroupShape(p: Plan, roster: set<string>)
    requires PlanOk(p, roster) && p.Group? && StepsShapeOk(StepsOf(p.parts))
    ensures StepShapeOk(StepOf(p))
  {
    var step := StepOf(p);
    assert IdOk(step) && DependsShapeOk(step) && IsContainer(Get(step, "kind"));
    assert ChildKey(Get(step, "kind")) == if p.kind == Parallel then "branches" else "steps";
    assert PhaseLabelsOk(step);
  }

  lemma ChoiceShape(p: Plan, roster: set<string>)
    requires PlanOk(p, roster) && p.Choice? && StepsShapeOk(StepsOf(p.yes)) && StepsShapeOk(StepsOf(p.no))
    ensures StepShapeOk(StepOf(p))
  {
    ChoiceLooks(p);
    ConditionShape(p);
    var step := StepOf(p);
    hide StepOf;
    hide ConditionOk;
    assert StepsOf(p.yes) != [];
    assert IdOk(step) && DependsShapeOk(step);
  }

  lemma ConditionShape(p: Plan)
    requires p.Choice? && p.op in ["truthy", "exists", "eq", "ne"]
    ensures ConditionOk(Get(StepOf(p), "condition"))
  {
    var condition := Dict(map["op" := Str(p.op), "ref" := Str(RefTo(p.on)), "value" := p.value]);
    assert Get(StepOf(p), "condition") == condition;
    assert "$ref:" <= RefTo(p.on);
  }

  lemma {:induction false} ShapeIsOk(p: Plan, roster: set<string>)
    requires PlanOk(p, roster)
    ensures StepShapeOk(StepOf(p))
    decreases p
  {
    match p {
      case Group(_, _, parts) => ShapesAreOk(parts, roster); GroupShape(p, roster);
      case Choice(_, _, _, _, yes, no) => ShapesAreOk(yes, roster); ShapesAreOk(no, roster); ChoiceShape(p, roster);
      case Agent(_, _, _) => AgentShape(p, roster);
      case Card(_, _, _) => CardShape(p, roster);
    }
  }

  lemma {:induction false} ShapesAreOk(ps: seq<Plan>, roster: set<string>)
    requires PlansOk(ps, roster)
    ensures StepsShapeOk(StepsOf(ps))
    decreases ps
  {
    if ps != [] {
      ShapeIsOk(ps[0], roster);
      ShapesAreOk(ps[1..], roster);
    }
  }

  /** As a set, what comes first and what comes then. */
  lemma TogetherAre(a: seq<string>, b: seq<string>)
    ensures (set id | id in a + b) == (set id | id in a) + (set id | id in b)
  {
  }

  lemma {:induction false} IdsAre(p: Plan)
    ensures IdsOf(StepOf(p)) == AllIds(p)
    ensures KnownIdsOf(StepOf(p)) == set id | id in AllIds(p)
    decreases p
  {
    hide StepOf;
    hide IdsOf;
    hide KnownIdsOf;
    hide EffectStepsOf;
    hide AvailableAfter;
    hide OrderOk;
    hide IfRefsOk;
    hide Names;
    hide RefsTo;
    match p {
      case Agent(id, _, uses) => AgentLooks(p); LeafIds(StepOf(p), id, "agent", uses);
      case Card(id, _, uses) => CardLooks(p); LeafIds(StepOf(p), id, "kanban_agent", uses);
      case Group(id, kind, parts) =>
        GroupLooks(p);
        AllIdsAre(parts);
        GroupIds(StepOf(p), id, kind, StepsOf(parts));
        TogetherAre([id], IdsOfAll(parts));
      case Choice(id, _, on, _, yes, no) =>
        ChoiceLooks(p);
        AllIdsAre(yes);
        AllIdsAre(no);
        ChoiceIds(StepOf(p), id, on, StepsOf(yes), StepsOf(no));
        TogetherAre([id], IdsOfAll(yes));
        TogetherAre([id] + IdsOfAll(yes), IdsOfAll(no));
    }
  }

  lemma {:induction false} AllIdsAre(ps: seq<Plan>)
    ensures IdsIn(StepsOf(ps)) == IdsOfAll(ps)
    ensures KnownIds(StepsOf(ps)) == set id | id in IdsOfAll(ps)
    decreases ps
  {
    hide StepOf;
    if ps != [] {
      IdsAre(ps[0]);
      AllIdsAre(ps[1..]);
      TogetherAre(AllIds(ps[0]), IdsOfAll(ps[1..]));
    }
  }

  lemma LeafOrder(step: Value, id: string, kind: string, uses: seq<string>, scope: set<string>)
    requires LooksLikeLeaf(step, id, kind, uses) && AllPlain(uses)
    ensures OrderOk(step, scope) <==> forall u | u in uses :: u in scope
  {
    LeafIs(step, id, kind, uses);
    RefsAre(uses, scope);
    NamesAre(uses, scope);
    hide RefsTo;
    hide Names;
    assert kind == "kanban_agent" ==> Get(step, "input") == Null;
  }

  lemma {:induction false} OrderIsScope(p: Plan, scope: set<string>, roster: set<string>)
    requires PlanOk(p, roster)
    ensures OrderOk(StepOf(p), scope) <==> InScope(p, scope)
    ensures AvailableAfter(StepOf(p), scope) == ScopeAfter(p, scope)
    decreases p
  {
    hide StepOf;
    hide OrderOk;
    hide AvailableAfter;
    match p {
      case Agent(id, _, uses) =>
        AgentLooks(p);
        LeafIs(StepOf(p), id, "agent", uses);
        LeafOrder(StepOf(p), id, "agent", uses, scope);
      case Card(id, _, uses) =>
        CardLooks(p);
        LeafIs(StepOf(p), id, "kanban_agent", uses);
        LeafOrder(StepOf(p), id, "kanban_agent", uses, scope);
      case Group(id, kind, parts) =>
        GroupLooks(p);
        OrdersAreScopes(parts, scope, roster);
        GroupIs(StepOf(p), id, kind, StepsOf(parts));
      case Choice(id, _, on, _, yes, no) =>
        ChoiceLooks(p);
        PlainIdsAreRead(on);
        OrdersAreScopes(yes, scope, roster);
        OrdersAreScopes(no, scope, roster);
        ChoiceIs(StepOf(p), id, on, StepsOf(yes), StepsOf(no));
    }
  }

  lemma {:induction false} OrdersAreScopes(ps: seq<Plan>, scope: set<string>, roster: set<string>)
    requires PlansOk(ps, roster)
    ensures OrderOkAll(StepsOf(ps), scope) <==> AllInScope(ps, scope)
    ensures AvailableAfterAll(StepsOf(ps), scope) == ScopeAfterAll(ps, scope)
    decreases ps
  {
    hide StepOf;
    hide OrderOk;
    hide AvailableAfter;
    if ps != [] {
      OrderIsScope(ps[0], scope, roster);
      OrdersAreScopes(ps[1..], ScopeAfter(ps[0], scope), roster);
    }
  }

  // ------------------------------------------------------------------------
  // Every step that is read is known.
  // ------------------------------------------------------------------------

  function IdSet(ps: seq<Plan>): set<string> {
    set id | id in IdsOfAll(ps)
  }

  lemma {:induction false} ScopeIsOfIds(p: Plan, scope: set<string>)
    ensures ScopeAfter(p, scope) <= scope + set id | id in AllIds(p)
    decreases p
  {
    if p.Group? {
      ScopesAreOfIds(p.parts, scope);
    }
  }

  lemma {:induction false} ScopesAreOfIds(ps: seq<Plan>, scope: set<string>)
    ensures ScopeAfterAll(ps, scope) <= scope + IdSet(ps)
    decreases ps
  {
    if ps != [] {
      ScopeIsOfIds(ps[0], scope);
      ScopesAreOfIds(ps[1..], ScopeAfter(ps[0], scope));
    }
  }

  /** The lint of leaves and conditions finds everything a step in scope reads. */
  lemma LeafEffect(step: Value, id: string, kind: string, uses: seq<string>, known: set<string>, roster: set<string>)
    requires LooksLikeLeaf(step, id, kind, uses) && AllPlain(uses) && forall u | u in uses :: u in known
    requires kind == "agent" ==> Get(step, "agent").Str? && Get(step, "agent").s in roster && !("kanban." <= Get(step, "agent").s)
    ensures EffectOk(step, known, None, roster)
  {
    LeafIs(step, id, kind, uses);
    RefsAre(uses, known);
    NamesAre(uses, known);
    hide RefsTo;
    hide Names;
    assert kind == "kanban_agent" ==> Get(step, "input") == Null;
  }

  lemma {:induction false} EffectsAppend(a: seq<Value>, b: seq<Value>, known: set<string>, roster: set<string>)
    requires AllEffectsOk(a, known, None, roster) && AllEffectsOk(b, known, None, roster)
    ensures AllEffectsOk(a + b, known, None, roster)
  {
    if a == [] {
      assert a + b == b;
    } else {
      EffectsAppend(a[1..], b, known, roster);
      assert (a + b)[1..] == a[1..] + b && (a + b)[0] == a[0];
    }
  }

  lemma OneEffect(step: Value, known: set<string>, roster: set<string>)
    requires EffectOk(step, known, None, roster)
    ensures AllEffectsOk([step], known, None, roster)
  {
    assert [step][1..] == [];
  }

  lemma {:induction false} PlanIsLinted(p: Plan, scope: set<string>, known: set<string>, roster: set<string>)
    requires PlanOk(p, roster) && InScope(p, scope) && scope <= known && (forall id | id in AllIds(p) :: id in known)
    ensures AllEffectsOk(EffectStepsOf(StepOf(p)), known, None, roster) && IfRefsOk(StepOf(p), known)
    decreases p
  {
    hide StepOf;
    hide EffectOk;
    hide IfRefsOk;
    match p {
      case Agent(id, _, uses) =>
        AgentLooks(p);
        LeafIs(StepOf(p), id, "agent", uses);
        LeafEffect(StepOf(p), id, "agent", uses, known, roster);
        OneEffect(StepOf(p), known, roster);
      case Card(id, _, uses) =>
        CardLooks(p);
        LeafIs(StepOf(p), id, "kanban_agent", uses);
        LeafEffect(StepOf(p), id, "kanban_agent", uses, known, roster);
        OneEffect(StepOf(p), known, roster);
      case Group(id, kind, parts) =>
        GroupLooks(p);
        PlansAreLinted(parts, scope, known, roster);
        GroupIs(StepOf(p), id, kind, StepsOf(parts));
      case Choice(id, _, on, _, yes, no) =>
        ChoiceLooks(p);
        PlainIdsAreRead(on);
        PlansAreLinted(yes, scope, known, roster);
        PlansAreLinted(no, scope, known, roster);
        ChoiceIs(StepOf(p), id, on, StepsOf(yes), StepsOf(no));
        EffectsAppend(EffectSteps(StepsOf(yes)), EffectSteps(StepsOf(no)), known, roster);
    }
  }

  lemma {:induction false} PlansAreLinted(ps: seq<Plan>, scope: set<string>, known: set<string>, roster: set<string>)
    requires PlansOk(ps, roster) && AllInScope(ps, scope) && scope <= known && (forall id | id in IdsOfAll(ps) :: id in known)
    ensures AllEffectsOk(EffectSteps(StepsOf(ps)), known, None, roster) && IfRefsOkAll(StepsOf(ps), known)
    decreases ps
  {
    hide StepOf;
    hide EffectOk;
    hide IfRefsOk;
    if ps != [] {
      PlanIsLinted(ps[0], scope, known, roster);
      ScopeIsOfIds(ps[0], scope);
      PlansAreLinted(ps[1..], ScopeAfter(ps[0], scope), known, roster);
      EffectsAppend(EffectStepsOf(StepOf(ps[0])), EffectSteps(StepsOf(ps[1..])), known, roster);
    }
  }

  lemma TopLevelIsOk(name: string, ps: seq<Plan>)
    requires SafeName(name)
    ensures var definition := WorkflowOf(name, ps);
            && TopLevelOk(definition) && Steps(definition) == StepsOf(ps)
            && PolicyOk(definition) && AllowedProfiles(Get(PolicyBlock(definition), "allowed_profiles")) == None
  {
  }

  /** Such a workflow has the right structure exactly when no id is used twice, and
      passes the lint exactly when every step reads only what is in its scope. */
  lemma PlansAreAcceptedExactlyWhen(name: string, ps: seq<Plan>, roster: set<string>)
    requires SafeName(name) && PlansOk(ps, roster)
    ensures StructureOk(WorkflowOf(name, ps)) <==> Distinct(IdsOfAll(ps))
    ensures LintOk(WorkflowOf(name, ps), roster) <==> AllInScope(ps, {})
  {
    TopLevelIsOk(name, ps);
    hide WorkflowOf;
    hide PlansOk;
    hide OrderOkAll;
    hide AllEffectsOk;
    ShapesAreOk(ps, roster);
    AllIdsAre(ps);
    OrdersAreScopes(ps, {}, roster);
    if AllInScope(ps, {}) {
      PlansAreLinted(ps, {}, KnownIds(StepsOf(ps)), roster);
    }
  }

  // ------------------------------------------------------------------------
  // Policies.
  // ------------------------------------------------------------------------

  /** A count, zero included. */
  ghost predicate IsLimit(v: Value) {
    exists n: nat :: v == Int(n)
  }

  ghost predicate IsSafeName(v: Value) {
    exists name :: v == Str(name) && SafeName(name)
  }

  ghost predicate IsProfileList(v: Value) {
    v.List? && forall i | 0 <= i < |v.items| :: IsSafeName(v.items[i])
  }

  ghost predicate Given(v: Value, key: string, limit: Option<nat>) {
    forall n: nat :: limit == Some(n) <==> Has(v, key) && Get(v, key) == Int(n)
  }

  lemma LimitsAre(policy: Value, key: string)
    ensures LimitOk(policy, key) <==> !Has(policy, key) || IsLimit(Get(policy, key))
    ensures LimitOk(policy, key) ==> Given(policy, key, Limit(policy, key))
  {
    if Has(policy, key) && Get(policy, key).Int? && Get(policy, key).n >= 0 {
      var n: nat := Get(policy, key).n;
      assert Get(policy, key) == Int(n);
    }
  }

  lemma ProfilesAre(v: Value)
    ensures AllowedProfiles(v).Some? <==> IsProfileList(v)
    ensures AllowedProfiles(v).Some? ==> v.List? && forall name :: name in AllowedProfiles(v).value <==> Str(name) in v.items
  {
    if v.List? {
      forall i | 0 <= i < |v.items|
        ensures IsSafeName(v.items[i]) <==> v.items[i].Str? && v.items[i].s != "" && IdentifierSafe(v.items[i].s)
      {
        if v.items[i].Str? {
          SafeNamesAre(v.items[i].s);
        }
      }
    }
  }

  lemma SafeNamesAre(name: string)
    ensures SafeName(name) <==> name != "" && IdentifierSafe(name)
  {
  }

  /** What the runtime reads from a policy block: each limit and the list of profiles
      as given, and an error exactly for one that is no count, or no list of names. */
  lemma PoliciesAreRead(definition: Value)
    requires Get(definition, "policy").Dict?
    ensures var policy := Get(definition, "policy");
            && (GovernanceOf(definition).None? <==>
                  || (exists key :: key in ["max_agent_calls", "max_kanban_cards", "max_active_awaits"]
                                    && Has(policy, key) && !IsLimit(Get(policy, key)))
                  || (Has(policy, "allowed_profiles") && !IsProfileList(Get(policy, "allowed_profiles"))))
            && (GovernanceOf(definition).Some? ==>
                  var g := GovernanceOf(definition).value;
                  && Given(policy, "max_agent_calls", g.maxAgentCalls) && Given(policy, "max_kanban_cards", g.maxKanbanCards)
                  && Given(policy, "max_active_awaits", g.maxActiveAwaits)
                  && (g.allowedProfiles.Some? <==> Has(policy, "allowed_profiles"))
                  && (g.allowedProfiles.Some? ==>
                        forall name :: name in g.allowedProfiles.value <==> Str(name) in Items(Get(policy, "allowed_profiles"))))
  {
    var policy := Get(definition, "policy");
    assert PolicyBlock(definition) == policy;
    LimitsAre(policy, "max_agent_calls");
    LimitsAre(policy, "max_kanban_cards");
    LimitsAre(policy, "max_active_awaits");
    ProfilesAre(Get(policy, "allowed_profiles"));
  }

  /** And validation accepts just the blocks that it reads, that ask for neither
      network nor files nor a width below 1, and that hold nothing else. */
  lemma PoliciesAreAcceptedExactlyWhen(definition: Value)
    requires Get(definition, "policy").Dict?
    ensures var policy := Get(definition, "policy");
            PolicyOk(definition) <==>
              && GovernanceOf(definition).Some?
              && Get(policy, "network") != Bool(true) && Get(policy, "filesystem") != Bool(true)
              && (Has(policy, "max_parallel") ==> exists width :: width >= 1 && Get(policy, "max_parallel") == Int(width))
              && forall key | Has(policy, key) ::
                   key in {"network", "filesystem", "max_parallel", "max_agent_calls", "max_kanban_cards", "max_active_awaits", "allowed_profiles"}
  {
    var policy := Get(definition, "policy");
    assert PolicyBlock(definition) == policy;
    assert forall key :: Has(policy, key) <==> key in policy.fields.Keys;
    if Has(policy, "max_parallel") && Get(policy, "max_parallel").Int? {
      assert Get(policy, "max_parallel") == Int(Get(policy, "max_parallel").n);
    }
  }
}
