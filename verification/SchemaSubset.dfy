/** The shared output-schema checker (schema_subset.py) and the older flat
    contract checker for Kanban results (kanban.py).

    Schemas stay JSON values, as in the source. A `SchemaError` is the value
    `Malformed`; diagnostic texts and pointers are not modelled. */
module SchemaSubset {
  import opened Json

  datatype Normalized = Schema(node: Value) | NoSchema | Malformed

  const TYPE_NAMES: set<string> :=
    {"object", "array", "string", "number", "integer", "boolean", "null"}

  const ALLOWED_KEYWORDS: set<string> :=
    {"type", "properties", "required", "items", "enum", "additionalProperties"}

  // ------------------------------------------------------------------------
  // Normalization.
  // ------------------------------------------------------------------------

  /** Whether a non-empty dict reads as a hand-authored subset schema. */
  predicate IsDeclaredSubset(fields: map<string, Value>) {
    if "type" in fields then true
    else if !(fields.Keys <= ALLOWED_KEYWORDS) then false
    else if "properties" in fields || "items" in fields || "enum" in fields || "additionalProperties" in fields then true
    else "required" in fields && fields["required"].List?
  }

  predicate AllStrings(items: seq<Value>) {
    forall i | 0 <= i < |items| :: items[i].Str?
  }

  /** Normalizes the entries of a `properties` object, or fails as a whole. */
  function NormalizeProperties(properties: Value): (r: Option<map<string, Value>>)
    requires properties.Dict?
    ensures r.Some? <==> forall k | k in properties.fields :: NormalizeNode(properties.fields[k]).Some?
    decreases properties, 0
  {
    var ps := properties.fields;
    if forall k | k in ps :: NormalizeNode(ps[k]).Some? then
      Some(map k | k in ps :: NormalizeNode(ps[k]).value)
    else None
  }

  /** One subset node: the result holds exactly the keywords that were checked. */
  function NormalizeNode(node: Value): (r: Option<Value>)
    decreases node, 1
  {
    if !node.Dict? then None
    else
      var f := node.fields;
      if !(f.Keys <= ALLOWED_KEYWORDS) then None
      else if "type" in f && !(f["type"].Str? && f["type"].s in TYPE_NAMES) then None
      else if "required" in f && !(f["required"].List? && AllStrings(f["required"].items)) then None
      else if "properties" in f && !(f["properties"].Dict? && NormalizeProperties(f["properties"]).Some?) then None
      else if "items" in f && NormalizeNode(f["items"]).None? then None
      else if "enum" in f && !(f["enum"].List? && f["enum"].items != []) then None
      else if "additionalProperties" in f && !f["additionalProperties"].Bool? then None
      else
        var r0: map<string, Value> := map[];
        var r1 := if "type" in f then r0["type" := Str(f["type"].s)] else r0;
        var r2 := if "required" in f then r1["required" := List(f["required"].items)] else r1;
        var r3 := if "properties" in f
                  then r2["properties" := Dict(NormalizeProperties(f["properties"]).value)] else r2;
        var r4 := if "items" in f then r3["items" := NormalizeNode(f["items"]).value] else r3;
        var r5 := if "enum" in f then r4["enum" := List(f["enum"].items)] else r4;
        var r6 := if "additionalProperties" in f
                  then r5["additionalProperties" := Bool(f["additionalProperties"].b)] else r5;
        Some(Dict(r6))
  }

  /** ASCII lower case; every hint alias is ASCII. */
  function Lower(s: string): (r: string)
  {
    seq(|s|, i requires 0 <= i < |s| =>
      if 'A' <= s[i] <= 'Z' then (s[i] as int + 32) as char else s[i])
  }

  /** The legacy hint aliases, on an already lower-cased hint. */
  function LegacyTypeName(hint: string): Option<string> {
    if hint == "string" || hint == "str" then Some("string")
    else if hint == "number" || hint == "float" then Some("number")
    else if hint == "int" || hint == "integer" then Some("integer")
    else if hint == "bool" || hint == "boolean" then Some("boolean")
    else if hint == "object" || hint == "dict" then Some("object")
    else if hint == "list" || hint == "array" then Some("array")
    else None
  }

  /** A hint that is not a recognised string leaves the field unconstrained. */
  function LegacyPropertySchema(hint: Value): (node: Value)
  {
    if hint.Str? && LegacyTypeName(Lower(hint.s)).Some? then
      Dict(map["type" := Str(LegacyTypeName(Lower(hint.s)).value)])
    else
      Dict(map[])
  }

  /** `ks` lists the keys of `fields` once each, in some order (Python keeps
      insertion order, on which nothing here depends). */
  ghost predicate Enumerates(ks: seq<string>, fields: map<string, Value>) {
    && (forall k :: k in ks <==> k in fields)
    && (forall i, j | 0 <= i < j < |ks| :: ks[i] != ks[j])
  }

  function LegacyProperties(fields: map<string, Value>): map<string, Value> {
    map k | k in fields :: LegacyPropertySchema(fields[k])
  }

  /** The normalized form of a flat `{field: hint}` schema whose keys are listed as `order`. */
  function LegacyNode(fields: map<string, Value>, order: seq<string>): Value {
    Dict(map["type" := Str("object"),
             "properties" := Dict(LegacyProperties(fields)),
             "required" := List(seq(|order|, i requires 0 <= i < |order| => Str(order[i])))])
  }

  /** The flat normalizer fills `properties` one declared field at a time. */
  method NormalizeLegacyFlat(fields: map<string, Value>, order: seq<string>) returns (node: Value)
    requires Enumerates(order, fields)
    ensures node == LegacyNode(fields, order)
  {
    var properties: map<string, Value> := map[];
    var i := 0;
    while i < |order|
      invariant 0 <= i <= |order|
      invariant properties.Keys == set j | 0 <= j < i :: order[j]
      invariant forall k | k in properties :: k in fields && properties[k] == LegacyPropertySchema(fields[k])
    {
      properties := properties[order[i] := LegacyPropertySchema(fields[order[i]])];
      i := i + 1;
    }
    assert properties == LegacyProperties(fields);
    var required := seq(|order|, j requires 0 <= j < |order| => Str(order[j]));
    node := Dict(map["type" := Str("object"), "properties" := Dict(properties), "required" := List(required)]);
  }

  /** `normalize_schema`; `order` is the iteration order of the schema's own dict. */
  function NormalizeSchema(schema: Value, order: seq<string>): Normalized
  {
    if !schema.Dict? || schema.fields == map[] then NoSchema
    else if IsDeclaredSubset(schema.fields) then
      var r := NormalizeNode(schema);
      if r.Some? then Schema(r.value) else Malformed
    else Schema(LegacyNode(schema.fields, order))
  }

  // ------------------------------------------------------------------------
  // Normalization: a well-formed node is its own normal form.
  // ------------------------------------------------------------------------

  lemma {:induction false} NormalizeNodeIsIdentity(node: Value)
    requires NormalizeNode(node).Some?
    ensures NormalizeNode(node).value == node
  {
    var f := node.fields;
    if "properties" in f {
      PropertiesAreIdentity(f["properties"]);
    }
    if "items" in f {
      NormalizeNodeIsIdentity(f["items"]);
    }
    NodeIsRebuilt(node);
  }

  lemma {:induction false} PropertiesAreIdentity(properties: Value)
    requires properties.Dict? && NormalizeProperties(properties).Some?
    ensures NormalizeProperties(properties).value == properties.fields
  {
    var ps := properties.fields;
    forall k | k in ps ensures NormalizeNode(ps[k]).value == ps[k] {
      NormalizeNodeIsIdentity(ps[k]);
    }
  }

  /** A node whose parts are their own normal forms is copied keyword by keyword. */
  lemma NodeIsRebuilt(node: Value)
    requires NormalizeNode(node).Some?
    requires "properties" in node.fields ==> NormalizeProperties(node.fields["properties"]).value == node.fields["properties"].fields
    requires "items" in node.fields ==> NormalizeNode(node.fields["items"]).value == node.fields["items"]
    ensures NormalizeNode(node).value == node
  {
    assert NormalizeNode(node).value.fields == node.fields;
  }

  lemma LegacyPropertyIsNormal(hint: Value)
    ensures NormalizeNode(LegacyPropertySchema(hint)) == Some(LegacyPropertySchema(hint))
  {
    var node := LegacyPropertySchema(hint);
    assert node.fields.Keys <= ALLOWED_KEYWORDS;
    assert NormalizeNode(node).Some?;
    NormalizeNodeIsIdentity(node);
  }

  lemma LegacyNodeIsNormal(fields: map<string, Value>, order: seq<string>)
    ensures NormalizeNode(LegacyNode(fields, order)) == Some(LegacyNode(fields, order))
  {
    var node := LegacyNode(fields, order);
    var ps := LegacyProperties(fields);
    assert node.fields["properties"] == Dict(ps);
    forall k | k in ps ensures NormalizeNode(ps[k]).Some? {
      LegacyPropertyIsNormal(fields[k]);
    }
    assert node.fields.Keys <= ALLOWED_KEYWORDS;
    assert AllStrings(node.fields["required"].items);
    assert NormalizeProperties(Dict(ps)).Some?;
    assert NormalizeNode(node).Some?;
    NormalizeNodeIsIdentity(node);
  }

  /** Whatever normalizes stays put: normalizing the result again, under any
      iteration order, returns it unchanged. */
  lemma NormalizeIsIdempotent(schema: Value, order: seq<string>, order': seq<string>)
    requires NormalizeSchema(schema, order).Schema?
    ensures var n := NormalizeSchema(schema, order).node;
            NormalizeSchema(n, order') == Schema(n)
  {
    var n := NormalizeSchema(schema, order).node;
    if IsDeclaredSubset(schema.fields) {
      NormalizeNodeIsIdentity(schema);
    } else {
      LegacyNodeIsNormal(schema.fields, order);
      assert "type" in n.fields;
    }
  }

  // ------------------------------------------------------------------------
  // Checking a payload.
  // ------------------------------------------------------------------------

  predicate TypeAccepts(name: string, v: Value) {
    match v
    case Null => name == "null"
    case Bool(_) => name == "boolean"
    case Int(_) => name == "number" || name == "integer"
    case Real(_) => name == "number"
    case Str(_) => name == "string"
    case List(_) => name == "array"
    case Dict(_) => name == "object"
  }

  predicate IsNode(node: Value) {
    NormalizeNode(node).Some?
  }

  /** The value of `_check_value`: true when it does not raise. The `isinstance`
      test on a Python type tuple and the separate bool rejection are kept apart,
      as the code keeps them. */
  predicate CheckValue(value: Value, node: Value)
    requires IsNode(node)
    decreases node, 2
  {
    var f := node.fields;
    (if "type" in f then
       var t := f["type"].s;
       (if t != "boolean" && value.Bool? then false else PyInstance(value, t))
     else true)
    && ("enum" in f ==> PyIn(value, f["enum"].items))
    && (if value.Dict? && (("type" in f && f["type"].s == "object") || "properties" in f || "required" in f) then
          CheckObject(value, node)
        else if value.List? && (("type" in f && f["type"].s == "array") || "items" in f) then
          CheckArray(value, node)
        else true)
  }

  /** `isinstance(value, _PY_TYPES[t])`, where a Python bool is an int. */
  predicate PyInstance(value: Value, t: string) {
    match t
    case "object" => value.Dict?
    case "array" => value.List?
    case "string" => value.Str?
    case "number" => value.Int? || value.Real? || value.Bool?
    case "integer" => value.Int? || value.Bool?
    case "boolean" => value.Bool?
    case "null" => value.Null?
    case _ => false
  }

  predicate CheckObject(value: Value, node: Value)
    requires IsNode(node) && value.Dict?
    decreases node, 1
  {
    var f := node.fields;
    ("required" in f ==>
       forall i | 0 <= i < |f["required"].items| :: f["required"].items[i].s in value.fields)
    && ("properties" in f ==>
          forall k | k in f["properties"].fields && k in value.fields ::
            CheckValue(value.fields[k], f["properties"].fields[k]))
    && ("additionalProperties" in f && !f["additionalProperties"].b ==>
          value.fields.Keys - (if "properties" in f then f["properties"].fields.Keys else {}) == {})
  }

  predicate CheckArray(value: Value, node: Value)
    requires IsNode(node) && value.List?
    decreases node, 1
  {
    var f := node.fields;
    "items" in f ==> forall i | 0 <= i < |value.items| :: CheckValue(value.items[i], f["items"])
  }

  /** `validate`: true when no `SchemaError` is raised. */
  predicate Validate(payload: Value, schema: Value, order: seq<string>) {
    match NormalizeSchema(schema, order)
    case NoSchema => true
    case Malformed => false
    case Schema(node) =>
      SchemaIsNode(schema, order);
      CheckValue(payload, node)
  }

  lemma SchemaIsNode(schema: Value, order: seq<string>)
    requires NormalizeSchema(schema, order).Schema?
    ensures IsNode(NormalizeSchema(schema, order).node)
  {
    if IsDeclaredSubset(schema.fields) {
      NormalizeNodeIsIdentity(schema);
    } else {
      LegacyNodeIsNormal(schema.fields, order);
    }
  }

  // ------------------------------------------------------------------------
  // The documented meaning of each keyword, independent of the others.
  // ------------------------------------------------------------------------

  ghost predicate Satisfies(value: Value, node: Value)
    requires IsNode(node)
    decreases node, 1
  {
    var f := node.fields;
    && ("type" in f ==> TypeAccepts(f["type"].s, value))
    && ("enum" in f ==> PyIn(value, f["enum"].items))
    && (value.Dict? ==> SatisfiesObject(value, node))
    && (value.List? && "items" in f ==> forall i | 0 <= i < |value.items| :: Satisfies(value.items[i], f["items"]))
  }

  ghost predicate SatisfiesObject(value: Value, node: Value)
    requires IsNode(node) && value.Dict?
    decreases node, 0
  {
    var f := node.fields;
    && ("required" in f ==> forall name | Str(name) in f["required"].items :: name in value.fields)
    && ("properties" in f ==>
          forall k | k in f["properties"].fields && k in value.fields ::
            Satisfies(value.fields[k], f["properties"].fields[k]))
    && ("additionalProperties" in f && f["additionalProperties"] == Bool(false) ==>
          forall k | k in value.fields :: Declares(node, k))
  }

  predicate Declares(node: Value, name: string)
    requires IsNode(node)
  {
    "properties" in node.fields && name in node.fields["properties"].fields
  }

  /** No keyword in the node switches the object checks on. */
  predicate ObjectChecksOff(node: Value)
    requires IsNode(node)
  {
    "properties" !in node.fields && "required" !in node.fields && Get(node, "type") != Str("object")
  }

  /** Somewhere in the payload an object with fields meets a node that forbids
      undeclared fields but declares no `type: object`, `properties` or `required`. */
  ghost predicate Escapes(value: Value, node: Value)
    requires IsNode(node)
    decreases node, 1
  {
    || (value.Dict? && EscapesObject(value, node))
    || (value.List? && "items" in node.fields &&
        exists i | 0 <= i < |value.items| :: Escapes(value.items[i], node.fields["items"]))
  }

  ghost predicate EscapesObject(value: Value, node: Value)
    requires IsNode(node) && value.Dict?
    decreases node, 0
  {
    || (value.fields != map[] && ObjectChecksOff(node) && Get(node, "additionalProperties") == Bool(false))
    || ("properties" in node.fields &&
        exists k | k in node.fields["properties"].fields && k in value.fields ::
          Escapes(value.fields[k], node.fields["properties"].fields[k]))
  }

  lemma TypeAgrees(value: Value, t: string)
    requires t in TYPE_NAMES
    ensures TypeAccepts(t, value) <==> (PyInstance(value, t) && (value.Bool? ==> t == "boolean"))
  {
  }

  /** The checker enforces the documented meaning exactly, except where a lone
      `additionalProperties: false` is never consulted. */
  lemma {:induction false} CheckIsSatisfaction(value: Value, node: Value)
    requires IsNode(node)
    ensures Satisfies(value, node) <==> CheckValue(value, node) && !Escapes(value, node)
    decreases node, 1
  {
    if "type" in node.fields {
      TypeAgrees(value, node.fields["type"].s);
    }
    if value.Dict? {
      CheckObjectIsSatisfaction(value, node);
    } else if value.List? && "items" in node.fields {
      forall i | 0 <= i < |value.items|
        ensures Satisfies(value.items[i], node.fields["items"])
           <==> CheckValue(value.items[i], node.fields["items"]) && !Escapes(value.items[i], node.fields["items"])
      {
        CheckIsSatisfaction(value.items[i], node.fields["items"]);
      }
    }
  }

  lemma {:induction false} CheckObjectIsSatisfaction(value: Value, node: Value)
    requires IsNode(node) && value.Dict?
    ensures SatisfiesObject(value, node)
       <==> (if ObjectChecksOff(node) then true else CheckObject(value, node)) && !EscapesObject(value, node)
    decreases node, 0
  {
    var f := node.fields;
    if "required" in f {
      RequiredAgrees(value, f["required"].items);
    }
    AdditionalAgrees(value, node);
    if "properties" in f {
      var ps := f["properties"].fields;
      forall k | k in ps && k in value.fields
        ensures Satisfies(value.fields[k], ps[k]) <==> CheckValue(value.fields[k], ps[k]) && !Escapes(value.fields[k], ps[k])
      {
        CheckIsSatisfaction(value.fields[k], ps[k]);
      }
    }
  }

  lemma RequiredAgrees(value: Value, required: seq<Value>)
    requires value.Dict? && AllStrings(required)
    ensures (forall name | Str(name) in required :: name in value.fields)
       <==> (forall i | 0 <= i < |required| :: required[i].s in value.fields)
  {
    if forall name | Str(name) in required :: name in value.fields {
      forall i | 0 <= i < |required| ensures required[i].s in value.fields {
        assert Str(required[i].s) in required;
      }
    }
  }

  lemma AdditionalAgrees(value: Value, node: Value)
    requires IsNode(node) && value.Dict?
    ensures (forall k | k in value.fields :: Declares(node, k))
       <==> value.fields.Keys - (if "properties" in node.fields then node.fields["properties"].fields.Keys else {}) == {}
    ensures ObjectChecksOff(node) ==> ((forall k | k in value.fields :: Declares(node, k)) <==> value.fields == map[])
  {
    var declared := if "properties" in node.fields then node.fields["properties"].fields.Keys else {};
    assert forall k :: Declares(node, k) <==> k in declared;
    if forall k | k in value.fields :: Declares(node, k) {
      assert value.fields.Keys - declared == {};
    } else {
      var k :| k in value.fields && !Declares(node, k);
      assert k in value.fields.Keys - declared;
    }
    if ObjectChecksOff(node) && value.fields != map[] {
      assert value.fields.Keys != {};
      var k :| k in value.fields.Keys;
      assert !Declares(node, k);
    }
  }

  /** A concrete payload the documentation rejects and the checker accepts. */
  lemma LoneAdditionalPropertiesIsNotEnforced()
    ensures var schema := Dict(map["additionalProperties" := Bool(false)]);
            var payload := Dict(map["stray" := Int(1)]);
            && Validate(payload, schema, ["additionalProperties"])
            && IsNode(schema) && !Satisfies(payload, schema)
  {
    var schema := Dict(map["additionalProperties" := Bool(false)]);
    var payload := Dict(map["stray" := Int(1)]);
    assert schema.fields.Keys == {"additionalProperties"};
    assert IsNode(schema);
    NormalizeNodeIsIdentity(schema);
    assert "stray" in payload.fields && !Declares(schema, "stray");
    CheckIsSatisfaction(payload, schema);
  }

  // ------------------------------------------------------------------------
  // The older flat checker for Kanban workflow results.
  // ------------------------------------------------------------------------

  datatype Complaint = NotAnObject | MissingField(name: string) | WrongType(name: string)

  /** `isinstance(value, _RESULT_TYPE_MAP[hint])` with the bool carve-out; an
      unknown hint accepts every value. */
  predicate KanbanAccepts(hint: Value, value: Value) {
    if !hint.Str? then true
    else
      var h := Lower(hint.s);
      if h == "string" || h == "str" then value.Str?
      else if h == "number" then value.Int? || value.Real?
      else if h == "int" || h == "integer" then value.Int?
      else if h == "float" then value.Real?
      else if h == "bool" || h == "boolean" then value.Bool?
      else if h == "object" || h == "dict" then value.Dict?
      else if h == "list" || h == "array" then value.List?
      else true
  }

  predicate KanbanFieldOk(payload: Value, name: string, hint: Value)
    requires payload.Dict?
  {
    name in payload.fields && KanbanAccepts(hint, payload.fields[name])
  }

  /** What an empty diagnostics list means. */
  ghost predicate KanbanValid(payload: Value, schema: Value) {
    schema.Dict? && schema.fields != map[] ==>
      payload.Dict? && forall k | k in schema.fields :: KanbanFieldOk(payload, k, schema.fields[k])
  }

  /** `validate_workflow_result`: one diagnostic per failing declared field, in order. */
  method ValidateWorkflowResult(payload: Value, schema: Value, order: seq<string>) returns (diagnostics: seq<Complaint>)
    requires schema.Dict? ==> Enumerates(order, schema.fields)
    ensures diagnostics == [] <==> KanbanValid(payload, schema)
    ensures forall d | d in diagnostics && d.MissingField? :: payload.Dict? && d.name !in payload.fields
    ensures forall d | d in diagnostics && d.WrongType? ::
              payload.Dict? && schema.Dict? && d.name in payload.fields && d.name in schema.fields &&
              !KanbanAccepts(schema.fields[d.name], payload.fields[d.name])
  {
    diagnostics := [];
    if !schema.Dict? || schema.fields == map[] {
      return;
    }
    if !payload.Dict? {
      return [NotAnObject];
    }
    var i := 0;
    while i < |order|
      invariant 0 <= i <= |order|
      invariant diagnostics == [] <==> forall j | 0 <= j < i :: KanbanFieldOk(payload, order[j], schema.fields[order[j]])
      invariant forall d | d in diagnostics && d.MissingField? :: d.name !in payload.fields
      invariant forall d | d in diagnostics && d.WrongType? ::
                  d.name in payload.fields && d.name in schema.fields &&
                  !KanbanAccepts(schema.fields[d.name], payload.fields[d.name])
    {
      var name := order[i];
      if name !in payload.fields {
        diagnostics := diagnostics + [MissingField(name)];
      } else if !KanbanAccepts(schema.fields[name], payload.fields[name]) {
        diagnostics := diagnostics + [WrongType(name)];
      }
      i := i + 1;
    }
  }

  /** The one hint the newer checker deliberately widened: a `float` field holding an int. */
  predicate WidenedFloat(payload: Value, name: string, hint: Value) {
    hint.Str? && Lower(hint.s) == "float" && payload.Dict? && name in payload.fields && payload.fields[name].Int?
  }

  lemma LegacyFieldAgrees(value: Value, hint: Value)
    requires IsNode(LegacyPropertySchema(hint))
    ensures CheckValue(value, LegacyPropertySchema(hint))
       <==> (KanbanAccepts(hint, value) || (hint.Str? && Lower(hint.s) == "float" && value.Int?))
  {
    var node := LegacyPropertySchema(hint);
    if "type" in node.fields {
      TypeAgrees(value, node.fields["type"].s);
    }
  }

  lemma LegacyNodeMeans(payload: Value, fields: map<string, Value>, order: seq<string>)
    requires Enumerates(order, fields) && payload.Dict?
    requires IsNode(LegacyNode(fields, order))
    requires forall k | k in fields :: IsNode(LegacyPropertySchema(fields[k]))
    ensures CheckObject(payload, LegacyNode(fields, order))
       <==> forall k | k in fields :: k in payload.fields && CheckValue(payload.fields[k], LegacyPropertySchema(fields[k]))
  {
    var node := LegacyNode(fields, order);
    var required := node.fields["required"].items;
    assert forall i | 0 <= i < |order| :: required[i].s == order[i];
    if CheckObject(payload, node) {
      forall k | k in fields ensures k in payload.fields {
        var i :| 0 <= i < |order| && order[i] == k;
        assert required[i].s in payload.fields;
      }
    }
  }

  /** On every schema the newer engine reads as flat, the two accept the same
      payloads, except that the newer one also lets an int stand for a `float`. */
  lemma FlatSchemasAgree(payload: Value, schema: Value, order: seq<string>)
    requires schema.Dict? && schema.fields != map[] && !IsDeclaredSubset(schema.fields)
    requires Enumerates(order, schema.fields)
    ensures Validate(payload, schema, order)
       <==> payload.Dict? && forall k | k in schema.fields ::
              KanbanFieldOk(payload, k, schema.fields[k]) || WidenedFloat(payload, k, schema.fields[k])
  {
    LegacyNodeIsNormal(schema.fields, order);
    forall k | k in schema.fields
      ensures IsNode(LegacyPropertySchema(schema.fields[k]))
    {
      LegacyPropertyIsNormal(schema.fields[k]);
    }
    if payload.Dict? {
      LegacyNodeMeans(payload, schema.fields, order);
      forall k | k in schema.fields && k in payload.fields
        ensures CheckValue(payload.fields[k], LegacyPropertySchema(schema.fields[k]))
           <==> KanbanFieldOk(payload, k, schema.fields[k]) || WidenedFloat(payload, k, schema.fields[k])
      {
        LegacyFieldAgrees(payload.fields[k], schema.fields[k]);
      }
    }
  }

  /** Without a `float` hint the verdicts are the same. */
  lemma FlatSchemasAgreeWithoutFloat(payload: Value, schema: Value, order: seq<string>)
    requires schema.Dict? && schema.fields != map[] && !IsDeclaredSubset(schema.fields)
    requires Enumerates(order, schema.fields)
    requires forall k | k in schema.fields :: schema.fields[k].Str? ==> Lower(schema.fields[k].s) != "float"
    ensures Validate(payload, schema, order) <==> KanbanValid(payload, schema)
  {
    FlatSchemasAgree(payload, schema, order);
  }

  /** `validate`, whatever order the schema's own dict has. */
  predicate Accepts(payload: Value, schema: Value) {
    if schema.Dict? && schema.fields != map[] && !IsDeclaredSubset(schema.fields) then
      payload.Dict? && forall k | k in schema.fields ::
        k in payload.fields && CheckField(payload.fields[k], schema.fields[k])
    else Validate(payload, schema, [])
  }

  predicate CheckField(value: Value, hint: Value) {
    LegacyPropertyIsNormal(hint);
    CheckValue(value, LegacyPropertySchema(hint))
  }

  lemma OrderIsIrrelevant(payload: Value, schema: Value, order: seq<string>)
    requires schema.Dict? ==> Enumerates(order, schema.fields)
    ensures Accepts(payload, schema) <==> Validate(payload, schema, order)
  {
    if schema.Dict? && schema.fields != map[] && !IsDeclaredSubset(schema.fields) {
      LegacyNodeIsNormal(schema.fields, order);
      forall k | k in schema.fields ensures IsNode(LegacyPropertySchema(schema.fields[k])) {
        LegacyPropertyIsNormal(schema.fields[k]);
      }
      if payload.Dict? {
        LegacyNodeMeans(payload, schema.fields, order);
      }
    }
  }

  /** A flat schema: no hint has parts of its own. */
  predicate Flat(fields: map<string, Value>) {
    forall k | k in fields :: !fields[k].List? && !fields[k].Dict?
  }

  predicate NoFloat(fields: map<string, Value>) {
    forall k | k in fields && fields[k].Str? :: Lower(fields[k].s) != "float"
  }

  /** A value the older checker accepts for a hint. */
  function Sample(hint: Value): (v: Value)
    ensures KanbanAccepts(hint, v)
  {
    if !hint.Str? then Null
    else
      var h := Lower(hint.s);
      if h == "string" || h == "str" then Str("")
      else if h == "number" || h == "float" then Real(0.0)
      else if h == "int" || h == "integer" then Int(0)
      else if h == "bool" || h == "boolean" then Bool(true)
      else if h == "object" || h == "dict" then Dict(map[])
      else if h == "list" || h == "array" then List([])
      else Null
  }

  function Samples(fields: map<string, Value>): (payload: Value)
    ensures payload.Dict? && forall k | k in fields :: KanbanFieldOk(payload, k, fields[k])
  {
    Dict(map k | k in fields :: Sample(fields[k]))
  }

  /** What the newer engine makes of a flat schema that reads as a subset root:
      its fields are not looked for; `type` is a type and `additionalProperties`
      a flag, and any other keyword makes it malformed. */
  lemma FlatRootMeans(payload: Value, schema: Value, order: seq<string>)
    requires schema.Dict? && schema.fields != map[] && IsDeclaredSubset(schema.fields) && Flat(schema.fields)
    ensures var f := schema.fields;
            Validate(payload, schema, order) <==>
              && f.Keys <= {"type", "additionalProperties"}
              && ("type" in f ==> f["type"].Str? && f["type"].s in TYPE_NAMES && TypeAccepts(f["type"].s, payload))
              && ("additionalProperties" in f ==> f["additionalProperties"].Bool?)
              && (Get(schema, "type") == Str("object") && Get(schema, "additionalProperties") == Bool(false) ==>
                    payload.fields == map[])
  {
    if NormalizeNode(schema).Some? {
      NormalizeNodeIsIdentity(schema);
      FlatNodeKeys(schema);
      FlatNodeMeans(payload, schema);
    } else if schema.fields.Keys <= {"type", "additionalProperties"} {
      FlatKeysAreAllowed(schema.fields);
    }
  }

  lemma FlatNodeMeans(payload: Value, node: Value)
    requires IsNode(node) && node.fields.Keys <= {"type", "additionalProperties"}
    ensures CheckValue(payload, node) <==>
              && ("type" in node.fields ==> TypeAccepts(node.fields["type"].s, payload))
              && (Get(node, "type") == Str("object") && Get(node, "additionalProperties") == Bool(false) ==> payload.fields == map[])
  {
    var f := node.fields;
    FlatKeysAreAllowed(f);
    if "type" in f {
      TypeAgrees(payload, f["type"].s);
    }
    if payload.Dict? {
      AdditionalAgrees(payload, node);
      if payload.fields == map[] {
        assert payload.fields.Keys == {};
      } else {
        assert exists k :: k in payload.fields;
        assert forall k :: !Declares(node, k);
      }
    }
  }

  lemma FlatNodeKeys(node: Value)
    requires IsNode(node) && Flat(node.fields)
    ensures node.fields.Keys <= {"type", "additionalProperties"}
  {
    var f := node.fields;
    assert "items" in f ==> NormalizeNode(f["items"]).None?;
    assert "required" !in f && "properties" !in f && "items" !in f && "enum" !in f;
    forall k | k in f ensures k == "type" || k == "additionalProperties" {
      assert k in ALLOWED_KEYWORDS;
    }
  }

  lemma FlatKeysAreAllowed(f: map<string, Value>)
    requires f.Keys <= {"type", "additionalProperties"}
    ensures f.Keys <= ALLOWED_KEYWORDS
    ensures "required" !in f && "properties" !in f && "items" !in f && "enum" !in f
  {
    assert "required" !in f.Keys && "properties" !in f.Keys && "items" !in f.Keys && "enum" !in f.Keys;
  }

  /** A flat subset root and the older checker part on some payload: if not on one
      built to the hints, then on the empty one. */
  lemma FlatRootsDiffer(schema: Value, order: seq<string>) returns (payload: Value)
    requires schema.Dict? && schema.fields != map[] && IsDeclaredSubset(schema.fields) && Flat(schema.fields)
    ensures Validate(payload, schema, order) != KanbanValid(payload, schema)
  {
    payload := Samples(schema.fields);
    if Validate(payload, schema, order) {
      FlatRootMeans(payload, schema, order);
      var k :| k in schema.fields;
      payload := Dict(map[]);
      FlatRootMeans(payload, schema, order);
      assert !KanbanFieldOk(payload, k, schema.fields[k]);
    }
  }

  lemma FloatHintsDiffer(schema: Value, order: seq<string>, name: string) returns (payload: Value)
    requires schema.Dict? && !IsDeclaredSubset(schema.fields) && Enumerates(order, schema.fields)
    requires name in schema.fields && schema.fields[name].Str? && Lower(schema.fields[name].s) == "float"
    ensures Validate(payload, schema, order) && !KanbanValid(payload, schema)
  {
    var samples := Samples(schema.fields);
    payload := Dict(samples.fields[name := Int(0)]);
    forall k | k in schema.fields
      ensures KanbanFieldOk(payload, k, schema.fields[k]) || WidenedFloat(payload, k, schema.fields[k])
    {
      if k != name {
        assert KanbanFieldOk(samples, k, schema.fields[k]);
      }
    }
    FlatSchemasAgree(payload, schema, order);
    assert !KanbanFieldOk(payload, name, schema.fields[name]);
  }

  /** The two engines mean the same by a flat schema exactly when the newer one
      does not read it as a subset root and it has no `float` hint. */
  lemma FlatSchemasAgreeExactlyWhen(schema: Value, order: seq<string>)
    requires schema.Dict? && schema.fields != map[] && Enumerates(order, schema.fields)
    requires !IsDeclaredSubset(schema.fields) || Flat(schema.fields)
    ensures (forall payload :: Validate(payload, schema, order) <==> KanbanValid(payload, schema))
       <==> !IsDeclaredSubset(schema.fields) && NoFloat(schema.fields)
  {
    if IsDeclaredSubset(schema.fields) {
      var payload := FlatRootsDiffer(schema, order);
    } else if NoFloat(schema.fields) {
      forall payload ensures Validate(payload, schema, order) <==> KanbanValid(payload, schema) {
        FlatSchemasAgreeWithoutFloat(payload, schema, order);
      }
    } else {
      var name :| name in schema.fields && schema.fields[name].Str? && Lower(schema.fields[name].s) == "float";
      var payload := FloatHintsDiffer(schema, order, name);
    }
  }

  /** One of each: a `float` field holding an int. */
  lemma FloatFieldsDiffer()
    ensures var schema := Dict(map["ratio" := Str("float")]);
            var payload := Dict(map["ratio" := Int(1)]);
            Validate(payload, schema, ["ratio"]) && !KanbanValid(payload, schema)
  {
    var schema := Dict(map["ratio" := Str("float")]);
    var payload := Dict(map["ratio" := Int(1)]);
    assert Lower("float") == "float";
    assert "ratio" in schema.fields && schema.fields.Keys == {"ratio"};
    assert !KanbanFieldOk(payload, "ratio", schema.fields["ratio"]);
    assert Enumerates(["ratio"], schema.fields);
    FlatSchemasAgree(payload, schema, ["ratio"]);
  }

  /** And a flat schema that reads as a subset root, for its field named `type`. */
  lemma TypeFieldsDiffer()
    ensures var schema := Dict(map["type" := Str("string")]);
            var payload := Dict(map["type" := Str("bug")]);
            !Validate(payload, schema, ["type"]) && KanbanValid(payload, schema)
  {
    var schema := Dict(map["type" := Str("string")]);
    assert schema.fields.Keys == {"type"};
    assert IsNode(schema);
    NormalizeNodeIsIdentity(schema);
    assert Lower("string") == "string";
    assert forall k | k in schema.fields :: k == "type";
  }

  // ------------------------------------------------------------------------
  // How hints are spelled.
  // ------------------------------------------------------------------------

  /** The same letter, in whichever case. */
  predicate SameLetter(a: char, b: char) {
    || a == b
    || ('A' <= a <= 'Z' && 'a' <= b <= 'z' && b as int - a as int == 'a' as int - 'A' as int)
    || ('a' <= a <= 'z' && 'A' <= b <= 'Z' && a as int - b as int == 'a' as int - 'A' as int)
  }

  ghost predicate SameWord(s: string, t: string) {
    |s| == |t| && forall i | 0 <= i < |s| :: SameLetter(s[i], t[i])
  }

  lemma LowerIsTheWord(s: string, t: string)
    ensures SameWord(s, t) <==> Lower(s) == Lower(t)
  {
    if Lower(s) == Lower(t) {
      assert |Lower(s)| == |s| && |Lower(t)| == |t|;
      forall i | 0 <= i < |s| ensures SameLetter(s[i], t[i]) {
        assert Lower(s)[i] == Lower(t)[i];
      }
    }
  }

  /** Hints that differ in case alone ask for the same, of either checker. */
  lemma HintsAreReadInAnyCase(s: string, t: string, value: Value)
    requires SameWord(s, t)
    ensures LegacyPropertySchema(Str(s)) == LegacyPropertySchema(Str(t))
    ensures KanbanAccepts(Str(s), value) <==> KanbanAccepts(Str(t), value)
  {
    LowerIsTheWord(s, t);
  }

  lemma LowerOfLower(s: string)
    requires forall i | 0 <= i < |s| :: !('A' <= s[i] <= 'Z')
    ensures Lower(s) == s
  {
  }

  /** And, of the older one, a word asks for what it names. */
  lemma KnownHints(word: string, value: Value)
    requires word in ["str", "int", "bool", "dict", "list"]
    ensures KanbanAccepts(Str(word), value) <==>
            match word
            case "str" => value.Str?
            case "int" => value.Int?
            case "bool" => value.Bool?
            case "dict" => value.Dict?
            case _ => value.List?
  {
    LowerOfLower(word);
  }
}
