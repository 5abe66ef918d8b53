/** What a step's values denote and what running it then means (runtime.py:238-270,
    312-612), stated apart from the interpreter: a value denotes another by a
    relation over the inputs and the outputs so far, and every step kind is told
    from what its values denote. */
module Meaning {
  import opened Json
  import opened Definition
  import opened Runtime
  import Controls
  import Equality
  import References
  import SchemaSubset

  // ------------------------------------------------------------------------
  // Denotation.
  // ------------------------------------------------------------------------

  /** One step along a path: a dict's entry, and nothing anywhere else. */
  predicate Enters(v: Value, part: string, w: Value) {
    if v.Dict? && part in v.fields then w == v.fields[part] else w == Null
  }

  ghost predicate Route(from: Value, path: seq<string>, to: Value, via: seq<Value>) {
    && |via| == |path| + 1 && via[0] == from && via[|path|] == to
    && forall i | 0 <= i < |path| :: Enters(via[i], path[i], via[i + 1])
  }

  /** The path leads from one value to the other, through one value per part. */
  ghost predicate Leads(from: Value, path: seq<string>, to: Value) {
    exists via :: Route(from, path, to, via)
  }

  /** An input that was not given is nothing. */
  predicate InputIs(inputs: map<string, Value>, key: string, d: Value) {
    if key in inputs then d == inputs[key] else d == Null
  }

  /** What a string denotes: itself, a given input, or a part of a step's output. */
  ghost predicate TextDenotes(s: string, inputs: map<string, Value>, outputs: map<string, Value>, d: Value) {
    || (!("$ref:" <= s) && d == Str(s))
    || (exists key :: References.SpellsInput(s, key) && InputIs(inputs, key, d))
    || (exists id, path :: References.RefersToOutput(s, id, path) && id in outputs && outputs[id] != Null && Leads(outputs[id], path, d))
  }

  /** A list or a dict denotes componentwise, and every other value itself. What is
      not spelled right, or not available, denotes nothing. */
  ghost predicate Denotes(v: Value, inputs: map<string, Value>, outputs: map<string, Value>, d: Value)
    decreases v
  {
    match v
    case Str(s) => TextDenotes(s, inputs, outputs, d)
    case List(items) =>
      && d.List? && |d.items| == |items|
      && forall i | 0 <= i < |items| :: Denotes(items[i], inputs, outputs, d.items[i])
    case Dict(fields) =>
      && d.Dict? && d.fields.Keys == fields.Keys
      && forall k | k in fields :: Denotes(fields[k], inputs, outputs, d.fields[k])
    case _ => d == v
  }

  lemma {:induction false} PathsAreFollowed(from: Value, path: seq<string>, to: Value)
    ensures Leads(from, path, to) <==> Follow(from, path) == to
    decreases path
  {
    if path == [] {
      assert Route(from, path, from, [from]);
    } else {
      var next := if from.Dict? && path[0] in from.fields then from.fields[path[0]] else Null;
      PathsAreFollowed(next, path[1..], to);
      NothingLeadsNowhere(path[1..]);
      FirstStep(from, path, to, next);
    }
  }

  lemma {:induction false} NothingLeadsNowhere(path: seq<string>)
    ensures Follow(Null, path) == Null
  {
  }

  /** The first step of a path decides the rest. */
  lemma FirstStep(from: Value, path: seq<string>, to: Value, next: Value)
    requires path != [] && Enters(from, path[0], next)
    ensures Leads(from, path, to) <==> Leads(next, path[1..], to)
  {
    if Leads(from, path, to) {
      var via :| Route(from, path, to, via);
      DroppedRoute(from, path, to, via);
      assert via[1] == next;
    }
    if Leads(next, path[1..], to) {
      var rest :| Route(next, path[1..], to, rest);
      LongerRoute(from, path, to, rest);
    }
  }

  lemma DroppedRoute(from: Value, path: seq<string>, to: Value, via: seq<Value>)
    requires path != [] && Route(from, path, to, via)
    ensures Enters(from, path[0], via[1]) && Route(via[1], path[1..], to, via[1..])
  {
    forall i | 0 <= i < |path[1..]| ensures Enters(via[1..][i], path[1..][i], via[1..][i + 1]) {
      assert Enters(via[i + 1], path[i + 1], via[i + 2]);
    }
  }

  lemma LongerRoute(from: Value, path: seq<string>, to: Value, rest: seq<Value>)
    requires path != [] && rest != [] && Enters(from, path[0], rest[0]) && Route(rest[0], path[1..], to, rest)
    ensures Route(from, path, to, [from] + rest)
  {
    var via := [from] + rest;
    forall i | 0 <= i < |path| ensures Enters(via[i], path[i], via[i + 1]) {
      if i > 0 {
        assert Enters(rest[i - 1], path[1..][i - 1], rest[i]);
      }
    }
  }

  lemma OutputIsResolved(s: string, id: string, path: seq<string>, inputs: map<string, Value>, outputs: map<string, Value>, d: Value)
    requires ParseRef(s) == OutputRef(id, path)
    ensures Resolve(Str(s), inputs, outputs) == Some(d) <==> id in outputs && outputs[id] != Null && Leads(outputs[id], path, d)
  {
    if id in outputs {
      PathsAreFollowed(outputs[id], path, d);
    }
  }

  lemma TextIsResolved(s: string, inputs: map<string, Value>, outputs: map<string, Value>, d: Value)
    ensures TextDenotes(s, inputs, outputs, d) <==> Resolve(Str(s), inputs, outputs) == Some(d)
  {
    hide References.SpellsInput;
    hide References.SpellsOutput;
    hide References.RefersToOutput;
    hide Leads;
    References.ReferencesAreRead(s);
    match ParseRef(s) {
      case NotARef =>
      case Malformed =>
      case InputRef(key) => assert References.SpellsInput(s, key);
      case OutputRef(id, path) =>
        assert References.RefersToOutput(s, id, path);
        OutputIsResolved(s, id, path, inputs, outputs, d);
    }
  }

  /** A value resolves exactly to what it denotes, and fails to exactly when it
      denotes nothing. */
  lemma {:induction false} ResolvingIsDenoting(v: Value, inputs: map<string, Value>, outputs: map<string, Value>, d: Value)
    ensures Denotes(v, inputs, outputs, d) <==> Resolve(v, inputs, outputs) == Some(d)
    decreases v
  {
    match v {
      case Str(s) => TextIsResolved(s, inputs, outputs, d);
      case List(items) =>
        if d.List? && |d.items| == |items| {
          forall i | 0 <= i < |items|
            ensures Denotes(items[i], inputs, outputs, d.items[i]) <==> Resolve(items[i], inputs, outputs) == Some(d.items[i])
          {
            ResolvingIsDenoting(items[i], inputs, outputs, d.items[i]);
          }
        }
        ListResolves(items, inputs, outputs, d);
      case Dict(fields) =>
        if d.Dict? {
          forall k | k in fields && k in d.fields
            ensures Denotes(fields[k], inputs, outputs, d.fields[k]) <==> Resolve(fields[k], inputs, outputs) == Some(d.fields[k])
          {
            ResolvingIsDenoting(fields[k], inputs, outputs, d.fields[k]);
          }
        }
        DictResolves(fields, inputs, outputs, d);
      case _ =>
    }
  }

  lemma ListResolves(items: seq<Value>, inputs: map<string, Value>, outputs: map<string, Value>, d: Value)
    ensures Resolve(List(items), inputs, outputs) == Some(d) <==>
            && d.List? && |d.items| == |items|
            && forall i | 0 <= i < |items| :: Resolve(items[i], inputs, outputs) == Some(d.items[i])
  {
    var r := Resolve(List(items), inputs, outputs);
    if d.List? && |d.items| == |items| && forall i | 0 <= i < |items| :: Resolve(items[i], inputs, outputs) == Some(d.items[i]) {
      assert r.value.items == d.items;
    }
  }

  lemma DictResolves(fields: map<string, Value>, inputs: map<string, Value>, outputs: map<string, Value>, d: Value)
    ensures Resolve(Dict(fields), inputs, outputs) == Some(d) <==>
            && d.Dict? && d.fields.Keys == fields.Keys
            && forall k | k in fields && k in d.fields :: Resolve(fields[k], inputs, outputs) == Some(d.fields[k])
  {
    var r := Resolve(Dict(fields), inputs, outputs);
    if d.Dict? && d.fields.Keys == fields.Keys
       && forall k | k in fields && k in d.fields :: Resolve(fields[k], inputs, outputs) == Some(d.fields[k]) {
      assert r.value.fields == d.fields;
    }
  }

  // ------------------------------------------------------------------------
  // Conditions.
  // ------------------------------------------------------------------------

  /** What a condition says of the value that its reference denotes. */
  ghost predicate ConditionSays(condition: Value, inputs: map<string, Value>, outputs: map<string, Value>, yes: bool) {
    && condition.Dict?
    && var op, ref, value := Get(condition, "op"), Get(condition, "ref"), Get(condition, "value");
       || (op == Str("exists") && (yes <==> exists d :: Denotes(ref, inputs, outputs, d) && d != Null))
       || (op == Str("truthy") && exists d :: Denotes(ref, inputs, outputs, d)
                                              && (yes <==> d !in {Null, Bool(false), Int(0), Real(0.0), Str(""), List([]), Dict(map[])}))
       || (op == Str("eq") && exists d :: Denotes(ref, inputs, outputs, d) && (yes <==> Equality.Plain(d) == Equality.Plain(value)))
       || (op == Str("ne") && exists d :: Denotes(ref, inputs, outputs, d) && (yes <==> Equality.Plain(d) != Equality.Plain(value)))
  }

  /** The reference denotes nothing, and the condition does not ask just that. */
  ghost predicate Dangles(condition: Value, inputs: map<string, Value>, outputs: map<string, Value>) {
    && condition.Dict? && Get(condition, "op") != Str("exists")
    && forall d :: !Denotes(Get(condition, "ref"), inputs, outputs, d)
  }

  /** What evaluating a condition gives: its answer, or why there is none. */
  ghost predicate Answers(condition: Value, inputs: map<string, Value>, outputs: map<string, Value>, r: Result<bool>) {
    match r
    case Ok(yes) => ConditionSays(condition, inputs, outputs, yes)
    case Err(why) =>
      && (why == Crash <==> !condition.Dict?)
      && (why == BadReference <==> Dangles(condition, inputs, outputs))
      && (why != Crash && why != BadReference ==>
            why == UnknownOp && Get(condition, "op") !in {Str("exists"), Str("truthy"), Str("eq"), Str("ne")})
  }

  lemma ConditionsAnswer(condition: Value, env: Env, st: State)
    ensures Answers(condition, env.inputs, st.outputs, EvalCondition(condition, env, st))
  {
    if condition.Dict? {
      var ref := Get(condition, "ref");
      forall d ensures Denotes(ref, env.inputs, st.outputs, d) <==> Resolve(ref, env.inputs, st.outputs) == Some(d) {
        ResolvingIsDenoting(ref, env.inputs, st.outputs, d);
      }
      var value := Resolve(ref, env.inputs, st.outputs);
      if value.Some? {
        assert Denotes(ref, env.inputs, st.outputs, value.value);
        Equality.FalsyValues(value.value);
        Equality.EqualIsTheSamePlainly(value.value, Get(condition, "value"));
      }
    }
  }

  /** A condition has one answer. */
  lemma OneAnswer(condition: Value, inputs: map<string, Value>, outputs: map<string, Value>, yes: bool, no: bool)
    requires ConditionSays(condition, inputs, outputs, yes) && ConditionSays(condition, inputs, outputs, no)
    ensures yes == no
  {
    forall d ensures Denotes(Get(condition, "ref"), inputs, outputs, d) <==> Resolve(Get(condition, "ref"), inputs, outputs) == Some(d) {
      ResolvingIsDenoting(Get(condition, "ref"), inputs, outputs, d);
    }
  }
}
