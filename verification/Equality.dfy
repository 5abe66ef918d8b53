/** Python's `==` and truth on JSON values: the laws that conditions
    (runtime.py:552-576) and `enum` (schema_subset.py:357-358) rely on. */
module Equality {
  import opened Json

  /** The value with every bool and int replaced by the number it stands for. */
  function Plain(v: Value): Value
    decreases v
  {
    match v
    case Bool(b) => Real(if b then 1.0 else 0.0)
    case Int(n) => Real(n as real)
    case List(items) => List(seq(|items|, i requires 0 <= i < |items| => Plain(items[i])))
    case Dict(fields) => Dict(map k | k in fields :: Plain(fields[k]))
    case _ => v
  }

  /** Two values are equal exactly when they are the same up to how numbers are
      written: `True == 1 == 1.0`, and no number equals a string, a list, a dict
      or `None`. */
  lemma {:induction false} EqualIsTheSamePlainly(a: Value, b: Value)
    ensures PyEq(a, b) <==> Plain(a) == Plain(b)
    decreases a
  {
    match (a, b) {
      case (List(xs), List(ys)) =>
        forall i | 0 <= i < |xs| && |xs| == |ys| ensures PyEq(xs[i], ys[i]) <==> Plain(xs[i]) == Plain(ys[i]) {
          EqualIsTheSamePlainly(xs[i], ys[i]);
        }
        PlainLists(xs, ys);
      case (Dict(f), Dict(g)) =>
        forall k | k in f && k in g ensures PyEq(f[k], g[k]) <==> Plain(f[k]) == Plain(g[k]) {
          EqualIsTheSamePlainly(f[k], g[k]);
        }
        PlainDicts(f, g);
      case _ =>
    }
  }

  lemma PlainLists(xs: seq<Value>, ys: seq<Value>)
    ensures Plain(List(xs)) == Plain(List(ys)) <==>
            |xs| == |ys| && forall i | 0 <= i < |xs| :: Plain(xs[i]) == Plain(ys[i])
  {
    var ps, qs := Plain(List(xs)).items, Plain(List(ys)).items;
    assert |ps| == |xs| && |qs| == |ys|;
    assert forall i | 0 <= i < |xs| :: ps[i] == Plain(xs[i]);
    assert forall i | 0 <= i < |ys| :: qs[i] == Plain(ys[i]);
    if ps == qs {
      forall i | 0 <= i < |xs| ensures Plain(xs[i]) == Plain(ys[i]) {
        assert ps[i] == qs[i];
      }
    }
  }

  lemma PlainDicts(f: map<string, Value>, g: map<string, Value>)
    ensures Plain(Dict(f)) == Plain(Dict(g)) <==>
            f.Keys == g.Keys && forall k | k in f && k in g :: Plain(f[k]) == Plain(g[k])
  {
    var p, q := Plain(Dict(f)).fields, Plain(Dict(g)).fields;
    assert p.Keys == f.Keys && q.Keys == g.Keys;
    assert forall k | k in f :: p[k] == Plain(f[k]);
    assert forall k | k in g :: q[k] == Plain(g[k]);
    if p == q {
      forall k | k in f && k in g ensures Plain(f[k]) == Plain(g[k]) {
        assert p[k] == q[k];
      }
    }
  }

  /** It is an equivalence, and equal values are equally true. */
  lemma EqualityLaws(a: Value, b: Value, c: Value)
    ensures PyEq(a, a)
    ensures PyEq(a, b) <==> PyEq(b, a)
    ensures PyEq(a, b) && PyEq(b, c) ==> PyEq(a, c)
    ensures PyEq(a, b) ==> (Truthy(a) <==> Truthy(b))
  {
    EqualIsTheSamePlainly(a, a);
    EqualIsTheSamePlainly(a, b);
    EqualIsTheSamePlainly(b, a);
    EqualIsTheSamePlainly(b, c);
    EqualIsTheSamePlainly(a, c);
  }

  /** The falsy values are these seven. */
  lemma FalsyValues(v: Value)
    ensures Truthy(v) <==> v !in {Null, Bool(false), Int(0), Real(0.0), Str(""), List([]), Dict(map[])}
  {
  }

  /** Membership, as `enum` asks for it. */
  lemma MembershipIsTheSamePlainly(v: Value, items: seq<Value>)
    ensures PyIn(v, items) <==> exists i :: 0 <= i < |items| && Plain(v) == Plain(items[i])
  {
    forall i | 0 <= i < |items| ensures PyEq(v, items[i]) <==> Plain(v) == Plain(items[i]) {
      EqualIsTheSamePlainly(v, items[i]);
    }
  }
}
