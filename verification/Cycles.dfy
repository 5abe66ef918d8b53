/** The cycle lint (sandbox.py): a three-colour depth-first search over the
    `depends_on` edges of leaf steps, proved to find a cycle exactly when there
    is one, and to name only nodes that lie on one. */
module Cycles {
  import opened Json
  import opened Definition

  type Graph = map<string, seq<string>>

  function Successors(g: Graph, u: string): seq<string> {
    if u in g then g[u] else []
  }

  ghost predicate IsPath(g: Graph, p: seq<string>) {
    forall i | 0 <= i < |p| - 1 :: p[i + 1] in Successors(g, p[i])
  }

  ghost predicate IsCycleAt(g: Graph, p: seq<string>, u: string) {
    |p| >= 2 && p[0] == u && p[|p| - 1] == u && IsPath(g, p)
  }

  ghost predicate OnCycle(g: Graph, u: string) {
    exists p: seq<string> :: IsCycleAt(g, p, u)
  }

  ghost predicate HasCycle(g: Graph) {
    exists u: string :: OnCycle(g, u)
  }

  // ------------------------------------------------------------------------
  // Orders that rule cycles out.
  // ------------------------------------------------------------------------

  /** Position of the first occurrence, or the length. */
  function First(ids: seq<string>, id: string): (p: nat)
    ensures p <= |ids|
    ensures p < |ids| ==> ids[p] == id
    ensures forall i | 0 <= i < p :: ids[i] != id
    ensures id in ids ==> p < |ids|
  {
    if ids == [] || ids[0] == id then 0 else 1 + First(ids[1..], id)
  }

  ghost predicate Keeps(before: seq<string>, after: seq<string>) {
    forall u | u in before :: u in after
  }

  /** Every edge out of a listed node leads to a node listed before it. */
  ghost predicate Descending(g: Graph, order: seq<string>) {
    forall i, v | 0 <= i < |order| && v in Successors(g, order[i]) :: v in order[..i]
  }

  lemma {:induction false} PathsDescend(g: Graph, order: seq<string>, p: seq<string>)
    requires Descending(g, order) && IsPath(g, p) && p != [] && p[0] in order
    ensures p[|p| - 1] in order && First(order, p[|p| - 1]) <= First(order, p[0]) - (|p| - 1)
  {
    if |p| > 1 {
      var i := First(order, p[0]);
      assert p[1] in Successors(g, order[i]);
      assert p[1] in order[..i];
      forall k | 0 <= k < |p[1..]| - 1 ensures p[1..][k + 1] in Successors(g, p[1..][k]) {
        assert p[k + 2] in Successors(g, p[k + 1]);
      }
      PathsDescend(g, order, p[1..]);
    }
  }

  /** If every node with an edge is listed in a descending order, there is no cycle. */
  lemma DescendingIsAcyclic(g: Graph, order: seq<string>)
    requires Descending(g, order) && forall u | u in g :: u in order
    ensures !HasCycle(g)
  {
    forall u: string, p: seq<string> ensures !IsCycleAt(g, p, u) {
      if IsCycleAt(g, p, u) {
        assert p[1] in Successors(g, p[0]);
        PathsDescend(g, order, p);
      }
    }
  }

  // ------------------------------------------------------------------------
  // The search.
  // ------------------------------------------------------------------------

  /** Closing a path back onto one of its nodes puts both ends on a cycle. */
  lemma BackEdge(g: Graph, stack: seq<string>, next: string)
    requires IsPath(g, stack) && stack != [] && next in stack
    requires next in Successors(g, stack[|stack| - 1])
    ensures OnCycle(g, next) && OnCycle(g, stack[|stack| - 1])
  {
    var i :| 0 <= i < |stack| && stack[i] == next;
    var loop := stack[i..];
    PathSuffix(g, stack, i);
    LoopClosed(g, loop, next);
    LoopOpened(g, loop, stack[|stack| - 1]);
  }

  lemma PathSuffix(g: Graph, p: seq<string>, i: nat)
    requires IsPath(g, p) && i <= |p|
    ensures IsPath(g, p[i..])
  {
    forall k | 0 <= k < |p[i..]| - 1 ensures p[i..][k + 1] in Successors(g, p[i..][k]) {
      assert p[i + k + 1] in Successors(g, p[i + k]);
    }
  }

  lemma LoopClosed(g: Graph, loop: seq<string>, next: string)
    requires loop != [] && loop[0] == next && IsPath(g, loop) && next in Successors(g, loop[|loop| - 1])
    ensures OnCycle(g, next)
  {
    PathGrows(g, loop, next);
    assert IsCycleAt(g, loop + [next], next);
  }

  lemma LoopOpened(g: Graph, loop: seq<string>, top: string)
    requires loop != [] && loop[|loop| - 1] == top && IsPath(g, loop) && loop[0] in Successors(g, top)
    ensures OnCycle(g, top)
  {
    var p := [top] + loop;
    forall k | 0 <= k < |p| - 1 ensures p[k + 1] in Successors(g, p[k]) {
      if k > 0 {
        assert loop[k] in Successors(g, loop[k - 1]);
      }
    }
    assert IsCycleAt(g, p, top);
  }

  /** Grey nodes are those on the stack, black ones those already ordered. */
  ghost predicate Coloured(state: map<string, int>, stack: seq<string>, order: seq<string>) {
    && (forall u | u in state :: (state[u] == 1 && u in stack) || (state[u] == 2 && u in order))
    && (forall u | u in stack :: u in state && state[u] == 1)
    && (forall u | u in order :: u in state && state[u] == 2)
  }

  ghost predicate AllOnCycles(g: Graph, nodes: set<string>) {
    forall u | u in nodes :: OnCycle(g, u)
  }

  ghost predicate Within(g: Graph, universe: set<string>) {
    forall u | u in g :: u in universe && forall v | v in g[u] :: v in universe
  }

  lemma PathGrows(g: Graph, stack: seq<string>, node: string)
    requires IsPath(g, stack) && (stack != [] ==> node in Successors(g, stack[|stack| - 1]))
    ensures IsPath(g, stack + [node])
  {
  }

  lemma PathShrinks(g: Graph, stack: seq<string>, node: string)
    requires IsPath(g, stack + [node])
    ensures IsPath(g, stack)
  {
    assert forall i | 0 <= i < |stack| :: (stack + [node])[i] == stack[i];
  }

  lemma TurnsGrey(state: map<string, int>, stack: seq<string>, order: seq<string>, node: string)
    requires Coloured(state, stack, order) && node !in state
    ensures Coloured(state[node := 1], stack + [node], order) && node !in order && node !in stack
  {
  }

  lemma TurnsBlack(state: map<string, int>, stack: seq<string>, order: seq<string>, node: string)
    requires Coloured(state, stack + [node], order) && node !in stack
    ensures Coloured(state[node := 2], stack, order + [node])
  {
    var here := stack + [node];
    assert forall u | u in stack :: u in here;
    assert node in here;
    forall u | u in state[node := 2] && state[node := 2][u] == 1 ensures u in stack {
      assert u in here;
    }
  }

  lemma DescendingGrows(g: Graph, order: seq<string>, node: string)
    requires Descending(g, order) && Keeps(Successors(g, node), order)
    ensures Descending(g, order + [node])
  {
    var longer := order + [node];
    assert forall i | 0 <= i <= |order| :: longer[..i] == order[..i];
    assert order[..|order|] == order;
  }

  lemma OneMoreKept(next: seq<string>, i: nat, before: seq<string>, after: seq<string>)
    requires i < |next| && Keeps(before, after)
    ensures Keeps(next[..i], before) && next[i] in after ==> Keeps(next[..i + 1], after)
  {
    assert next[..i + 1] == next[..i] + [next[i]];
  }

  class Search {
    const edges: Graph
    var state: map<string, int>  // 1: on the stack, 2: done
    var cyclic: set<string>
    ghost var order: seq<string>  // done nodes, in the order they were done
    ghost const universe: set<string>

    constructor (edges: Graph, ghost universe: set<string>)
      requires Within(edges, universe)
      ensures this.edges == edges && this.universe == universe
      ensures Valid([]) && order == [] && state == map[] && cyclic == {}
    {
      this.edges, this.universe := edges, universe;
      state, cyclic, order := map[], {}, [];
    }

    ghost predicate Valid(stack: seq<string>)
      reads this
    {
      && Within(edges, universe)
      && Coloured(state, stack, order)
      && IsPath(edges, stack)
      && AllOnCycles(edges, cyclic)
      && (cyclic == {} ==> Descending(edges, order))
    }

    /** How many nodes are still unseen. */
    ghost function Left(): nat
      reads this
    {
      |universe - state.Keys|
    }

    method Visit(node: string, ghost stack: seq<string>)
      requires Valid(stack) && node in universe && node !in state
      requires stack != [] ==> node in Successors(edges, stack[|stack| - 1])
      modifies this
      ensures Valid(stack) && node in order
      ensures Left() <= old(Left()) && Keeps(old(order), order) && old(cyclic) <= cyclic
      decreases Left(), 1
    {
      Begin(node, stack);
      ghost var here := stack + [node];
      VisitSuccessors(node, here);
      Finish(node, stack);
    }

    method VisitSuccessors(node: string, ghost here: seq<string>)
      requires Valid(here) && here != [] && here[|here| - 1] == node
      modifies this
      ensures Valid(here) && Left() <= old(Left()) && Keeps(old(order), order) && old(cyclic) <= cyclic
      ensures cyclic == {} ==> Keeps(Successors(edges, node), order)
      decreases Left() + 1, 0
    {
      var next := Successors(edges, node);
      var i := 0;
      while i < |next|
        invariant 0 <= i <= |next|
        invariant Valid(here) && Left() <= old(Left()) && Keeps(old(order), order) && old(cyclic) <= cyclic
        invariant cyclic == {} ==> Keeps(next[..i], order)
      {
        ghost var before := order;
        FollowEdge(node, next[i], here);
        OneMoreKept(next, i, before, order);
        i := i + 1;
      }
      assert next[..|next|] == next;
    }

    method FollowEdge(node: string, next: string, ghost here: seq<string>)
      requires Valid(here) && here != [] && here[|here| - 1] == node && next in Successors(edges, node)
      modifies this
      ensures Valid(here) && Left() <= old(Left()) && Keeps(old(order), order) && old(cyclic) <= cyclic
      ensures cyclic == {} ==> next in order
      decreases Left(), 2
    {
      if next !in state {
        Visit(next, here);
      } else if state[next] == 1 {
        ReportBackEdge(node, next, here);
        assert node in cyclic;
      }
    }

    /** Put an unseen node on the stack. */
    method Begin(node: string, ghost stack: seq<string>)
      requires Valid(stack) && node in universe && node !in state
      requires stack != [] ==> node in Successors(edges, stack[|stack| - 1])
      modifies this`state
      ensures Valid(stack + [node]) && Left() < old(Left()) && node !in stack
    {
      TurnsGrey(state, stack, order, node);
      PathGrows(edges, stack, node);
      ghost var unseen := universe - state.Keys;
      assert node in unseen;
      state := state[node := 1];
      SmallerSet(universe - state.Keys, unseen);
    }

    method ReportBackEdge(node: string, next: string, ghost here: seq<string>)
      requires Valid(here) && here != [] && here[|here| - 1] == node
      requires next in here && next in Successors(edges, node)
      modifies this`cyclic
      ensures Valid(here) && cyclic == old(cyclic) + {next, node}
    {
      BackEdge(edges, here, next);
      cyclic := cyclic + {next, node};
    }

    /** Mark the top of the stack done. */
    method Finish(node: string, ghost stack: seq<string>)
      requires Valid(stack + [node]) && node !in stack
      requires cyclic == {} ==> Keeps(Successors(edges, node), order)
      modifies this`state, this`order
      ensures Valid(stack) && order == old(order) + [node] && Left() == old(Left())
    {
      TurnsBlack(state, stack, order, node);
      PathShrinks(edges, stack, node);
      if cyclic == {} {
        DescendingGrows(edges, order, node);
      }
      assert node in stack + [node];
      state := state[node := 2];
      assert state.Keys == old(state).Keys;
      order := order + [node];
    }
  }

  lemma SubsetSize(a: set<string>, b: set<string>)
    requires a <= b
    ensures |a| <= |b|
  {
    if a != {} {
      var x :| x in a;
      SubsetSize(a - {x}, b - {x});
    }
  }

  lemma SmallerSet(a: set<string>, b: set<string>)
    requires a < b
    ensures |a| < |b|
  {
    var x :| x in b && x !in a;
    SubsetSize(a, b - {x});
  }

  /** The nodes the search reports: none exactly when the graph has no cycle,
      and none that is not on one. */
  method FindCyclic(edges: Graph) returns (cyclic: set<string>)
    ensures cyclic == {} <==> !HasCycle(edges)
    ensures forall u | u in cyclic :: OnCycle(edges, u)
  {
    ghost var targets := set u, v | u in edges && v in edges[u] :: v;
    ghost var universe := edges.Keys + targets;
    assert forall u | u in edges :: forall v | v in edges[u] :: v in targets;
    var search := new Search(edges, universe);
    var todo := edges.Keys;
    while todo != {}
      invariant search.edges == edges && search.universe == universe
      invariant search.Valid([])
      invariant todo <= edges.Keys
      invariant forall u | u in edges && u !in todo :: u in search.order
      decreases |todo|
    {
      var node :| node in todo;
      if node !in search.state {
        search.Visit(node, []);
      }
      todo := todo - {node};
    }
    cyclic := search.cyclic;
    if cyclic == {} {
      DescendingIsAcyclic(edges, search.order);
    }
  }

  // ------------------------------------------------------------------------
  // The graph of a definition.
  // ------------------------------------------------------------------------

  function StringsOf(items: seq<Value>): seq<string> {
    if items == [] then []
    else
      var rest := StringsOf(items[..|items| - 1]);
      var v := items[|items| - 1];
      if v.Str? then rest + [v.s] else rest
  }

  lemma {:induction false} StringsOfHolds(items: seq<Value>, s: string)
    ensures s in StringsOf(items) <==> exists i | 0 <= i < |items| :: items[i] == Str(s)
  {
    if items != [] {
      StringsOfHolds(items[..|items| - 1], s);
    }
  }

  /** One turn of the edge-collecting loop. */
  function AddEdges(g: Graph, step: Value): Graph {
    if Get(step, "id").Str? then
      var id := Get(step, "id").s;
      g[id := Successors(g, id) + StringsOf(Deps(step))]
    else g
  }

  function EdgesOf(effects: seq<Value>): Graph {
    if effects == [] then map[] else AddEdges(EdgesOf(effects[..|effects| - 1]), effects[|effects| - 1])
  }

  lemma {:induction false} EdgesAreDependencies(effects: seq<Value>, u: string, v: string)
    ensures v in Successors(EdgesOf(effects), u)
            <==> exists i, j | 0 <= i < |effects| && 0 <= j < |Deps(effects[i])| ::
                   Get(effects[i], "id") == Str(u) && Deps(effects[i])[j] == Str(v)
    ensures u in EdgesOf(effects) ==> exists i | 0 <= i < |effects| :: Get(effects[i], "id") == Str(u)
  {
    if effects != [] {
      var front, last := effects[..|effects| - 1], effects[|effects| - 1];
      EdgesAreDependencies(front, u, v);
      StringsOfHolds(Deps(last), v);
      if v in Successors(EdgesOf(effects), u) && v !in Successors(EdgesOf(front), u) {
        var j :| 0 <= j < |Deps(last)| && Deps(last)[j] == Str(v);
        assert Get(effects[|effects| - 1], "id") == Str(u) && Deps(effects[|effects| - 1])[j] == Str(v);
      }
      if v in Successors(EdgesOf(front), u) {
        var i, j :| 0 <= i < |front| && 0 <= j < |Deps(front[i])| && Get(front[i], "id") == Str(u) && Deps(front[i])[j] == Str(v);
        assert Get(effects[i], "id") == Str(u) && Deps(effects[i])[j] == Str(v);
      }
      if u in EdgesOf(front) {
        var i :| 0 <= i < |front| && Get(front[i], "id") == Str(u);
        assert Get(effects[i], "id") == Str(u);
      }
    }
  }

  method CollectEdges(effects: seq<Value>) returns (edges: Graph)
    ensures edges == EdgesOf(effects)
  {
    edges := map[];
    var i := 0;
    while i < |effects|
      invariant 0 <= i <= |effects|
      invariant edges == EdgesOf(effects[..i])
    {
      assert effects[..i + 1][..i] == effects[..i];
      var step := effects[i];
      if Get(step, "id").Str? {
        var id := Get(step, "id").s;
        if id !in edges {
          edges := edges[id := []];
        }
        var was := edges[id];
        var deps := Deps(step);
        var j := 0;
        while j < |deps|
          invariant 0 <= j <= |deps|
          invariant id in edges && edges[id] == was + StringsOf(deps[..j])
          invariant edges == EdgesOf(effects[..i])[id := edges[id]]
        {
          assert deps[..j + 1][..j] == deps[..j];
          if deps[j].Str? {
            edges := edges[id := edges[id] + [deps[j].s]];
          }
          j := j + 1;
        }
        assert deps[..|deps|] == deps;
      }
      i := i + 1;
    }
    assert effects[..|effects|] == effects;
  }

  // ------------------------------------------------------------------------
  // Declaration order already excludes cycles.
  // ------------------------------------------------------------------------

  /** A dependency of the leaf is available from outside, or declared earlier in preorder. */
  ghost predicate Earlier(leaf: Value, ids: seq<string>, available: set<string>) {
    exists p | 0 <= p < |ids| ::
      && ids[p] == IdOf(leaf)
      && forall j | 0 <= j < |Deps(leaf)| && Deps(leaf)[j].Str? :: Deps(leaf)[j].s in available || Deps(leaf)[j].s in ids[..p]
  }

  lemma EarlierShifts(leaf: Value, front: seq<string>, ids: seq<string>, back: seq<string>, available: set<string>, more: set<string>)
    requires Earlier(leaf, ids, more)
    requires forall s | s in more :: s in available || s in front
    ensures Earlier(leaf, front + ids + back, available)
  {
    var p :| 0 <= p < |ids| && ids[p] == IdOf(leaf)
      && forall j | 0 <= j < |Deps(leaf)| && Deps(leaf)[j].Str? :: Deps(leaf)[j].s in more || Deps(leaf)[j].s in ids[..p];
    var all := front + ids + back;
    var q := |front| + p;
    assert all[q] == ids[p];
    assert all[..q] == front + ids[..p];
  }

  lemma {:induction false} AvailableAreDeclared(step: Value, available: set<string>)
    ensures forall s | s in AvailableAfter(step, available) :: s in available || s in IdsOf(step)
    decreases step
  {
    assert IdsOf(step)[0] == IdOf(step);
    if IsContainer(Get(step, "kind")) && HasChildren(step) {
      AllAvailableAreDeclared(step.fields[ChildKey(Get(step, "kind"))].items, available);
    }
  }

  lemma {:induction false} AllAvailableAreDeclared(steps: seq<Value>, available: set<string>)
    ensures forall s | s in AvailableAfterAll(steps, available) :: s in available || s in IdsIn(steps)
    decreases steps
  {
    if steps != [] {
      AvailableAreDeclared(steps[0], available);
      AllAvailableAreDeclared(steps[1..], AvailableAfter(steps[0], available));
    }
  }

  lemma {:induction false} OrderedStepsDependEarlier(step: Value, available: set<string>, i: nat)
    requires OrderOk(step, available) && i < |EffectStepsOf(step)|
    ensures Earlier(EffectStepsOf(step)[i], IdsOf(step), available)
    decreases step
  {
    var own := [IdOf(step)];
    var leaf := EffectStepsOf(step)[i];
    if IsEffect(Get(step, "kind")) {
      assert IdsOf(step) == own;
      assert own[..0] == [] && own[0] == IdOf(leaf);
    } else if HasChildren(step) {
      var items := step.fields[ChildKey(Get(step, "kind"))].items;
      OrderedSequenceDependsEarlier(items, available, i);
      EarlierShifts(leaf, own, IdsIn(items), [], available, available);
      assert IdsOf(step) == own + IdsIn(items) + [];
    } else {
      var a := if Lists(step, "then") then step.fields["then"].items else [];
      var b := if Lists(step, "else") then step.fields["else"].items else [];
      assert IdsOf(step) == own + IdsIn(a) + IdsIn(b);
      if i < |EffectSteps(a)| {
        OrderedSequenceDependsEarlier(a, available, i);
        EarlierShifts(leaf, own, IdsIn(a), IdsIn(b), available, available);
      } else {
        OrderedSequenceDependsEarlier(b, available, i - |EffectSteps(a)|);
        EarlierShifts(leaf, own + IdsIn(a), IdsIn(b), [], available, available);
        assert own + IdsIn(a) + IdsIn(b) + [] == IdsOf(step);
      }
    }
  }

  lemma {:induction false} OrderedSequenceDependsEarlier(steps: seq<Value>, available: set<string>, i: nat)
    requires OrderOkAll(steps, available) && i < |EffectSteps(steps)|
    ensures Earlier(EffectSteps(steps)[i], IdsIn(steps), available)
    decreases steps
  {
    var a := EffectStepsOf(steps[0]);
    var leaf := EffectSteps(steps)[i];
    assert EffectSteps(steps) == a + EffectSteps(steps[1..]);
    assert IdsIn(steps) == IdsOf(steps[0]) + IdsIn(steps[1..]);
    if i < |a| {
      assert leaf == a[i];
      OrderedStepsDependEarlier(steps[0], available, i);
      EarlierShifts(leaf, [], IdsOf(steps[0]), IdsIn(steps[1..]), available, available);
      assert [] + IdsOf(steps[0]) + IdsIn(steps[1..]) == IdsIn(steps);
    } else {
      assert leaf == EffectSteps(steps[1..])[i - |a|];
      var available' := AvailableAfter(steps[0], available);
      OrderedSequenceDependsEarlier(steps[1..], available', i - |a|);
      AvailableAreDeclared(steps[0], available);
      EarlierShifts(leaf, IdsOf(steps[0]), IdsIn(steps[1..]), [], available, available');
      assert IdsOf(steps[0]) + IdsIn(steps[1..]) + [] == IdsIn(steps);
    }
  }

  /** Unique ids and a clean execution-order lint leave no cycle to report. */
  lemma DeclarationOrderIsAcyclic(steps: seq<Value>)
    requires Distinct(IdsIn(steps)) && OrderOkAll(steps, {})
    ensures !HasCycle(EdgesOf(EffectSteps(steps)))
  {
    var effects, ids := EffectSteps(steps), IdsIn(steps);
    var g := EdgesOf(effects);
    forall u | u in g ensures u in ids {
      EdgesAreDependencies(effects, u, u);
      var i :| 0 <= i < |effects| && Get(effects[i], "id") == Str(u);
      OrderedSequenceDependsEarlier(steps, {}, i);
    }
    forall k, v | 0 <= k < |ids| && v in Successors(g, ids[k]) ensures v in ids[..k] {
      EdgesAreDependencies(effects, ids[k], v);
      var i, j :| 0 <= i < |effects| && 0 <= j < |Deps(effects[i])|
        && Get(effects[i], "id") == Str(ids[k]) && Deps(effects[i])[j] == Str(v);
      OrderedSequenceDependsEarlier(steps, {}, i);
    }
    DescendingIsAcyclic(g, ids);
  }
}
