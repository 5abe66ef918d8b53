/** Resources a loop's actions leave behind, and the finalizers that clean them
    up (loops.py, resources.py). */
module Resources {
  import opened Json

  datatype Trigger = Success | Failure | Timeout | Cancelled | Superseded | Manual

  datatype Policy = Required | BestEffort | PreserveOnly | ManualApproval

  datatype Finalizer = Finalizer(id: string, action: string, when: seq<Trigger>, policy: Policy, args: Value, verification: Value)

  datatype Resource = Resource(id: string, kind: string, owner: Value, handle: Value, metadata: Value, finalizers: seq<Finalizer>)

  datatype ResultStatus = Succeeded | Failed | Skipped | Preserved | ApprovalRequired

  datatype FinalizerResult = FinalizerResult(resource: string, finalizer: string, trigger: Trigger, policy: Policy, status: ResultStatus)

  // ------------------------------------------------------------------------
  // Merging finalizers.
  // ------------------------------------------------------------------------

  function Ids(items: seq<Finalizer>): (ids: seq<string>)
    ensures |ids| == |items|
  {
    seq(|items|, i requires 0 <= i < |items| => items[i].id)
  }

  ghost predicate DistinctIds(items: seq<Finalizer>) {
    forall i, j | 0 <= i < j < |items| :: items[i].id != items[j].id
  }

  /** Where the id is, or the end. */
  function Position(items: seq<Finalizer>, id: string): (p: nat)
    ensures p <= |items|
    ensures p < |items| ==> items[p].id == id
    ensures forall i | 0 <= i < p :: items[i].id != id
  {
    if items == [] || items[0].id == id then 0 else 1 + Position(items[1..], id)
  }

  /** Replace the item with the same id in place, or append. */
  function Put(items: seq<Finalizer>, f: Finalizer): seq<Finalizer> {
    var p := Position(items, f.id);
    if p < |items| then items[p := f] else items + [f]
  }

  function Merged(items: seq<Finalizer>): seq<Finalizer> {
    if items == [] then [] else Put(Merged(items[..|items| - 1]), items[|items| - 1])
  }

  lemma MergedOneMore(items: seq<Finalizer>, i: nat)
    requires i < |items|
    ensures Merged(items[..i + 1]) == Put(Merged(items[..i]), items[i])
  {
    assert items[..i + 1][..i] == items[..i];
  }

  ghost predicate Indexed(positions: map<string, nat>, items: seq<Finalizer>) {
    && (forall id | id in positions :: positions[id] == Position(items, id) < |items|)
    && (forall id | Position(items, id) < |items| :: id in positions)
  }

  lemma IndexedPut(positions: map<string, nat>, items: seq<Finalizer>, f: Finalizer)
    requires Indexed(positions, items)
    ensures if f.id in positions then Put(items, f) == items[positions[f.id] := f] && Indexed(positions, Put(items, f))
            else Put(items, f) == items + [f] && Indexed(positions[f.id := |items|], Put(items, f))
  {
    PutKeepsPositions(items, f);
    forall id | Position(Put(items, f), id) < |Put(items, f)| ensures id in positions || id == f.id {
      PutAddsOne(items, f, id);
    }
  }

  lemma PutAddsOne(items: seq<Finalizer>, f: Finalizer, id: string)
    requires Position(Put(items, f), id) < |Put(items, f)|
    ensures id == f.id || Position(items, id) < |items|
  {
    var p := Position(Put(items, f), id);
    assert id != f.id ==> p < |items| && Put(items, f)[p] == items[p];
  }

  /** `_merge_finalizer_dicts`, which keeps a dict of positions. */
  method MergeFinalizers(existing: seq<Finalizer>, incoming: seq<Finalizer>) returns (merged: seq<Finalizer>)
    ensures merged == Merged(existing + incoming)
  {
    var items := existing + incoming;
    merged := [];
    var positions: map<string, nat> := map[];
    var i := 0;
    while i < |items|
      invariant 0 <= i <= |items|
      invariant merged == Merged(items[..i])
      invariant Indexed(positions, merged)
    {
      MergedOneMore(items, i);
      var f := items[i];
      IndexedPut(positions, merged, f);
      if f.id in positions {
        merged := merged[positions[f.id] := f];
      } else {
        positions := positions[f.id := |merged|];
        merged := merged + [f];
      }
      i := i + 1;
    }
    assert items[..|items|] == items;
  }

  /** A put moves no other id, and leaves its own where it was or at the end. */
  lemma PutKeepsPositions(items: seq<Finalizer>, f: Finalizer)
    ensures forall id | Position(items, id) < |items| :: Position(Put(items, f), id) == Position(items, id)
    ensures Position(Put(items, f), f.id) == Position(items, f.id)
    ensures DistinctIds(items) ==> DistinctIds(Put(items, f))
  {
    var after := Put(items, f);
    forall id | Position(items, id) < |items| || id == f.id ensures Position(after, id) == Position(items, id) {
      PositionIs(after, id, Position(items, id));
    }
  }

  lemma PositionIs(items: seq<Finalizer>, id: string, p: nat)
    requires p < |items| && items[p].id == id && forall i | 0 <= i < p :: items[i].id != id
    ensures Position(items, id) == p
  {
  }

  ghost predicate IsLast(items: seq<Finalizer>, f: Finalizer) {
    exists i | 0 <= i < |items| :: items[i] == f && forall j | i < j < |items| :: items[j].id != f.id
  }

  lemma {:induction false} MergedIsDistinct(items: seq<Finalizer>)
    ensures DistinctIds(Merged(items))
    ensures forall i | 0 <= i < |items| :: Position(Merged(items), items[i].id) < |Merged(items)|
  {
    if items != [] {
      var front, last := items[..|items| - 1], items[|items| - 1];
      MergedIsDistinct(front);
      PutKeepsPositions(Merged(front), last);
      forall i | 0 <= i < |items| ensures Position(Merged(items), items[i].id) < |Merged(items)| {
        if i < |front| {
          assert items[i] == front[i];
        }
      }
    }
  }

  lemma {:induction false} MergedAreLast(items: seq<Finalizer>, f: Finalizer)
    requires f in Merged(items)
    ensures IsLast(items, f)
  {
    var front, last := items[..|items| - 1], items[|items| - 1];
    if f == last {
      assert items[|items| - 1] == f;
    } else {
      MergedIsDistinct(items);
      var p := Position(Merged(front), last.id);
      assert Merged(items)[p] == last;
      assert f in Merged(front) && f.id != last.id;
      MergedAreLast(front, f);
      IsLastGrows(front, last, f);
      assert items == front + [last];
    }
  }

  lemma IsLastGrows(front: seq<Finalizer>, last: Finalizer, f: Finalizer)
    requires IsLast(front, f) && f.id != last.id
    ensures IsLast(front + [last], f)
  {
    var i :| 0 <= i < |front| && front[i] == f && forall j | i < j < |front| :: front[j].id != f.id;
    var items := front + [last];
    assert items[i] == f;
    assert forall j | i < j < |items| :: items[j].id != f.id;
  }

  /** Merging leaves one finalizer per id: the last declared, where the first was. */
  lemma MergeIsRightBiased(items: seq<Finalizer>)
    ensures DistinctIds(Merged(items))
    ensures forall f | f in Merged(items) :: IsLast(items, f)
    ensures forall i | 0 <= i < |items| :: Position(Merged(items), items[i].id) < |Merged(items)|
  {
    MergedIsDistinct(items);
    forall f | f in Merged(items) ensures IsLast(items, f) {
      MergedAreLast(items, f);
    }
  }

  lemma {:induction false} MergedAppend(a: seq<Finalizer>, b: seq<Finalizer>)
    ensures Merged(Merged(a) + b) == Merged(a + b)
  {
    if b == [] {
      assert Merged(a) + b == Merged(a) && a + b == a;
      MergeIsRightBiased(a);
      MergedOfDistinct(Merged(a));
    } else {
      var c, x := b[..|b| - 1], b[|b| - 1];
      MergedAppend(a, c);
      assert (Merged(a) + b)[..|Merged(a) + b| - 1] == Merged(a) + c;
      assert (a + b)[..|a + b| - 1] == a + c;
    }
  }

  lemma {:induction false} MergedOfDistinct(items: seq<Finalizer>)
    requires DistinctIds(items)
    ensures Merged(items) == items
  {
    if items != [] {
      var front, last := items[..|items| - 1], items[|items| - 1];
      assert forall i, j | 0 <= i < j < |front| :: front[i] == items[i] && front[j] == items[j];
      MergedOfDistinct(front);
      assert Position(front, last.id) == |front|;
      assert items == front + [last];
    }
  }

  /** Putting finalizers that are already there changes nothing. */
  lemma {:induction false} MergedAgain(items: seq<Finalizer>, again: seq<Finalizer>)
    requires DistinctIds(items) && forall f | f in again :: f in items
    ensures Merged(items + again) == items
  {
    if again == [] {
      assert items + again == items;
      MergedOfDistinct(items);
    } else {
      var c, x := again[..|again| - 1], again[|again| - 1];
      MergedAgain(items, c);
      assert (items + again)[..|items + again| - 1] == items + c;
      assert x in again;
      var k :| 0 <= k < |items| && items[k] == x;
      assert Position(items, x.id) == k;
      assert items[k := x] == items;
    }
  }

  // ------------------------------------------------------------------------
  // Registering resources.
  // ------------------------------------------------------------------------

  /** `_merge_resource_registration`. */
  function MergeResource(existing: Resource, incoming: Resource): Resource {
    Resource(existing.id, incoming.kind, incoming.owner, incoming.handle, incoming.metadata,
             Merged(existing.finalizers + incoming.finalizers))
  }

  /** `_find_resource`, as a position. */
  function Find(resources: seq<Resource>, id: string): (p: nat)
    ensures p <= |resources|
    ensures p < |resources| ==> resources[p].id == id
    ensures forall i | 0 <= i < p :: resources[i].id != id
  {
    if resources == [] || resources[0].id == id then 0 else 1 + Find(resources[1..], id)
  }

  function Register(resources: seq<Resource>, r: Resource): seq<Resource> {
    var p := Find(resources, r.id);
    if p < |resources| then resources[p := MergeResource(resources[p], r)] else resources + [r]
  }

  function RegisterAll(resources: seq<Resource>, incoming: seq<Resource>): seq<Resource> {
    if incoming == [] then resources
    else Register(RegisterAll(resources, incoming[..|incoming| - 1]), incoming[|incoming| - 1])
  }

  /** What `WorkflowResource.from_dict` guarantees of every resource. */
  ghost predicate WellFormed(r: Resource) {
    DistinctIds(r.finalizers)
  }

  ghost predicate UniqueIds(resources: seq<Resource>) {
    forall i, j | 0 <= i < j < |resources| :: resources[i].id != resources[j].id
  }

  /** Declarations of one resource, in order. */
  function Declared(incoming: seq<Resource>, id: string): seq<Resource> {
    if incoming == [] then []
    else
      var r := incoming[|incoming| - 1];
      Declared(incoming[..|incoming| - 1], id) + if r.id == id then [r] else []
  }

  function AllFinalizers(incoming: seq<Resource>): seq<Finalizer> {
    if incoming == [] then []
    else AllFinalizers(incoming[..|incoming| - 1]) + incoming[|incoming| - 1].finalizers
  }

  /** Ids in the order of their first declaration. */
  function FirstSeen(incoming: seq<Resource>): seq<string> {
    if incoming == [] then []
    else
      var seen := FirstSeen(incoming[..|incoming| - 1]);
      if incoming[|incoming| - 1].id in seen then seen else seen + [incoming[|incoming| - 1].id]
  }

  /** The right-biased merge of all declarations of one resource: the fields of
      the last, and the finalizers of all. */
  ghost predicate IsMergeOf(r: Resource, declared: seq<Resource>) {
    && declared != []
    && var last := declared[|declared| - 1];
       r == Resource(last.id, last.kind, last.owner, last.handle, last.metadata, Merged(AllFinalizers(declared)))
  }

  lemma FindIs(resources: seq<Resource>, id: string, p: nat)
    requires p <= |resources| && (p < |resources| ==> resources[p].id == id)
    requires forall i | 0 <= i < p :: resources[i].id != id
    ensures Find(resources, id) == p
  {
  }

  /** The registered resources are unique, in first-seen order, each the
      right-biased merge of what was declared under its id. */
  ghost predicate IsRegistry(rs: seq<Resource>, incoming: seq<Resource>) {
    && UniqueIds(rs)
    && |rs| == |FirstSeen(incoming)|
    && forall i | 0 <= i < |rs| :: IsEntry(rs[i], FirstSeen(incoming)[i], incoming)
  }

  ghost predicate IsEntry(r: Resource, id: string, incoming: seq<Resource>) {
    r.id == id && IsMergeOf(r, Declared(incoming, id))
  }

  /** Any sequence of registrations leaves such a registry. */
  lemma {:induction false} RegistrationsMerge(incoming: seq<Resource>)
    requires forall i | 0 <= i < |incoming| :: WellFormed(incoming[i])
    ensures IsRegistry(RegisterAll([], incoming), incoming)
  {
    if incoming != [] {
      var front, r := incoming[..|incoming| - 1], incoming[|incoming| - 1];
      RegistrationsMerge(front);
      assert incoming == front + [r];
      var before := RegisterAll([], front);
      if Find(before, r.id) < |before| {
        LaterRegistration(before, front, r);
      } else {
        FirstRegistration(before, front, r);
      }
    }
  }

  lemma DeclaredOneMore(front: seq<Resource>, r: Resource, id: string)
    ensures Declared(front + [r], id) == Declared(front, id) + if r.id == id then [r] else []
    ensures FirstSeen(front + [r]) == if r.id in FirstSeen(front) then FirstSeen(front) else FirstSeen(front) + [r.id]
  {
    assert (front + [r])[..|front|] == front;
  }

  lemma EntryKept(e: Resource, id: string, front: seq<Resource>, r: Resource)
    requires IsEntry(e, id, front) && r.id != id
    ensures IsEntry(e, id, front + [r])
  {
    DeclaredOneMore(front, r, id);
    assert Declared(front, id) + [] == Declared(front, id);
  }

  lemma EntryMerged(e: Resource, front: seq<Resource>, r: Resource)
    requires IsEntry(e, r.id, front)
    ensures IsEntry(MergeResource(e, r), r.id, front + [r])
  {
    DeclaredOneMore(front, r, r.id);
    MergeOneMore(e, Declared(front, r.id), r);
  }

  lemma EntryNew(front: seq<Resource>, r: Resource)
    requires WellFormed(r) && r.id !in FirstSeen(front)
    ensures IsEntry(r, r.id, front + [r])
  {
    DeclaredOneMore(front, r, r.id);
    NotYetDeclared(front, r.id);
    assert [] + [r] == [r];
    OnlyDeclaration(r);
  }

  lemma LaterRegistration(before: seq<Resource>, front: seq<Resource>, r: Resource)
    requires IsRegistry(before, front) && Find(before, r.id) < |before|
    ensures IsRegistry(Register(before, r), front + [r])
  {
    var p, seen := Find(before, r.id), FirstSeen(front);
    var after := Register(before, r);
    forall i | 0 <= i < |after| ensures IsEntry(after[i], seen[i], front + [r]) {
      assert IsEntry(before[i], seen[i], front);
      if i == p {
        EntryMerged(before[p], front, r);
      } else {
        EntryKept(before[i], seen[i], front, r);
      }
    }
    assert IsEntry(before[p], seen[p], front) && seen[p] in seen;
    DeclaredOneMore(front, r, r.id);
  }

  lemma EntriesOfOneMore(before: seq<Resource>, seen: seq<string>, front: seq<Resource>, r: Resource, i: nat)
    requires |before| == |seen| && i <= |before|
    requires i < |before| ==> IsEntry(before[i], seen[i], front) && r.id != seen[i]
    requires IsEntry(r, r.id, front + [r])
    ensures IsEntry((before + [r])[i], (seen + [r.id])[i], front + [r])
  {
    if i < |before| {
      EntryKept(before[i], seen[i], front, r);
    }
  }

  lemma OneIdMore(before: seq<Resource>, r: Resource)
    requires UniqueIds(before) && Find(before, r.id) == |before|
    ensures UniqueIds(before + [r])
  {
  }

  lemma FirstRegistration(before: seq<Resource>, front: seq<Resource>, r: Resource)
    requires WellFormed(r) && IsRegistry(before, front) && Find(before, r.id) == |before|
    ensures IsRegistry(before + [r], front + [r])
  {
    var seen, after := FirstSeen(front), before + [r];
    assert forall i | 0 <= i < |before| :: before[i].id == seen[i];
    OneIdMore(before, r);
    EntryNew(front, r);
    DeclaredOneMore(front, r, r.id);
    assert FirstSeen(front + [r]) == seen + [r.id];
    forall i | 0 <= i < |after| ensures IsEntry(after[i], (seen + [r.id])[i], front + [r]) {
      EntriesOfOneMore(before, seen, front, r, i);
    }
  }

  lemma OnlyDeclaration(r: Resource)
    requires WellFormed(r)
    ensures IsMergeOf(r, [r])
  {
    MergedOfDistinct(r.finalizers);
    assert [r][..0] == [];
    assert AllFinalizers([]) + r.finalizers == r.finalizers;
  }

  lemma MergeOneMore(existing: Resource, declared: seq<Resource>, r: Resource)
    requires IsMergeOf(existing, declared) && existing.id == r.id
    ensures IsMergeOf(MergeResource(existing, r), declared + [r])
  {
    assert (declared + [r])[..|declared|] == declared;
    MergedAppend(AllFinalizers(declared), r.finalizers);
  }

  lemma {:induction false} NotYetDeclared(front: seq<Resource>, id: string)
    requires id !in FirstSeen(front)
    ensures Declared(front, id) == []
  {
    if front != [] {
      NotYetDeclared(front[..|front| - 1], id);
      assert front[|front| - 1].id in FirstSeen(front);
    }
  }

  /** Declaring the same resource again changes nothing. */
  lemma RegisteringAgainIsIdle(resources: seq<Resource>, r: Resource)
    requires WellFormed(r)
    ensures var once := Register(resources, r);
            Register(once, r) == once
  {
    var once := Register(resources, r);
    var p := Find(resources, r.id);
    assert once[p].id == r.id;
    FindIs(once, r.id, p);
    if p < |resources| {
      var all := resources[p].finalizers + r.finalizers;
      MergeIsRightBiased(all);
      LastOnesStay(resources[p].finalizers, r.finalizers);
      MergedAgain(Merged(all), r.finalizers);
    } else {
      MergedAgain(r.finalizers, r.finalizers);
    }
    assert once[p := once[p]] == once;
  }

  /** After a merge, each of the later, distinct finalizers is there as declared. */
  lemma {:induction false} LastOnesStay(a: seq<Finalizer>, b: seq<Finalizer>)
    requires DistinctIds(b)
    ensures forall f | f in b :: f in Merged(a + b)
  {
    var all := a + b;
    var m := Merged(all);
    MergeIsRightBiased(all);
    forall f | f in b ensures f in m {
      var k :| 0 <= k < |b| && b[k] == f;
      assert all[|a| + k] == f;
      var p := Position(m, f.id);
      assert m[p] in m;
      assert IsLast(all, m[p]);
      var i :| 0 <= i < |all| && all[i] == m[p] && forall j | i < j < |all| :: all[j].id != m[p].id;
      assert i >= |a| + k;
      assert all[i] == b[i - |a|];
    }
  }

  /** `_register_resources`, which updates found resources in place. */
  method RegisterResources(resources: seq<Resource>, incoming: seq<Resource>) returns (after: seq<Resource>)
    ensures after == RegisterAll(resources, incoming)
  {
    after := resources;
    var i := 0;
    while i < |incoming|
      invariant 0 <= i <= |incoming|
      invariant after == RegisterAll(resources, incoming[..i])
    {
      assert incoming[..i + 1][..i] == incoming[..i];
      var r := incoming[i];
      var p := 0;
      while p < |after| && after[p].id != r.id
        invariant 0 <= p <= Find(after, r.id)
      {
        p := p + 1;
      }
      if p < |after| {
        var merged := MergeFinalizers(after[p].finalizers, r.finalizers);
        after := after[p := Resource(after[p].id, r.kind, r.owner, r.handle, r.metadata, merged)];
      } else {
        after := after + [r];
      }
      i := i + 1;
    }
    assert incoming[..|incoming|] == incoming;
  }

  predicate HasId(resources: seq<Resource>, id: string) {
    Find(resources, id) < |resources|
  }

  /** Within one action, the first declaration of an id wins. */
  function FirstWins(raw: seq<Resource>): seq<Resource> {
    if raw == [] then []
    else
      var kept := FirstWins(raw[..|raw| - 1]);
      if HasId(kept, raw[|raw| - 1].id) then kept else kept + [raw[|raw| - 1]]
  }

  lemma FindPut(resources: seq<Resource>, r: Resource)
    requires !HasId(resources, r.id)
    ensures HasId(resources + [r], r.id) && Find(resources + [r], r.id) == |resources|
    ensures forall id | HasId(resources, id) :: Find(resources + [r], id) == Find(resources, id)
  {
    var longer := resources + [r];
    FindIs(longer, r.id, |resources|);
    forall id | HasId(resources, id) ensures Find(longer, id) == Find(resources, id) {
      FindIs(longer, id, Find(resources, id));
    }
  }

  /** What the first declaration of the id said is what is kept. */
  ghost predicate KeptFirst(raw: seq<Resource>, id: string) {
    var kept := FirstWins(raw);
    HasId(raw, id) ==> HasId(kept, id) && kept[Find(kept, id)] == raw[Find(raw, id)]
  }

  lemma {:induction false} KeptAreUnique(raw: seq<Resource>)
    ensures UniqueIds(FirstWins(raw))
  {
    if raw != [] {
      KeptAreUnique(raw[..|raw| - 1]);
    }
  }

  lemma {:induction false} FirstIsKept(raw: seq<Resource>, id: string)
    ensures KeptFirst(raw, id)
  {
    if HasId(raw, id) {
      var front, last := raw[..|raw| - 1], raw[|raw| - 1];
      FirstIsKept(front, id);
      FindInFront(front, last, id);
      assert raw == front + [last];
      if !HasId(FirstWins(front), last.id) {
        FindPut(FirstWins(front), last);
      }
      if !HasId(front, id) {
        NotKeptIfNotDeclared(front, id);
      }
    }
  }

  lemma FindInFront(front: seq<Resource>, last: Resource, id: string)
    ensures HasId(front, id) ==> Find(front + [last], id) == Find(front, id)
    ensures !HasId(front, id) && HasId(front + [last], id) ==> id == last.id && Find(front + [last], id) == |front|
  {
    var raw := front + [last];
    if HasId(front, id) {
      FindIs(raw, id, Find(front, id));
    } else if HasId(raw, id) {
      var p := Find(raw, id);
      assert raw[p].id == id;
      assert forall i | 0 <= i < |front| :: raw[i] == front[i];
    }
  }

  /** Each declared id is kept once, with what its first declaration said. */
  lemma FirstDeclarationsAreKept(raw: seq<Resource>)
    ensures UniqueIds(FirstWins(raw))
    ensures forall id :: KeptFirst(raw, id)
  {
    KeptAreUnique(raw);
    forall id ensures KeptFirst(raw, id) {
      FirstIsKept(raw, id);
    }
  }

  lemma {:induction false} NotKeptIfNotDeclared(raw: seq<Resource>, id: string)
    requires !HasId(raw, id)
    ensures !HasId(FirstWins(raw), id)
  {
    if raw != [] {
      var front, last := raw[..|raw| - 1], raw[|raw| - 1];
      FindInFront(front, last, id);
      assert raw == front + [last];
      assert last.id != id;
      NotKeptIfNotDeclared(front, id);
      FindInFront(FirstWins(front), last, id);
    }
  }

  /** `normalize_resource_envelopes`, on parsed envelopes. */
  method NormalizeEnvelopes(raw: seq<Resource>) returns (resources: seq<Resource>)
    ensures resources == FirstWins(raw)
  {
    resources := [];
    var seen: set<string> := {};
    var i := 0;
    while i < |raw|
      invariant 0 <= i <= |raw|
      invariant resources == FirstWins(raw[..i])
      invariant Seen(seen, resources)
    {
      assert raw[..i + 1][..i] == raw[..i];
      var r := raw[i];
      if r.id !in seen {
        SeenOneMore(seen, resources, r);
        seen := seen + {r.id};
        resources := resources + [r];
      }
      i := i + 1;
    }
    assert raw[..|raw|] == raw;
  }

  ghost predicate Seen(seen: set<string>, resources: seq<Resource>) {
    forall id :: id in seen <==> HasId(resources, id)
  }

  lemma SeenOneMore(seen: set<string>, resources: seq<Resource>, r: Resource)
    requires Seen(seen, resources) && r.id !in seen
    ensures Seen(seen + {r.id}, resources + [r])
  {
    FindPut(resources, r);
    forall id ensures id in seen + {r.id} <==> HasId(resources + [r], id) {
      FindInFront(resources, r, id);
    }
  }

  // ------------------------------------------------------------------------
  // Running finalizers.
  // ------------------------------------------------------------------------

  /** What the host's adapter makes of one call; `None` for no adapter at all. */
  datatype Reply = Raises | Malformed | Answers(ok: bool)

  type Runner = Option<(Resource, Finalizer, Trigger) -> Reply>

  /** `_run_one_finalizer`. */
  function RunOne(r: Resource, f: Finalizer, trigger: Trigger, runner: Runner): FinalizerResult {
    var status :=
      match f.policy
      case PreserveOnly => Preserved
      case ManualApproval => ApprovalRequired
      case _ =>
        if runner.None? then (if f.policy == Required then Failed else Skipped)
        else match runner.value(r, f, trigger)
          case Answers(true) => Succeeded
          case _ => Failed;
    FinalizerResult(r.id, f.id, trigger, f.policy, status)
  }

  type Key = (string, string, Trigger)

  function KeyOf(r: FinalizerResult): Key {
    (r.resource, r.finalizer, r.trigger)
  }

  ghost function Keys(results: seq<FinalizerResult>): set<Key> {
    set r | r in results :: KeyOf(r)
  }

  predicate Due(r: Resource, f: Finalizer, trigger: Trigger, completed: set<Key>) {
    (r.id, f.id, trigger) !in completed && trigger in f.when
  }

  /** What running the resource's finalizers gives, in their order. */
  function ResultsOf(r: Resource, fs: seq<Finalizer>, trigger: Trigger, runner: Runner, completed: set<Key>): seq<FinalizerResult>
    decreases fs
  {
    if fs == [] then []
    else if Due(r, fs[0], trigger, completed) then
      [RunOne(r, fs[0], trigger, runner)] + ResultsOf(r, fs[1..], trigger, runner, completed + {(r.id, fs[0].id, trigger)})
    else ResultsOf(r, fs[1..], trigger, runner, completed)
  }

  function CompletedBy(r: Resource, fs: seq<Finalizer>, trigger: Trigger): set<Key> {
    set f | f in fs && trigger in f.when :: (r.id, f.id, trigger)
  }

  function Results(resources: seq<Resource>, trigger: Trigger, runner: Runner, completed: set<Key>): seq<FinalizerResult>
    decreases resources
  {
    if resources == [] then []
    else
      var r := resources[0];
      ResultsOf(r, r.finalizers, trigger, runner, completed)
      + Results(resources[1..], trigger, runner, completed + CompletedBy(r, r.finalizers, trigger))
  }

  /** `run_resource_finalizers`. */
  method RunFinalizers(resources: seq<Resource>, trigger: Trigger, runner: Runner, existing: seq<FinalizerResult>)
    returns (results: seq<FinalizerResult>)
    ensures results == Results(resources, trigger, runner, Keys(existing))
  {
    var completed := set r | r in existing :: KeyOf(r);
    results := [];
    var i := 0;
    while i < |resources|
      invariant 0 <= i <= |resources|
      invariant results + Results(resources[i..], trigger, runner, completed) == Results(resources, trigger, runner, Keys(existing))
    {
      var r := resources[i];
      assert resources[i..][0] == r && resources[i..][1..] == resources[i + 1..];
      var here, now := RunFinalizersOf(r, trigger, runner, completed);
      results, completed := results + here, now;
      i := i + 1;
    }
  }

  /** What is completed after running those finalizers of a resource. */
  function CompletedAfter(r: Resource, fs: seq<Finalizer>, trigger: Trigger, completed: set<Key>): set<Key>
    decreases fs
  {
    if fs == [] then completed
    else CompletedAfter(r, fs[1..], trigger, if Due(r, fs[0], trigger, completed) then completed + {(r.id, fs[0].id, trigger)} else completed)
  }

  lemma {:induction false} CompletedAfterIs(r: Resource, fs: seq<Finalizer>, trigger: Trigger, completed: set<Key>)
    ensures CompletedAfter(r, fs, trigger, completed) == completed + CompletedBy(r, fs, trigger)
    decreases fs
  {
    if fs != [] {
      CompletedSplit(r, fs, trigger);
      CompletedAfterIs(r, fs[1..], trigger, if Due(r, fs[0], trigger, completed) then completed + {(r.id, fs[0].id, trigger)} else completed);
    }
  }

  /** The inner loop, over one resource. */
  method RunFinalizersOf(r: Resource, trigger: Trigger, runner: Runner, done: set<Key>)
    returns (results: seq<FinalizerResult>, completed: set<Key>)
    ensures results == ResultsOf(r, r.finalizers, trigger, runner, done)
    ensures completed == done + CompletedBy(r, r.finalizers, trigger)
  {
    results, completed := [], done;
    var j := 0;
    while j < |r.finalizers|
      invariant 0 <= j <= |r.finalizers|
      invariant results + ResultsOf(r, r.finalizers[j..], trigger, runner, completed) == ResultsOf(r, r.finalizers, trigger, runner, done)
      invariant CompletedAfter(r, r.finalizers[j..], trigger, completed) == CompletedAfter(r, r.finalizers, trigger, done)
    {
      var f := r.finalizers[j];
      assert r.finalizers[j..][0] == f && r.finalizers[j..][1..] == r.finalizers[j + 1..];
      if Due(r, f, trigger, completed) {
        results := results + [RunOne(r, f, trigger, runner)];
        completed := completed + {(r.id, f.id, trigger)};
      }
      j := j + 1;
    }
    CompletedAfterIs(r, r.finalizers, trigger, done);
  }

  lemma ResultsSplit(r: Resource, fs: seq<Finalizer>, trigger: Trigger, runner: Runner, completed: set<Key>)
    requires fs != []
    ensures ResultsOf(r, fs, trigger, runner, completed) ==
            if Due(r, fs[0], trigger, completed) then
              [RunOne(r, fs[0], trigger, runner)] + ResultsOf(r, fs[1..], trigger, runner, completed + {(r.id, fs[0].id, trigger)})
            else ResultsOf(r, fs[1..], trigger, runner, completed)
  {
  }

  lemma CompletedSplit(r: Resource, fs: seq<Finalizer>, trigger: Trigger)
    requires fs != []
    ensures CompletedBy(r, fs, trigger) ==
            (if trigger in fs[0].when then {(r.id, fs[0].id, trigger)} else {}) + CompletedBy(r, fs[1..], trigger)
  {
    assert forall f :: f in fs <==> f == fs[0] || f in fs[1..];
  }

  /** The finalizer of that resource is declared for the trigger. */
  ghost predicate Declares(resources: seq<Resource>, key: Key) {
    exists i, j | 0 <= i < |resources| && 0 <= j < |resources[i].finalizers| ::
      resources[i].id == key.0 && resources[i].finalizers[j].id == key.1 && key.2 in resources[i].finalizers[j].when
  }

  ghost predicate DistinctKeys(results: seq<FinalizerResult>) {
    forall i, j | 0 <= i < j < |results| :: KeyOf(results[i]) != KeyOf(results[j])
  }

  lemma {:induction false} KeysOfOne(r: Resource, fs: seq<Finalizer>, trigger: Trigger, runner: Runner, completed: set<Key>)
    ensures var rs := ResultsOf(r, fs, trigger, runner, completed);
            Keys(rs) == CompletedBy(r, fs, trigger) - completed && DistinctKeys(rs)
    decreases fs
  {
    if fs != [] {
      CompletedSplit(r, fs, trigger);
      ResultsSplit(r, fs, trigger, runner, completed);
      var key := (r.id, fs[0].id, trigger);
      if Due(r, fs[0], trigger, completed) {
        KeysOfOne(r, fs[1..], trigger, runner, completed + {key});
        KeysCons(RunOne(r, fs[0], trigger, runner), ResultsOf(r, fs[1..], trigger, runner, completed + {key}));
      } else {
        KeysOfOne(r, fs[1..], trigger, runner, completed);
      }
    }
  }

  lemma KeysCons(x: FinalizerResult, rest: seq<FinalizerResult>)
    ensures Keys([x] + rest) == {KeyOf(x)} + Keys(rest)
    ensures DistinctKeys(rest) && KeyOf(x) !in Keys(rest) ==> DistinctKeys([x] + rest)
  {
    assert forall r :: r in [x] + rest <==> r == x || r in rest;
    assert forall i | 0 <= i < |rest| :: KeyOf(rest[i]) in Keys(rest);
  }

  lemma SomeKey(rs: seq<FinalizerResult>)
    requires rs != []
    ensures Keys(rs) != {}
  {
    assert KeyOf(rs[0]) in Keys(rs);
  }

  lemma KeysAppend(a: seq<FinalizerResult>, b: seq<FinalizerResult>)
    ensures Keys(a + b) == Keys(a) + Keys(b)
    ensures DistinctKeys(a) && DistinctKeys(b) && Keys(a) !! Keys(b) ==> DistinctKeys(a + b)
  {
    assert forall r :: r in a + b <==> r in a || r in b;
    assert forall i | 0 <= i < |a| :: KeyOf(a[i]) in Keys(a);
    assert forall i | 0 <= i < |b| :: KeyOf(b[i]) in Keys(b);
  }

  /** What all the resources' declarations for a trigger amount to. */
  function AllCompleted(resources: seq<Resource>, trigger: Trigger): set<Key> {
    if resources == [] then {}
    else CompletedBy(resources[0], resources[0].finalizers, trigger) + AllCompleted(resources[1..], trigger)
  }

  lemma {:induction false} KeysOfAll(resources: seq<Resource>, trigger: Trigger, runner: Runner, completed: set<Key>)
    ensures var rs := Results(resources, trigger, runner, completed);
            && Keys(rs) == AllCompleted(resources, trigger) - completed
            && DistinctKeys(rs)
    decreases resources
  {
    if resources != [] {
      var r := resources[0];
      var here := CompletedBy(r, r.finalizers, trigger);
      var a := ResultsOf(r, r.finalizers, trigger, runner, completed);
      var b := Results(resources[1..], trigger, runner, completed + here);
      KeysOfOne(r, r.finalizers, trigger, runner, completed);
      KeysOfAll(resources[1..], trigger, runner, completed + here);
      KeysAppend(a, b);
    }
  }

  lemma {:induction false} AllCompletedIsDeclared(resources: seq<Resource>, key: Key)
    ensures key in AllCompleted(resources, key.2) <==> Declares(resources, key)
  {
    if resources != [] {
      AllCompletedIsDeclared(resources[1..], key);
      var r := resources[0];
      if key in CompletedBy(r, r.finalizers, key.2) {
        var f :| f in r.finalizers && key.2 in f.when && key == (r.id, f.id, key.2);
        var j :| 0 <= j < |r.finalizers| && r.finalizers[j] == f;
        assert resources[0].id == key.0;
      }
      if Declares(resources[1..], key) {
        var i, j :| 0 <= i < |resources[1..]| && 0 <= j < |resources[1..][i].finalizers|
          && resources[1..][i].id == key.0 && resources[1..][i].finalizers[j].id == key.1 && key.2 in resources[1..][i].finalizers[j].when;
        assert resources[i + 1] == resources[1..][i];
      }
      if Declares(resources, key) {
        var i, j :| 0 <= i < |resources| && 0 <= j < |resources[i].finalizers|
          && resources[i].id == key.0 && resources[i].finalizers[j].id == key.1 && key.2 in resources[i].finalizers[j].when;
        if i == 0 {
          assert r.finalizers[j] in r.finalizers;
        } else {
          assert resources[1..][i - 1] == resources[i];
        }
      }
    }
  }

  /** Closeout gives exactly one result to each finalizer declared for the
      trigger that has none yet, and to nothing else. */
  lemma OneResultPerFinalizer(resources: seq<Resource>, trigger: Trigger, runner: Runner, existing: seq<FinalizerResult>, key: Key)
    requires key.2 == trigger
    ensures var rs := Results(resources, trigger, runner, Keys(existing));
            && (key in Keys(rs) <==> Declares(resources, key) && key !in Keys(existing))
            && DistinctKeys(rs)
  {
    KeysOfAll(resources, trigger, runner, Keys(existing));
    AllCompletedIsDeclared(resources, key);
  }

  /** Closing out again with those results runs nothing. */
  lemma ClosingOutAgainIsIdle(resources: seq<Resource>, trigger: Trigger, runner: Runner, existing: seq<FinalizerResult>)
    ensures var rs := Results(resources, trigger, runner, Keys(existing));
            Results(resources, trigger, runner, Keys(existing + rs)) == []
  {
    var rs := Results(resources, trigger, runner, Keys(existing));
    KeysAppend(existing, rs);
    KeysOfAll(resources, trigger, runner, Keys(existing));
    var again := Results(resources, trigger, runner, Keys(existing + rs));
    KeysOfAll(resources, trigger, runner, Keys(existing + rs));
    if again != [] {
      SomeKey(again);
    }
  }

  /** `has_required_finalizer_failure`. */
  predicate RequiredFailure(results: seq<FinalizerResult>) {
    exists i | 0 <= i < |results| :: results[i].policy == Required && results[i].status == Failed
  }
}
