/** Status records (runtime.py with registry.py): at every moment of a run the
    records marked running and failed are one chain of nested steps, and they
    never disagree with the order in which they were written. */
module StatusRecords {
  import opened Json
  import opened Definition
  import opened Runtime
  import Controls

  /** What a reader of the run store sees after the given events. */
  function View(events: seq<Event>): map<string, Status> {
    if events == [] then map[]
    else
      var e := events[|events| - 1];
      var before := View(events[..|events| - 1]);
      if e.Wrote? then before[e.record.id := e.record.status] else before
  }

  /** The store itself: one upsert per write. */
  function UpsertAll(records: seq<Record>, events: seq<Event>): seq<Record> {
    if events == [] then records
    else
      var e := events[|events| - 1];
      var before := UpsertAll(records, events[..|events| - 1]);
      if e.Wrote? then Upsert(before, e.record) else before
  }

  /** All steps directly below a step. */
  function Inner(step: Value): seq<Value> {
    if IsIf(step) then
      (if Lists(step, "then") then step.fields["then"].items else [])
      + (if Lists(step, "else") then step.fields["else"].items else [])
    else if HasChildren(step) then step.fields[ChildKey(Get(step, "kind"))].items
    else []
  }

  /** A chain of ids, each naming a step directly inside the one before. */
  ghost predicate Nested(chain: seq<string>, steps: seq<Value>)
    decreases chain
  {
    chain == [] || exists i | 0 <= i < |steps| :: IdOf(steps[i]) == chain[0] && Nested(chain[1..], Inner(steps[i]))
  }

  /** The first `k` ids of the chain are running, the rest have failed, and
      nothing else has either status. */
  ghost predicate Marks(m: map<string, Status>, chain: seq<string>, k: nat)
    requires k <= |chain|
  {
    forall id: string ::
      && (id in m && m[id] == Running <==> id in chain[..k])
      && (id in m && m[id] == Status.Failed <==> id in chain[k..])
  }

  ghost predicate Moment(m: map<string, Status>, steps: seq<Value>) {
    exists chain: seq<string>, k: nat :: k <= |chain| && Nested(chain, steps) && Marks(m, chain, k)
  }

  /** The whole chain is running, and it ends in the given step. */
  ghost predicate Calling(m: map<string, Status>, steps: seq<Value>, id: string) {
    exists chain: seq<string> ::
      chain != [] && chain[|chain| - 1] == id && Nested(chain, steps) && Marks(m, chain, |chain|)
  }

  /** The marks after the events are a chain; after a call they are the chain of
      running steps that ends in the calling leaf. */
  ghost predicate WellPlaced(events: seq<Event>, steps: seq<Value>) {
    && Moment(View(events), steps)
    && (events != [] && events[|events| - 1].Called? ==> Calling(View(events), steps, events[|events| - 1].step))
  }

  /** Every moment of the events is well marked. */
  ghost predicate Steady(events: seq<Event>, steps: seq<Value>) {
    WellPlaced(events, steps) && (events == [] || Steady(events[..|events| - 1], steps))
  }

  lemma {:induction false} SteadyAtEveryMoment(events: seq<Event>, steps: seq<Value>, n: nat)
    requires Steady(events, steps) && n <= |events|
    ensures WellPlaced(events[..n], steps)
  {
    if n == |events| {
      assert events[..n] == events;
    } else {
      SteadyAtEveryMoment(events[..|events| - 1], steps, n);
      assert events[..|events| - 1][..n] == events[..n];
    }
  }

  ghost predicate AllSucceeded(m: map<string, Status>) {
    forall id | id in m :: m[id] == Succeeded
  }

  ghost predicate FailedChain(m: map<string, Status>, steps: seq<Value>) {
    exists chain: seq<string> :: Nested(chain, steps) && Marks(m, chain, 0)
  }

  /** What events say about the given steps, none of which had begun before. */
  ghost predicate WellMarked(events: seq<Event>, steps: seq<Value>, ids: seq<string>, failed: bool) {
    && (forall id | id in View(events) :: id in ids)
    && Steady(events, steps)
    && (if failed then FailedChain(View(events), steps) else AllSucceeded(View(events)))
  }

  /** The store saw exactly the events emitted between two states. */
  ghost predicate Logged(before: State, events: seq<Event>, after: State) {
    after.trace == before.trace + events && after.records == UpsertAll(before.records, events)
  }

  ghost predicate Emitted(before: State, events: seq<Event>, after: State, steps: seq<Value>, ids: seq<string>, failed: bool) {
    Logged(before, events, after) && WellMarked(events, steps, ids, failed)
  }

  // ------------------------------------------------------------------------
  // Views of concatenated events.
  // ------------------------------------------------------------------------

  lemma {:induction false} ViewAppend(a: seq<Event>, b: seq<Event>)
    ensures View(a + b) == View(a) + View(b)
  {
    if b == [] {
      assert a + b == a;
    } else {
      var c := b[..|b| - 1];
      ViewAppend(a, c);
      assert (a + b)[..|a + b| - 1] == a + c;
    }
  }

  lemma {:induction false} UpsertAppend(records: seq<Record>, a: seq<Event>, b: seq<Event>)
    ensures UpsertAll(records, a + b) == UpsertAll(UpsertAll(records, a), b)
  {
    if b == [] {
      assert a + b == a;
    } else {
      var c := b[..|b| - 1];
      UpsertAppend(records, a, c);
      assert (a + b)[..|a + b| - 1] == a + c;
    }
  }

  lemma ViewOne(e: Event)
    ensures View([e]) == if e.Wrote? then map[e.record.id := e.record.status] else map[]
  {
    assert [e][..0] == [];
    assert View([]) == map[];
  }

  lemma UpsertOne(records: seq<Record>, e: Event)
    ensures UpsertAll(records, [e]) == if e.Wrote? then Upsert(records, e.record) else records
  {
    assert [e][..0] == [];
    assert UpsertAll(records, []) == records;
  }

  lemma Quiet(steps: seq<Value>)
    ensures Moment(map[], steps) && FailedChain(map[], steps) && Steady([], steps)
  {
    var none: seq<string> := [];
    assert Nested(none, steps) && Marks(map[], none, 0);
    assert View([]) == map[];
  }

  lemma NestedGrows(chain: seq<string>, steps: seq<Value>, more: seq<Value>)
    requires Nested(chain, steps)
    requires forall s | s in steps :: s in more
    ensures Nested(chain, more)
  {
    if chain != [] {
      var i :| 0 <= i < |steps| && IdOf(steps[i]) == chain[0] && Nested(chain[1..], Inner(steps[i]));
      assert steps[i] in more;
      var j :| 0 <= j < |more| && more[j] == steps[i];
    }
  }

  /** Marks survive a history in which everything succeeded. */
  lemma AfterSuccess(done: map<string, Status>, m: map<string, Status>, steps: seq<Value>, more: seq<Value>)
    requires AllSucceeded(done)
    requires forall s | s in steps :: s in more
    ensures Moment(m, steps) ==> Moment(done + m, more)
    ensures FailedChain(m, steps) ==> FailedChain(done + m, more)
    ensures AllSucceeded(m) ==> AllSucceeded(done + m)
  {
    if Moment(m, steps) {
      var chain: seq<string>, k: nat :| k <= |chain| && Nested(chain, steps) && Marks(m, chain, k);
      NestedGrows(chain, steps, more);
      assert Marks(done + m, chain, k);
    }
    if FailedChain(m, steps) {
      var chain: seq<string> :| Nested(chain, steps) && Marks(m, chain, 0);
      NestedGrows(chain, steps, more);
      assert Marks(done + m, chain, 0);
    }
  }

  lemma CallingAfterSuccess(done: map<string, Status>, m: map<string, Status>, steps: seq<Value>, more: seq<Value>, id: string)
    requires AllSucceeded(done) && Calling(m, steps, id)
    requires forall s | s in steps :: s in more
    ensures Calling(done + m, more, id)
  {
    var chain: seq<string> :| chain != [] && chain[|chain| - 1] == id && Nested(chain, steps) && Marks(m, chain, |chain|);
    NestedGrows(chain, steps, more);
    assert Marks(done + m, chain, |chain|);
  }

  lemma {:induction false} SteadyMore(a: seq<Event>, aSteps: seq<Value>, steps: seq<Value>)
    requires Steady(a, aSteps)
    requires forall s | s in aSteps :: s in steps
    ensures Steady(a, steps)
  {
    AfterSuccess(map[], View(a), aSteps, steps);
    assert map[] + View(a) == View(a);
    if a != [] {
      SteadyMore(a[..|a| - 1], aSteps, steps);
      if a[|a| - 1].Called? {
        CallingAfterSuccess(map[], View(a), aSteps, steps, a[|a| - 1].step);
      }
    }
  }

  /** Events after a history in which everything succeeded. */
  lemma {:induction false} SteadyAppend(a: seq<Event>, b: seq<Event>, bSteps: seq<Value>, steps: seq<Value>)
    requires Steady(a, steps) && AllSucceeded(View(a)) && Steady(b, bSteps)
    requires forall s | s in bSteps :: s in steps
    ensures Steady(a + b, steps)
  {
    if b == [] {
      assert a + b == a;
    } else {
      SteadyAppend(a, b[..|b| - 1], bSteps, steps);
      assert (a + b)[..|a + b| - 1] == a + b[..|b| - 1];
      ViewAppend(a, b);
      AfterSuccess(View(a), View(b), bSteps, steps);
      if b[|b| - 1].Called? {
        CallingAfterSuccess(View(a), View(b), bSteps, steps, b[|b| - 1].step);
      }
    }
  }

  lemma LoggedThen(st: State, a: seq<Event>, mid: State, b: seq<Event>, after: State)
    requires Logged(st, a, mid) && Logged(mid, b, after)
    ensures Logged(st, a + b, after)
  {
    UpsertAppend(st.records, a, b);
  }

  lemma WellMarkedThen(a: seq<Event>, aSteps: seq<Value>, aIds: seq<string>,
                       b: seq<Event>, bSteps: seq<Value>, bIds: seq<string>, failed: bool,
                       steps: seq<Value>, ids: seq<string>)
    requires WellMarked(a, aSteps, aIds, false) && WellMarked(b, bSteps, bIds, failed)
    requires forall s | s in aSteps || s in bSteps :: s in steps
    requires forall id | id in aIds || id in bIds :: id in ids
    ensures WellMarked(a + b, steps, ids, failed)
  {
    SteadyMore(a, aSteps, steps);
    SteadyAppend(a, b, bSteps, steps);
    ViewAppend(a, b);
    AfterSuccess(View(a), View(b), bSteps, steps);
  }

  lemma EmittedThen(st: State, a: seq<Event>, mid: State, aSteps: seq<Value>, aIds: seq<string>,
                    b: seq<Event>, after: State, bSteps: seq<Value>, bIds: seq<string>, failed: bool,
                    steps: seq<Value>, ids: seq<string>)
    requires Emitted(st, a, mid, aSteps, aIds, false) && Emitted(mid, b, after, bSteps, bIds, failed)
    requires forall s | s in aSteps || s in bSteps :: s in steps
    requires forall id | id in aIds || id in bIds :: id in ids
    ensures Emitted(st, a + b, after, steps, ids, failed)
  {
    LoggedThen(st, a, mid, b, after);
    WellMarkedThen(a, aSteps, aIds, b, bSteps, bIds, failed, steps, ids);
  }

  lemma CheckIsSilent(env: Env, st: State, leaf: bool, refs: seq<string>, steps: seq<Value>, ids: seq<string>, failed: bool)
    returns (events: seq<Event>)
    ensures Emitted(st, events, EnforceControl(env, st, leaf, refs).1, steps, ids, failed)
  {
    Quiet(steps);
    var after := EnforceControl(env, st, leaf, refs).1;
    events := after.trace[|st.trace|..];
    if env.controlled {
      ViewOne(events[0]);
      UpsertOne(st.records, events[0]);
      assert forall n | 0 <= n <= 1 :: events[..n] == (if n == 0 then [] else events);
    }
  }

  // ------------------------------------------------------------------------
  // One step around others: running first, its verdict last.
  // ------------------------------------------------------------------------

  lemma NestedUnder(chain: seq<string>, step: Value, inner: seq<Value>)
    requires Nested(chain, inner)
    requires forall s | s in inner :: s in Inner(step)
    ensures Nested([IdOf(step)] + chain, [step])
  {
    NestedGrows(chain, inner, Inner(step));
    assert ([IdOf(step)] + chain)[1..] == chain && [step][0] == step;
  }

  lemma MarksUnder(m: map<string, Status>, chain: seq<string>, k: nat, id: string)
    requires k <= |chain| && Marks(m, chain, k) && id !in m
    ensures Marks(map[id := Running] + m, [id] + chain, k + 1)
    ensures k == 0 ==> Marks((map[id := Running] + m)[id := Status.Failed], [id] + chain, 0)
  {
    var longer := [id] + chain;
    assert longer[..k + 1] == [id] + chain[..k];
    assert longer[k + 1..] == chain[k..];
    if k == 0 {
      assert chain[0..] == chain && longer[0..] == longer && longer[..0] == [] && chain[..0] == [];
    }
  }

  lemma UnderRunning(m: map<string, Status>, step: Value, inner: seq<Value>)
    requires Moment(m, inner) && IdOf(step) !in m
    requires forall s | s in inner :: s in Inner(step)
    ensures Moment(map[IdOf(step) := Running] + m, [step])
  {
    var chain: seq<string>, k: nat :| k <= |chain| && Nested(chain, inner) && Marks(m, chain, k);
    NestedUnder(chain, step, inner);
    MarksUnder(m, chain, k, IdOf(step));
  }

  lemma CallingBy(m: map<string, Status>, steps: seq<Value>, chain: seq<string>, id: string)
    requires Nested(chain, steps) && Marks(m, chain, |chain|)
    requires chain != [] && chain[|chain| - 1] == id
    ensures Calling(m, steps, id)
  {
  }

  lemma UnderCalling(m: map<string, Status>, step: Value, inner: seq<Value>, id: string)
    requires Calling(m, inner, id) && IdOf(step) !in m
    requires forall s | s in inner :: s in Inner(step)
    ensures Calling(map[IdOf(step) := Running] + m, [step], id)
  {
    var chain: seq<string> :| chain != [] && chain[|chain| - 1] == id && Nested(chain, inner) && Marks(m, chain, |chain|);
    NestedUnder(chain, step, inner);
    MarksUnder(m, chain, |chain|, IdOf(step));
    CallingBy(map[IdOf(step) := Running] + m, [step], [IdOf(step)] + chain, id);
  }

  lemma UnderFailed(m: map<string, Status>, step: Value, inner: seq<Value>)
    requires FailedChain(m, inner) && IdOf(step) !in m
    requires forall s | s in inner :: s in Inner(step)
    ensures FailedChain((map[IdOf(step) := Running] + m)[IdOf(step) := Status.Failed], [step])
  {
    var chain: seq<string> :| Nested(chain, inner) && Marks(m, chain, 0);
    NestedUnder(chain, step, inner);
    MarksUnder(m, chain, 0, IdOf(step));
  }

  lemma FailedIsMoment(m: map<string, Status>, steps: seq<Value>)
    requires FailedChain(m, steps) || AllSucceeded(m)
    ensures Moment(m, steps)
  {
    if FailedChain(m, steps) {
      var chain: seq<string> :| Nested(chain, steps) && Marks(m, chain, 0);
    } else {
      var none: seq<string> := [];
      assert Nested(none, steps) && Marks(m, none, 0);
    }
  }

  lemma ViewAround(first: Event, inner: seq<Event>, last: Event)
    requires first.Wrote? && last.Wrote? && first.record.id == last.record.id
    ensures View([first] + inner) == map[first.record.id := first.record.status] + View(inner)
    ensures View([first] + inner + [last]) == View([first] + inner)[last.record.id := last.record.status]
  {
    ViewOne(first);
    ViewAppend([first], inner);
    var events := [first] + inner + [last];
    assert events[..|events| - 1] == [first] + inner;
  }

  /** What happens inside a step that is still running. */
  lemma {:induction false} SteadyInside(first: Event, inner: seq<Event>, step: Value, innerSteps: seq<Value>)
    requires first.Wrote? && first.record.id == IdOf(step) && first.record.status == Running
    requires Steady(inner, innerSteps) && IdOf(step) !in View(inner)
    requires forall s | s in innerSteps :: s in Inner(step)
    ensures Steady([first] + inner, [step])
  {
    ViewOne(first);
    ViewAppend([first], inner);
    UnderRunning(View(inner), step, innerSteps);
    if inner == [] {
      assert [first] + inner == [first] && [first][..0] == [];
      Quiet([step]);
    } else {
      ViewOfPrefix(inner, |inner| - 1);
      SteadyInside(first, inner[..|inner| - 1], step, innerSteps);
      assert ([first] + inner)[..|inner|] == [first] + inner[..|inner| - 1];
      if inner[|inner| - 1].Called? {
        UnderCalling(View(inner), step, innerSteps, inner[|inner| - 1].step);
      }
    }
  }

  lemma SteadySnoc(front: seq<Event>, e: Event, steps: seq<Value>)
    requires Steady(front, steps) && WellPlaced(front + [e], steps)
    ensures Steady(front + [e], steps)
  {
    assert (front + [e])[..|front + [e]| - 1] == front;
  }

  lemma WritePlaced(front: seq<Event>, e: Event, steps: seq<Value>)
    requires e.Wrote? && Moment(View(front + [e]), steps)
    ensures WellPlaced(front + [e], steps)
  {
    assert (front + [e])[|front + [e]| - 1] == e;
  }

  lemma CallPlaced(front: seq<Event>, e: Event, steps: seq<Value>)
    requires e.Called? && Moment(View(front + [e]), steps) && Calling(View(front + [e]), steps, e.step)
    ensures WellPlaced(front + [e], steps)
  {
    assert (front + [e])[|front + [e]| - 1] == e;
  }

  lemma SteadyAround(first: Event, inner: seq<Event>, last: Event, step: Value, innerSteps: seq<Value>)
    requires first.Wrote? && first.record.id == IdOf(step) && first.record.status == Running && last.Wrote?
    requires Steady(inner, innerSteps) && IdOf(step) !in View(inner)
    requires forall s | s in innerSteps :: s in Inner(step)
    requires Moment(View([first] + inner + [last]), [step])
    ensures Steady([first] + inner + [last], [step])
  {
    SteadyInside(first, inner, step, innerSteps);
    WritePlaced([first] + inner, last, [step]);
    SteadySnoc([first] + inner, last, [step]);
  }

  /** The verdict a step ends with, over what happened inside it. */
  lemma VerdictAround(first: Event, inner: seq<Event>, last: Event, step: Value, innerSteps: seq<Value>, failed: bool)
    requires first.Wrote? && first.record.id == IdOf(step) && first.record.status == Running
    requires last.Wrote? && last.record.id == IdOf(step)
    requires last.record.status == if failed then Status.Failed else Succeeded
    requires IdOf(step) !in View(inner)
    requires forall s | s in innerSteps :: s in Inner(step)
    requires if failed then FailedChain(View(inner), innerSteps) else AllSucceeded(View(inner))
    ensures if failed then FailedChain(View([first] + inner + [last]), [step]) else AllSucceeded(View([first] + inner + [last]))
  {
    ViewAround(first, inner, last);
    if failed {
      UnderFailed(View(inner), step, innerSteps);
    }
  }

  lemma ViewOfPrefix(events: seq<Event>, n: nat)
    requires n <= |events|
    ensures View(events[..n]).Keys <= View(events).Keys
  {
    assert events == events[..n] + events[n..];
    ViewAppend(events[..n], events[n..]);
  }

  lemma WellMarkedAround(first: Event, inner: seq<Event>, last: Event, step: Value,
                         innerSteps: seq<Value>, innerIds: seq<string>, failed: bool)
    requires first.Wrote? && first.record.id == IdOf(step) && first.record.status == Running
    requires last.Wrote? && last.record.id == IdOf(step)
    requires last.record.status == if failed then Status.Failed else Succeeded
    requires WellMarked(inner, innerSteps, innerIds, failed) && IdOf(step) !in innerIds
    requires forall s | s in innerSteps :: s in Inner(step)
    requires forall id | id in innerIds :: id in IdsOf(step)
    ensures WellMarked([first] + inner + [last], [step], IdsOf(step), failed)
  {
    VerdictAround(first, inner, last, step, innerSteps, failed);
    FailedIsMoment(View([first] + inner + [last]), [step]);
    SteadyAround(first, inner, last, step, innerSteps);
    ViewAround(first, inner, last);
    assert IdsOf(step)[0] == IdOf(step);
  }

  /** A step that writes `running`, runs `inner`, then writes its verdict. */
  lemma EmittedAround(st: State, step: Value, r0: Record, inner: seq<Event>, mid: State, innerSteps: seq<Value>, innerIds: seq<string>,
                      r1: Record, after: State, failed: bool)
    returns (events: seq<Event>)
    requires r0.id == r1.id == IdOf(step) && r0.status == Running && r1.status == if failed then Status.Failed else Succeeded
    requires Emitted(st.(records := Upsert(st.records, r0), trace := st.trace + [Wrote(r0)]), inner, mid, innerSteps, innerIds, failed)
    requires IdOf(step) !in innerIds
    requires forall s | s in innerSteps :: s in Inner(step)
    requires forall id | id in innerIds :: id in IdsOf(step)
    requires after.trace == mid.trace + [Wrote(r1)] && after.records == Upsert(mid.records, r1)
    ensures Emitted(st, events, after, [step], IdsOf(step), failed)
  {
    var e0, e1 := Wrote(r0), Wrote(r1);
    var st0 := st.(records := Upsert(st.records, r0), trace := st.trace + [e0]);
    UpsertOne(st.records, e0);
    UpsertOne(mid.records, e1);
    LoggedThen(st, [e0], st0, inner, mid);
    LoggedThen(st, [e0] + inner, mid, [e1], after);
    events := [e0] + inner + [e1];
    WellMarkedAround(e0, inner, e1, step, innerSteps, innerIds, failed);
  }

  // ------------------------------------------------------------------------
  // Distinct ids.
  // ------------------------------------------------------------------------

  lemma DistinctSplit(a: seq<string>, b: seq<string>)
    requires Distinct(a + b)
    ensures Distinct(a) && Distinct(b)
    ensures forall id | id in a :: id !in b
  {
    assert forall i | 0 <= i < |a| :: (a + b)[i] == a[i];
    assert forall i | 0 <= i < |b| :: (a + b)[|a| + i] == b[i];
  }

  /** The steps below a step under one key have distinct ids, other than its own. */
  lemma DistinctInner(step: Value, key: string)
    requires Distinct(IdsOf(step)) && Lists(step, key)
    requires (IsIf(step) && (key == "then" || key == "else")) || (IsContainer(Get(step, "kind")) && key == ChildKey(Get(step, "kind")))
    ensures Distinct(IdsIn(step.fields[key].items))
    ensures IdOf(step) !in IdsIn(step.fields[key].items)
    ensures forall id | id in IdsIn(step.fields[key].items) :: id in IdsOf(step)
    ensures forall s | s in step.fields[key].items :: s in Inner(step)
  {
    var a := if IsIf(step) && Lists(step, "then") then IdsIn(step.fields["then"].items) else [];
    var b := if IsIf(step) && Lists(step, "else") then IdsIn(step.fields["else"].items) else [];
    var c := if HasChildren(step) then IdsIn(step.fields[ChildKey(Get(step, "kind"))].items) else [];
    assert IdsOf(step) == [IdOf(step)] + a + b + c;
    DistinctSplit([IdOf(step)] + a + b, c);
    DistinctSplit([IdOf(step)] + a, b);
    DistinctSplit([IdOf(step)], a);
    assert IdOf(step) in [IdOf(step)] && IdOf(step) in [IdOf(step)] + a && IdOf(step) in [IdOf(step)] + a + b;
  }

  // ------------------------------------------------------------------------
  // The walk.
  // ------------------------------------------------------------------------

  /** A leaf alone: running, calling, and its verdict. */
  lemma LeafIsWellMarked(e0: Event, call: Event, e1: Event, step: Value, failed: bool)
    requires e0.Wrote? && e0.record.id == IdOf(step) && e0.record.status == Running
    requires call.Called? && call.step == IdOf(step)
    requires e1.Wrote? && e1.record.id == IdOf(step) && e1.record.status == if failed then Status.Failed else Succeeded
    requires IdsOf(step) == [IdOf(step)]
    ensures WellMarked([e0, call, e1], [step], IdsOf(step), failed)
  {
    LeafViews(e0, call, e1);
    LeafMarks(step);
    FailedIsMoment(View([e0, call, e1]), [step]);
    LeafIsSteady(e0, call, e1, step);
  }

  lemma LeafCalls(e0: Event, call: Event, step: Value)
    requires e0.Wrote? && e0.record.id == IdOf(step) && e0.record.status == Running
    requires call.Called? && call.step == IdOf(step)
    ensures Steady([e0] + [call], [step])
  {
    Quiet([step]);
    LeafMarks(step);
    ViewOne(e0);
    ViewOne(call);
    ViewAppend([e0], [call]);
    assert [] + [e0] == [e0];
    WritePlaced([], e0, [step]);
    SteadySnoc([], e0, [step]);
    CallPlaced([e0], call, [step]);
    SteadySnoc([e0], call, [step]);
  }

  lemma LeafIsSteady(e0: Event, call: Event, e1: Event, step: Value)
    requires e0.Wrote? && e0.record.id == IdOf(step) && e0.record.status == Running
    requires call.Called? && call.step == IdOf(step) && e1.Wrote?
    requires Moment(View([e0, call, e1]), [step])
    ensures Steady([e0, call, e1], [step])
  {
    LeafCalls(e0, call, step);
    assert [e0] + [call] + [e1] == [e0, call, e1];
    WritePlaced([e0] + [call], e1, [step]);
    SteadySnoc([e0] + [call], e1, [step]);
  }

  lemma LeafViews(e0: Event, call: Event, e1: Event)
    requires e0.Wrote? && call.Called? && e1.Wrote? && e0.record.id == e1.record.id
    ensures View([e0]) == View([e0, call]) == map[e0.record.id := e0.record.status]
    ensures View([e0, call, e1]) == map[e0.record.id := e1.record.status]
  {
    ViewOne(e0);
    assert [e0, call][..1] == [e0] && [e0, call, e1][..2] == [e0, call];
  }

  lemma LeafMarks(step: Value)
    ensures var id := IdOf(step);
            && Moment(map[id := Running], [step]) && Calling(map[id := Running], [step], id)
            && FailedChain(map[id := Status.Failed], [step])
  {
    var id := IdOf(step);
    var none: seq<string> := [];
    assert [id][1..] == none && Nested(none, Inner(step)) && [step][0] == step;
    assert Nested([id], [step]);
    assert [id][..1] == [id] && [id][1..] == [] && [id][..0] == [] && [id][0..] == [id];
    assert Marks(map[id := Running], [id], 1) && Marks(map[id := Status.Failed], [id], 0);
  }

  lemma EffectEmits(step: Value, kanban: bool, agent: Value, payload: Value, env: Env, st: State)
    returns (events: seq<Event>)
    requires IdsOf(step) == [IdOf(step)]
    ensures var (out, after) := ExecEffect(step, kanban, agent, payload, env, st);
            Emitted(st, events, after, [step], IdsOf(step), out.Failed?)
  {
    Quiet([step]);
    events := [];
    if Get(step, "id").Str? {
      var (out, after) := ExecEffect(step, kanban, agent, payload, env, st);
      var id := IdOf(step);
      var r1 := Record(id, if out.Failed? then Status.Failed else Succeeded, if out.Done? then out.out else Null);
      var e0, call, e1 := Wrote(Record(id, Running, Null)), Called(id, kanban, agent, payload), Wrote(r1);
      var st1 := Write(st, id, Running, Null);
      var mid := st1.(calls := st1.calls + 1, trace := st1.trace + [call]);
      UpsertOne(st.records, e0);
      UpsertOne(st1.records, call);
      UpsertOne(mid.records, e1);
      LoggedThen(st, [e0], st1, [call], mid);
      LoggedThen(st, [e0] + [call], mid, [e1], after);
      events := [e0] + [call] + [e1];
      assert events == [e0, call, e1];
      LeafIsWellMarked(e0, call, e1, step, out.Failed?);
    }
  }

  lemma AdmitIsSilent(step: Value, kanban: bool, profile: Value, env: Env, st: State, failed: bool)
    returns (events: seq<Event>)
    ensures Emitted(st, events, Admit(step, kanban, profile, env, st).1, [step], IdsOf(step), failed)
  {
    events := CheckIsSilent(env, st, true, ControlRefs(step), [step], IdsOf(step), failed);
  }

  lemma CallAgentEmits(step: Value, env: Env, st: State) returns (events: seq<Event>)
    requires IdsOf(step) == [IdOf(step)]
    ensures var (out, after) := CallAgent(step, env, st); Emitted(st, events, after, [step], IdsOf(step), out.Failed?)
  {
    Quiet([step]);
    events := [];
    var input := EffectInput(step, env, st);
    if input.Some? {
      events := EffectEmits(step, false, Get(step, "agent"), input.value, env, st);
    }
  }

  lemma CallKanbanEmits(step: Value, env: Env, st: State) returns (events: seq<Event>)
    requires IdsOf(step) == [IdOf(step)]
    ensures var (out, after) := CallKanban(step, env, st); Emitted(st, events, after, [step], IdsOf(step), out.Failed?)
  {
    Quiet([step]);
    events := [];
    var task := Resolve(if Has(step, "task") then Get(step, "task") else Dict(map[]), env.inputs, st.outputs);
    var input := EffectInput(step, env, st);
    if task.Some? && input.Some? && Get(step, "profile").Str? {
      events := EffectEmits(step, true, Str("kanban." + Get(step, "profile").s), KanbanPayload(step, task.value, input.value), env, st);
    }
  }

  lemma AdmittedEmits(step: Value, kanban: bool, profile: Value, env: Env, st: State, call: seq<Event>, after: State, failed: bool)
    returns (events: seq<Event>)
    requires Emitted(Admit(step, kanban, profile, env, st).1, call, after, [step], IdsOf(step), failed)
    ensures Emitted(st, events, after, [step], IdsOf(step), failed)
  {
    var a := AdmitIsSilent(step, kanban, profile, env, st, false);
    EmittedThen(st, a, Admit(step, kanban, profile, env, st).1, [step], IdsOf(step), call, after, [step], IdsOf(step), failed, [step], IdsOf(step));
    events := a + call;
  }

  lemma AgentEmits(step: Value, env: Env, st: State) returns (events: seq<Event>)
    requires IdsOf(step) == [IdOf(step)]
    ensures var (out, after) := ExecAgent(step, env, st); Emitted(st, events, after, [step], IdsOf(step), out.Failed?)
  {
    Quiet([step]);
    events := [];
    if Has(step, "agent") {
      var (failure, st1) := Admit(step, false, Null, env, st);
      if failure.Some? {
        events := AdmitIsSilent(step, false, Null, env, st, true);
      } else {
        var (out, after) := CallAgent(step, env, st1);
        var call := CallAgentEmits(step, env, st1);
        events := AdmittedEmits(step, false, Null, env, st, call, after, out.Failed?);
      }
    }
  }

  lemma KanbanEmits(step: Value, env: Env, st: State) returns (events: seq<Event>)
    requires IdsOf(step) == [IdOf(step)]
    ensures var (out, after) := ExecKanban(step, env, st); Emitted(st, events, after, [step], IdsOf(step), out.Failed?)
  {
    Quiet([step]);
    events := [];
    if Has(step, "profile") {
      var profile := Get(step, "profile");
      var (failure, st1) := Admit(step, true, profile, env, st);
      if failure.Some? {
        events := AdmitIsSilent(step, true, profile, env, st, true);
      } else {
        var (out, after) := CallKanban(step, env, st1);
        var call := CallKanbanEmits(step, env, st1);
        events := AdmittedEmits(step, true, profile, env, st, call, after, out.Failed?);
      }
    }
  }

  lemma {:induction false} StepEmits(step: Value, env: Env, st: State) returns (events: seq<Event>)
    requires Distinct(IdsOf(step))
    ensures var (out, after) := ExecStep(step, env, st);
            Emitted(st, events, after, [step], IdsOf(step), out.Failed?)
    decreases step, 2
  {
    Quiet([step]);
    events := [];
    if step.Dict? && CheckDependsOn(step, st.outputs).None? {
      var kind := Get(step, "kind");
      if kind == Str("agent") {
        events := AgentEmits(step, env, st);
      } else if kind == Str("kanban_agent") {
        events := KanbanEmits(step, env, st);
      } else if kind == Str("parallel") {
        events := ParallelEmits(step, env, st);
      } else if kind == Str("pipeline") || kind == Str("phase") {
        events := SequenceContainerEmits(step, env, st);
      } else if kind == Str("if") {
        events := IfEmits(step, env, st);
      }
    }
  }

  lemma {:induction false} SequenceEmits(steps: seq<Value>, env: Env, st: State) returns (events: seq<Event>)
    requires Distinct(IdsIn(steps))
    ensures var (failure, after) := ExecSequence(steps, env, st);
            Emitted(st, events, after, steps, IdsIn(steps), failure.Some?)
    decreases steps, 0
  {
    Quiet(steps);
    events := [];
    if steps != [] {
      var (code, st1) := EnforceControl(env, st, false, []);
      events := CheckIsSilent(env, st, false, [], steps, IdsIn(steps), code != Controls.Allowed);
      if code == Controls.Allowed {
        var ids := IdsIn(steps);
        DistinctSplit(IdsOf(steps[0]), IdsIn(steps[1..]));
        var (out, st2) := ExecStep(steps[0], env, st1);
        var b := StepEmits(steps[0], env, st1);
        EmittedThen(st, events, st1, steps, ids, b, st2, [steps[0]], IdsOf(steps[0]), out.Failed?, steps, ids);
        events := events + b;
        if out.Done? {
          var c := SequenceEmits(steps[1..], env, st2);
          var (failure, after) := ExecSequence(steps[1..], env, st2);
          EmittedThen(st, events, st2, steps, ids, c, after, steps[1..], IdsIn(steps[1..]), failure.Some?, steps, ids);
          events := events + c;
        }
      }
    }
  }

  lemma {:induction false} BranchesEmit(branches: seq<Value>, joined: map<string, Value>, env: Env, st: State) returns (events: seq<Event>)
    requires Distinct(IdsIn(branches))
    ensures var (r, after) := ExecBranches(branches, joined, env, st);
            Emitted(st, events, after, branches, IdsIn(branches), r.Err?)
    decreases branches, 0
  {
    Quiet(branches);
    events := [];
    if branches != [] {
      var ids := IdsIn(branches);
      DistinctSplit(IdsOf(branches[0]), IdsIn(branches[1..]));
      var (out, st1) := ExecStep(branches[0], env, st);
      events := StepEmits(branches[0], env, st);
      var none: seq<Event> := [];
      assert Emitted(st, none, st, branches, ids, false);
      EmittedThen(st, none, st, branches, ids, events, st1, [branches[0]], IdsOf(branches[0]), out.Failed?, branches, ids);
      events := none + events;
      if out.Done? {
        var joined' := joined[IdOf(branches[0]) := out.out];
        var c := BranchesEmit(branches[1..], joined', env, st1);
        var (r, after) := ExecBranches(branches[1..], joined', env, st1);
        EmittedThen(st, events, st1, branches, ids, c, after, branches[1..], IdsIn(branches[1..]), r.Err?, branches, ids);
        events := events + c;
      }
    }
  }

  lemma {:induction false} ParallelEmits(step: Value, env: Env, st: State) returns (events: seq<Event>)
    requires Distinct(IdsOf(step)) && Get(step, "kind") == Str("parallel")
    ensures var (out, after) := ExecParallel(step, env, st);
            Emitted(st, events, after, [step], IdsOf(step), out.Failed?)
    decreases step, 1
  {
    Quiet([step]);
    events := [];
    var (out, after) := ExecParallel(step, env, st);
    if after != st {
      DistinctInner(step, "branches");
      var items := step.fields["branches"].items;
      var id := IdOf(step);
      var inner := BranchesEmit(items, map[], env, Write(st, id, Running, Null));
      var (joined, mid) := ExecBranches(items, map[], env, Write(st, id, Running, Null));
      events := EmittedAround(st, step, Record(id, Running, Null), inner, mid, items, IdsIn(items),
                              Record(id, if out.Failed? then Status.Failed else Succeeded, if out.Done? then out.out else Null),
                              after, out.Failed?);
    }
  }

  lemma {:induction false} SequenceContainerEmits(step: Value, env: Env, st: State) returns (events: seq<Event>)
    requires Distinct(IdsOf(step)) && (Get(step, "kind") == Str("pipeline") || Get(step, "kind") == Str("phase"))
    ensures var (out, after) := if Get(step, "kind") == Str("pipeline") then ExecPipeline(step, env, st) else ExecPhase(step, env, st);
            Emitted(st, events, after, [step], IdsOf(step), out.Failed?)
    decreases step, 1
  {
    Quiet([step]);
    events := [];
    if Get(step, "id").Str? {
      var id := IdOf(step);
      var (out, after) := if Get(step, "kind") == Str("pipeline") then ExecPipeline(step, env, st) else ExecPhase(step, env, st);
      var st0 := Write(st, id, Running, Null);
      var mid, items, inner := st0, [], [];
      Quiet([]);
      if Lists(step, "steps") {
        DistinctInner(step, "steps");
        items := step.fields["steps"].items;
        inner := SequenceEmits(items, env, st0);
        mid := ExecSequence(items, env, st0).1;
      }
      events := EmittedAround(st, step, Record(id, Running, Null), inner, mid, items, IdsIn(items),
                              Record(id, if out.Failed? then Status.Failed else Succeeded, if out.Done? then out.out else Null),
                              after, out.Failed?);
    }
  }

  lemma {:induction false} IfEmits(step: Value, env: Env, st: State) returns (events: seq<Event>)
    requires Distinct(IdsOf(step)) && IsIf(step)
    ensures var (out, after) := ExecIf(step, env, st);
            Emitted(st, events, after, [step], IdsOf(step), out.Failed?)
    decreases step, 1
  {
    Quiet([step]);
    events := [];
    if Get(step, "id").Str? {
      var id := IdOf(step);
      var (out, after) := ExecIf(step, env, st);
      var st0 := Write(st, id, Running, Null);
      var mid, items, inner := st0, [], [];
      Quiet([]);
      if Has(step, "condition") {
        var test := EvalCondition(Get(step, "condition"), env, st0);
        var key := if test.Ok? && test.value then "then" else "else";
        if test.Ok? && Truthy(Get(step, key)) && Lists(step, key) {
          DistinctInner(step, key);
          items := step.fields[key].items;
          inner := SequenceEmits(items, env, st0);
          mid := ExecSequence(items, env, st0).1;
        }
      }
      events := EmittedAround(st, step, Record(id, Running, Null), inner, mid, items, IdsIn(items),
                              Record(id, if out.Failed? then Status.Failed else Succeeded, if out.Done? then out.out else Null),
                              after, out.Failed?);
    }
  }

  /** At every moment of a run, the running records are the outer part and the
      failed records the inner part of one chain of nested steps; whenever the
      runner is called all of it is running and it ends in the calling leaf; a run
      that returns leaves every record succeeded, and one that raises leaves none
      running. */
  lemma RunsAreWellMarked(definition: Value, env: Env)
    requires Distinct(IdsIn(Steps(definition)))
    ensures var (failure, after) := Execute(definition, env);
            && (forall n | 0 <= n <= |after.trace| :: WellPlaced(after.trace[..n], Steps(definition)))
            && (failure.None? ==> AllSucceeded(View(after.trace)))
            && (failure.Some? ==> FailedChain(View(after.trace), Steps(definition)))
  {
    var events := SequenceEmits(Steps(definition), env, FRESH);
    assert FRESH.trace + events == events;
    forall n | 0 <= n <= |events| ensures WellPlaced(events[..n], Steps(definition)) {
      SteadyAtEveryMoment(events, Steps(definition), n);
    }
  }

  // ------------------------------------------------------------------------
  // The store agrees with the writes.
  // ------------------------------------------------------------------------

  /** Where a record with the id is, or the end. */
  function Position(records: seq<Record>, id: string): (p: nat)
    ensures p <= |records|
    ensures p < |records| ==> records[p].id == id
    ensures forall i | 0 <= i < p :: records[i].id != id
  {
    if records == [] || records[0].id == id then 0 else 1 + Position(records[1..], id)
  }

  lemma {:induction false} UpsertAt(records: seq<Record>, r: Record)
    ensures var p := Position(records, r.id);
            Upsert(records, r) == if p < |records| then records[p := r] else records + [r]
  {
    if records != [] && records[0].id != r.id {
      UpsertAt(records[1..], r);
    }
  }

  /** The store has one record for each id written, holding its last status. */
  ghost predicate Holds(records: seq<Record>, m: map<string, Status>) {
    && (forall i | 0 <= i < |records| :: Position(records, records[i].id) == i)
    && (forall id :: id in m <==> Position(records, id) < |records|)
    && (forall id | id in m :: records[Position(records, id)].status == m[id])
  }

  lemma {:induction false} PositionIs(records: seq<Record>, id: string, p: nat)
    requires p < |records| && records[p].id == id && forall i | 0 <= i < p :: records[i].id != id
    ensures Position(records, id) == p
  {
    var q := Position(records, id);
    assert q <= p;
  }

  /** An upsert moves no record. */
  lemma PositionAfterUpsert(records: seq<Record>, r: Record, id: string)
    ensures var after := Upsert(records, r);
            Position(after, id) == if id == r.id || Position(records, id) < |records| then Position(records, id) else |after|
  {
    UpsertAt(records, r);
    var after := Upsert(records, r);
    var p := Position(records, id);
    if id == r.id || p < |records| {
      PositionIs(after, id, p);
    } else {
      var q := Position(after, id);
      assert q < |after| ==> after[q].id == id;
      assert forall i | 0 <= i < |records| :: records[i].id != id;
    }
  }

  lemma UpsertKeepsOne(records: seq<Record>, r: Record)
    requires forall i | 0 <= i < |records| :: Position(records, records[i].id) == i
    ensures var after := Upsert(records, r); forall i | 0 <= i < |after| :: Position(after, after[i].id) == i
  {
    UpsertAt(records, r);
    var after := Upsert(records, r);
    forall i | 0 <= i < |after| ensures Position(after, after[i].id) == i {
      PositionAfterUpsert(records, r, after[i].id);
      if i < |records| {
        assert Position(records, records[i].id) == i;
      }
    }
  }

  lemma UpsertHoldsAt(records: seq<Record>, r: Record, id: string)
    ensures var after := Upsert(records, r);
            && (Position(after, id) < |after| <==> id == r.id || Position(records, id) < |records|)
            && (Position(after, id) < |after| ==>
                  after[Position(after, id)].status == if id == r.id then r.status else records[Position(records, id)].status)
  {
    UpsertAt(records, r);
    PositionAfterUpsert(records, r, id);
  }

  lemma UpsertHolds(records: seq<Record>, m: map<string, Status>, r: Record)
    requires Holds(records, m)
    ensures Holds(Upsert(records, r), m[r.id := r.status])
  {
    UpsertKeepsOne(records, r);
    var after, m' := Upsert(records, r), m[r.id := r.status];
    forall id ensures id in m' <==> Position(after, id) < |after| {
      UpsertHoldsAt(records, r, id);
    }
    forall id | id in m' ensures after[Position(after, id)].status == m'[id] {
      UpsertHoldsAt(records, r, id);
    }
  }

  lemma {:induction false} StoreHoldsView(events: seq<Event>)
    ensures Holds(UpsertAll([], events), View(events))
  {
    if events != [] {
      var e := events[|events| - 1];
      var front := events[..|events| - 1];
      StoreHoldsView(front);
      if e.Wrote? {
        UpsertHolds(UpsertAll([], front), View(front), e.record);
      }
    }
  }

  /** The registry a run leaves behind has one record per step that started,
      each with the last status written for it. */
  lemma RegistryIsTheLastWrite(definition: Value, env: Env)
    requires Distinct(IdsIn(Steps(definition)))
    ensures var (failure, after) := Execute(definition, env);
            Holds(after.records, View(after.trace))
  {
    var events := SequenceEmits(Steps(definition), env, FRESH);
    assert FRESH.trace + events == events;
    StoreHoldsView(events);
  }
}
