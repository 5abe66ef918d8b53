/** What `_waiting_kanban_count` (runtime.py) counts: the most Kanban waits that
    can be active at once when parallel branches interleave freely, and why the
    outermost guard is the only one that matters. */
module AwaitBound {
  import opened Json
  import opened Definition
  import opened Runtime
  import Controls

  /** A step in progress, with any interleaving of parallel branches. */
  datatype Progress =
    | NotStarted(step: Value)
    | Active(leaf: Value)
    | Parallel(branches: seq<Progress>)
    | Sequence(current: Progress, rest: seq<Value>)
    | Finished

  function Begin(steps: seq<Value>): Progress {
    if steps == [] then Finished else Sequence(NotStarted(steps[0]), steps[1..])
  }

  function Fork(steps: seq<Value>): seq<Progress> {
    seq(|steps|, i requires 0 <= i < |steps| => NotStarted(steps[i]))
  }

  /** The list an `if` may run: its `then`, its `else`, or nothing. */
  predicate MayTake(step: Value, taken: seq<Value>) {
    || (Lists(step, "then") && taken == step.fields["then"].items)
    || (if Lists(step, "else") then taken == step.fields["else"].items else taken == [])
  }

  ghost predicate Starts(step: Value, after: Progress) {
    var kind := Get(step, "kind");
    if IsEffect(kind) then after == Active(step)
    else if kind == Str("parallel") then Lists(step, "branches") && after == Parallel(Fork(step.fields["branches"].items))
    else if IsContainer(kind) then Lists(step, "steps") && after == Begin(step.fields["steps"].items)
    else if IsIf(step) then exists taken: seq<Value> :: MayTake(step, taken) && after == Begin(taken)
    else false
  }

  ghost predicate Next(p: Progress, q: Progress)
    decreases p
  {
    match p
    case NotStarted(step) => Starts(step, q)
    case Active(_) => q == Finished
    case Parallel(bs) =>
      || (q == Finished && forall i | 0 <= i < |bs| :: bs[i] == Finished)
      || (exists i, b | 0 <= i < |bs| :: Next(bs[i], b) && q == Parallel(bs[i := b]))
    case Sequence(c, rest) =>
      || (c == Finished && q == Begin(rest))
      || (exists c' :: Next(c, c') && q == Sequence(c', rest))
    case Finished => false
  }

  ghost predicate ReachesIn(p: Progress, q: Progress, n: nat)
    decreases n
  {
    if n == 0 then p == q else exists m :: Next(p, m) && ReachesIn(m, q, n - 1)
  }

  ghost predicate Reaches(p: Progress, q: Progress) {
    exists n: nat :: ReachesIn(p, q, n)
  }

  /** How many Kanban leaves are being awaited right now. */
  function Waits(p: Progress): nat
    decreases p
  {
    match p
    case Active(leaf) => WaitingCount(leaf)
    case Parallel(bs) => WaitsInAll(bs)
    case Sequence(c, _) => Waits(c)
    case _ => 0
  }

  function WaitsInAll(bs: seq<Progress>): nat
    decreases bs
  {
    if bs == [] then 0 else Waits(bs[0]) + WaitsInAll(bs[1..])
  }

  // ------------------------------------------------------------------------
  // Never more than counted.
  // ------------------------------------------------------------------------

  /** The most waits a step in progress can still reach. */
  function Bound(p: Progress): nat
    decreases p
  {
    match p
    case NotStarted(step) => WaitingCount(step)
    case Active(leaf) => WaitingCount(leaf)
    case Parallel(bs) => BoundOfAll(bs)
    case Sequence(c, rest) => Max(Bound(c), MaxWaiting(rest))
    case Finished => 0
  }

  function BoundOfAll(bs: seq<Progress>): nat
    decreases bs
  {
    if bs == [] then 0 else Bound(bs[0]) + BoundOfAll(bs[1..])
  }

  lemma {:induction false} WaitsWithinBound(p: Progress)
    ensures Waits(p) <= Bound(p)
    decreases p
  {
    match p
    case Parallel(bs) => AllWaitsWithinBound(bs);
    case Sequence(c, _) => WaitsWithinBound(c);
    case _ =>
  }

  lemma {:induction false} AllWaitsWithinBound(bs: seq<Progress>)
    ensures WaitsInAll(bs) <= BoundOfAll(bs)
    decreases bs
  {
    if bs != [] {
      WaitsWithinBound(bs[0]);
      AllWaitsWithinBound(bs[1..]);
    }
  }

  lemma BoundOfBegin(steps: seq<Value>)
    ensures Bound(Begin(steps)) == MaxWaiting(steps)
  {
  }

  lemma {:induction false} BoundOfFork(steps: seq<Value>)
    ensures BoundOfAll(Fork(steps)) == SumWaiting(steps)
  {
    if steps != [] {
      BoundOfFork(steps[1..]);
      assert Fork(steps)[1..] == Fork(steps[1..]);
    }
  }

  lemma {:induction false} BoundOfUpdate(bs: seq<Progress>, i: nat, b: Progress)
    requires i < |bs|
    ensures BoundOfAll(bs[i := b]) == BoundOfAll(bs) - Bound(bs[i]) + Bound(b)
  {
    if i > 0 {
      BoundOfUpdate(bs[1..], i - 1, b);
      assert bs[i := b][1..] == bs[1..][i - 1 := b];
    } else {
      assert bs[0 := b][1..] == bs[1..];
    }
  }

  lemma {:induction false} StepsNeverRaiseTheBound(p: Progress, q: Progress)
    requires Next(p, q)
    ensures Bound(q) <= Bound(p)
    decreases p
  {
    match p
    case NotStarted(step) =>
      if Get(step, "kind") == Str("parallel") {
        BoundOfFork(step.fields["branches"].items);
      } else if IsContainer(Get(step, "kind")) {
        BoundOfBegin(step.fields["steps"].items);
      } else if IsIf(step) {
        var taken: seq<Value> :| MayTake(step, taken) && q == Begin(taken);
        BoundOfBegin(taken);
      }
    case Parallel(bs) =>
      if q != Finished {
        var i, b :| 0 <= i < |bs| && Next(bs[i], b) && q == Parallel(bs[i := b]);
        StepsNeverRaiseTheBound(bs[i], b);
        BoundOfUpdate(bs, i, b);
      }
    case Sequence(c, rest) =>
      if c == Finished && q == Begin(rest) {
        BoundOfBegin(rest);
      } else {
        var c' :| Next(c, c') && q == Sequence(c', rest);
        StepsNeverRaiseTheBound(c, c');
      }
    case _ =>
  }

  lemma {:induction false} BoundAlongRuns(p: Progress, q: Progress, n: nat)
    requires ReachesIn(p, q, n)
    ensures Waits(q) <= Bound(p)
    decreases n
  {
    if n == 0 {
      WaitsWithinBound(p);
    } else {
      var m :| Next(p, m) && ReachesIn(m, q, n - 1);
      StepsNeverRaiseTheBound(p, m);
      BoundAlongRuns(m, q, n - 1);
    }
  }

  /** However the branches interleave, no more waits are active than were counted. */
  lemma NeverMoreWaitsThanCounted(step: Value, q: Progress)
    requires Reaches(NotStarted(step), q)
    ensures Waits(q) <= WaitingCount(step)
  {
    var n :| ReachesIn(NotStarted(step), q, n);
    BoundAlongRuns(NotStarted(step), q, n);
  }

  // ------------------------------------------------------------------------
  // And as many as counted, for some schedule.
  // ------------------------------------------------------------------------

  lemma {:induction false} ReachesTrans(p: Progress, q: Progress, r: Progress, n: nat)
    requires ReachesIn(p, q, n) && Reaches(q, r)
    ensures Reaches(p, r)
    decreases n
  {
    if n > 0 {
      var m :| Next(p, m) && ReachesIn(m, q, n - 1);
      ReachesTrans(m, q, r, n - 1);
      var k: nat :| ReachesIn(m, r, k);
      assert ReachesIn(p, r, k + 1);
    }
  }

  lemma Chain(p: Progress, q: Progress, r: Progress)
    requires Reaches(p, q) && Reaches(q, r)
    ensures Reaches(p, r)
  {
    var n :| ReachesIn(p, q, n);
    ReachesTrans(p, q, r, n);
  }

  lemma OneStep(p: Progress, q: Progress)
    requires Next(p, q)
    ensures Reaches(p, q)
  {
    assert ReachesIn(q, q, 0);
    assert ReachesIn(p, q, 1);
  }

  lemma Already(p: Progress)
    ensures Reaches(p, p)
  {
    assert ReachesIn(p, p, 0);
  }

  lemma {:induction false} InSequence(p: Progress, q: Progress, rest: seq<Value>, n: nat)
    requires ReachesIn(p, q, n)
    ensures Reaches(Sequence(p, rest), Sequence(q, rest))
    decreases n
  {
    if n == 0 {
      Already(Sequence(p, rest));
    } else {
      var m :| Next(p, m) && ReachesIn(m, q, n - 1);
      InSequence(m, q, rest, n - 1);
      assert Next(Sequence(p, rest), Sequence(m, rest));
      OneStep(Sequence(p, rest), Sequence(m, rest));
      Chain(Sequence(p, rest), Sequence(m, rest), Sequence(q, rest));
    }
  }

  lemma {:induction false} InBranch(bs: seq<Progress>, i: nat, q: Progress, n: nat)
    requires i < |bs| && ReachesIn(bs[i], q, n)
    ensures Reaches(Parallel(bs), Parallel(bs[i := q]))
    decreases n
  {
    if n == 0 {
      assert bs[i := q] == bs;
      Already(Parallel(bs));
    } else {
      var m :| Next(bs[i], m) && ReachesIn(m, q, n - 1);
      var bs' := bs[i := m];
      InBranch(bs', i, q, n - 1);
      assert bs'[i := q] == bs[i := q];
      assert Next(Parallel(bs), Parallel(bs'));
      OneStep(Parallel(bs), Parallel(bs'));
      Chain(Parallel(bs), Parallel(bs'), Parallel(bs[i := q]));
    }
  }

  /** Bring the branches from `i` on to the given states, one after the other. */
  lemma {:induction false} Bring(bs: seq<Progress>, goal: seq<Progress>, i: nat)
    requires |goal| == |bs| && i <= |bs|
    requires forall j | 0 <= j < i :: bs[j] == goal[j]
    requires forall j | i <= j < |bs| :: Reaches(bs[j], goal[j])
    ensures Reaches(Parallel(bs), Parallel(goal))
    decreases |bs| - i
  {
    if i == |bs| {
      assert bs == goal;
      Already(Parallel(bs));
    } else {
      var n :| ReachesIn(bs[i], goal[i], n);
      InBranch(bs, i, goal[i], n);
      var bs' := bs[i := goal[i]];
      Bring(bs', goal, i + 1);
      Chain(Parallel(bs), Parallel(bs'), Parallel(goal));
    }
  }

  /** A step can always run to its end. */
  lemma {:induction false} CanFinish(step: Value)
    requires StepShapeOk(step)
    ensures Reaches(NotStarted(step), Finished)
    decreases step, 1
  {
    var kind := Get(step, "kind");
    if IsEffect(kind) {
      OneStep(NotStarted(step), Active(step));
      OneStep(Active(step), Finished);
      Chain(NotStarted(step), Active(step), Finished);
    } else if kind == Str("parallel") {
      var items := step.fields["branches"].items;
      var start := Parallel(Fork(items));
      var done: seq<Progress> := seq(|items|, i => Finished);
      ShapesOk(items);
      forall j | 0 <= j < |items| ensures Reaches(Fork(items)[j], done[j]) {
        CanFinish(items[j]);
      }
      Bring(Fork(items), done, 0);
      OneStep(NotStarted(step), start);
      OneStep(Parallel(done), Finished);
      Chain(NotStarted(step), start, Parallel(done));
      Chain(NotStarted(step), Parallel(done), Finished);
    } else {
      var key := if IsIf(step) then "then" else "steps";
      var items := step.fields[key].items;
      assert IsIf(step) ==> MayTake(step, items);
      CanFinishAll(items);
      OneStep(NotStarted(step), Begin(items));
      Chain(NotStarted(step), Begin(items), Finished);
    }
  }

  lemma {:induction false} CanFinishAll(steps: seq<Value>)
    requires StepsShapeOk(steps)
    ensures Reaches(Begin(steps), Finished)
    decreases steps, 0
  {
    if steps == [] {
      Already(Finished);
    } else {
      CanFinish(steps[0]);
      CanFinishAll(steps[1..]);
      PastFirst(steps);
      Chain(Begin(steps), Begin(steps[1..]), Finished);
    }
  }

  lemma {:induction false} ShapesOk(steps: seq<Value>)
    requires StepsShapeOk(steps)
    ensures forall i | 0 <= i < |steps| :: StepShapeOk(steps[i])
  {
    if steps != [] {
      ShapesOk(steps[1..]);
      forall i | 0 <= i < |steps| ensures StepShapeOk(steps[i]) {
        if i > 0 {
          assert steps[i] == steps[1..][i - 1];
        }
      }
    }
  }

  lemma PastFirst(steps: seq<Value>)
    requires steps != [] && Reaches(NotStarted(steps[0]), Finished)
    ensures Reaches(Begin(steps), Begin(steps[1..]))
  {
    var n :| ReachesIn(NotStarted(steps[0]), Finished, n);
    InSequence(NotStarted(steps[0]), Finished, steps[1..], n);
    OneStep(Sequence(Finished, steps[1..]), Begin(steps[1..]));
    Chain(Begin(steps), Sequence(Finished, steps[1..]), Begin(steps[1..]));
  }

  /** Some schedule and some choice of branches has every counted wait active at once. */
  lemma {:induction false} TheCountIsReached(step: Value) returns (q: Progress)
    requires StepShapeOk(step)
    ensures Reaches(NotStarted(step), q) && Waits(q) == WaitingCount(step)
    decreases step, 1
  {
    var kind := Get(step, "kind");
    if IsEffect(kind) {
      q := Active(step);
      OneStep(NotStarted(step), q);
    } else if kind == Str("parallel") {
      var items := step.fields["branches"].items;
      var goal := ReachInAll(items);
      q := Parallel(goal);
      OneStep(NotStarted(step), Parallel(Fork(items)));
      Bring(Fork(items), goal, 0);
      Chain(NotStarted(step), Parallel(Fork(items)), q);
    } else {
      var key := if IsIf(step) then BusierBranch(step) else "steps";
      var items := if Lists(step, key) then step.fields[key].items else [];
      assert IsIf(step) ==> MayTake(step, items);
      q := ReachInSequence(items);
      OneStep(NotStarted(step), Begin(items));
      Chain(NotStarted(step), Begin(items), q);
    }
  }

  function BusierBranch(step: Value): string {
    var a := if Lists(step, "then") then MaxWaiting(step.fields["then"].items) else 0;
    var b := if Lists(step, "else") then MaxWaiting(step.fields["else"].items) else 0;
    if a < b then "else" else "then"
  }

  lemma {:induction false} ReachInAll(steps: seq<Value>) returns (goal: seq<Progress>)
    requires StepsShapeOk(steps)
    ensures |goal| == |steps| && WaitsInAll(goal) == SumWaiting(steps)
    ensures forall j | 0 <= j < |steps| :: Reaches(Fork(steps)[j], goal[j])
    decreases steps, 0
  {
    goal := [];
    if steps != [] {
      var first := TheCountIsReached(steps[0]);
      var others := ReachInAll(steps[1..]);
      goal := [first] + others;
      assert goal[1..] == others;
      forall j | 0 <= j < |steps| ensures Reaches(Fork(steps)[j], goal[j]) {
        if j > 0 {
          assert Fork(steps)[j] == Fork(steps[1..])[j - 1];
        }
      }
    }
  }

  lemma {:induction false} ReachInSequence(steps: seq<Value>) returns (q: Progress)
    requires StepsShapeOk(steps)
    ensures Reaches(Begin(steps), q) && Waits(q) == MaxWaiting(steps)
    decreases steps, 0
  {
    if steps == [] {
      q := Finished;
      Already(q);
    } else if MaxWaiting(steps[1..]) > WaitingCount(steps[0]) {
      q := ReachInSequence(steps[1..]);
      CanFinish(steps[0]);
      PastFirst(steps);
      Chain(Begin(steps), Begin(steps[1..]), q);
    } else {
      var first := TheCountIsReached(steps[0]);
      q := Sequence(first, steps[1..]);
      var n :| ReachesIn(NotStarted(steps[0]), first, n);
      InSequence(NotStarted(steps[0]), first, steps[1..], n);
    }
  }

  // ------------------------------------------------------------------------
  // One guard is enough.
  // ------------------------------------------------------------------------

  predicate Allows(limit: Option<nat>, waits: nat) {
    limit.Some? ==> waits <= limit.value
  }

  /** Where the count of the whole step passes the limit, no await guard inside it fires. */
  lemma {:induction false} OuterGuardCoversInner(step: Value, env: Env, st: State)
    requires Allows(env.policy.maxActiveAwaits, WaitingCount(step))
    ensures ExecStep(step, env, st).0 != Outcome.Failed(AwaitBudget)
    decreases step, 1
  {
    if step.Dict? && CheckDependsOn(step, st.outputs).None? {
      var st0 := Write(st, IdOf(step), Running, Null);
      var kind := Get(step, "kind");
      if IsEffect(kind) {
        LeafNeverExceedsAwaits(step, env, st);
      } else if kind == Str("parallel") {
        if Lists(step, "branches") {
          BranchesStayCovered(step.fields["branches"].items, map[], env, st0);
        }
      } else if kind == Str("pipeline") || kind == Str("phase") {
        if Lists(step, "steps") {
          SequenceStaysCovered(step.fields["steps"].items, env, st0);
        }
      } else if kind == Str("if") {
        IfStaysCovered(step, env, st);
      }
    }
  }

  lemma LeafNeverExceedsAwaits(step: Value, env: Env, st: State)
    requires step.Dict? && CheckDependsOn(step, st.outputs).None? && IsEffect(Get(step, "kind"))
    ensures ExecStep(step, env, st).0 != Outcome.Failed(AwaitBudget)
  {
  }

  lemma {:induction false} IfStaysCovered(step: Value, env: Env, st: State)
    requires Allows(env.policy.maxActiveAwaits, WaitingCount(step)) && step.Dict? && IsIf(step)
    ensures ExecIf(step, env, st).0 != Outcome.Failed(AwaitBudget)
    decreases step, 0
  {
    var st0 := Write(st, IdOf(step), Running, Null);
    if Lists(step, "then") {
      SequenceStaysCovered(step.fields["then"].items, env, st0);
    }
    if Lists(step, "else") {
      SequenceStaysCovered(step.fields["else"].items, env, st0);
    }
  }

  lemma {:induction false} SequenceStaysCovered(steps: seq<Value>, env: Env, st: State)
    requires Allows(env.policy.maxActiveAwaits, MaxWaiting(steps))
    ensures ExecSequence(steps, env, st).0 != Some(AwaitBudget)
    decreases steps, 0
  {
    if steps != [] {
      var (code, st1) := EnforceControl(env, st, false, []);
      if code == Controls.Allowed {
        OuterGuardCoversInner(steps[0], env, st1);
        var (out, st2) := ExecStep(steps[0], env, st1);
        if out.Done? {
          SequenceStaysCovered(steps[1..], env, st2);
        }
      }
    }
  }

  lemma {:induction false} BranchesStayCovered(branches: seq<Value>, joined: map<string, Value>, env: Env, st: State)
    requires Allows(env.policy.maxActiveAwaits, SumWaiting(branches))
    ensures ExecBranches(branches, joined, env, st).0 != Err(AwaitBudget)
    decreases branches, 0
  {
    if branches != [] {
      OuterGuardCoversInner(branches[0], env, st);
      var (out, st1) := ExecStep(branches[0], env, st);
      if out.Done? {
        BranchesStayCovered(branches[1..], joined[IdOf(branches[0]) := out.out], env, st1);
      }
    }
  }
}
