/** The guest scheduler (vm_guest.py): `parallel` and `pipeline` run the same
    bounded pool, in which started items advance in any order until the event
    loop reports some of them done. A stage's answer depends on what it is
    called with; when it arrives is up to the scheduler. */
module Pool {
  import opened Json

  datatype Reply<+V> = Ok(value: V) | Raise(why: string)

  /** How an item ends: its last value, or the stage that raised. */
  datatype Ending<+V> = Value(value: V) | StageError(stage: nat, why: string)

  datatype Task<+V> = At(stage: nat, current: V) | Ended(ending: Ending<V>)

  datatype Event =
    | Started(index: nat)
    | Collected(index: nat)   // reported done by the event loop
    | Observed(index: nat)    // awaited, and raised
    | Cancelled(index: nat)
    | Advanced(index: nat, stage: nat)

  datatype Joined<+V> = Returned(results: seq<V>) | Raised(index: nat, stage: nat, why: string)

  /** The sequential meaning of one item: its stages folded from the left. */
  function Fold<V>(call: (nat, V, nat) -> Reply<V>, stages: nat, index: nat, stage: nat, current: V): Ending<V>
    decreases stages - stage
  {
    if stage >= stages then Value(current)
    else
      match call(stage, current, index)
      case Ok(v) => Fold(call, stages, index, stage + 1, v)
      case Raise(why) => StageError(stage, why)
  }

  /** What one item goes through in its first `n` stages: each stage is called, in
      order, with what the one before it returned. */
  ghost predicate Chain<V>(call: (nat, V, nat) -> Reply<V>, n: nat, index: nat, first: V, vs: seq<V>) {
    |vs| == n + 1 && vs[0] == first && forall s: nat | s < n :: call(s, vs[s], index) == Ok(vs[s + 1])
  }

  /** The item went through all its stages and ended with the value. */
  ghost predicate Passes<V(!new)>(call: (nat, V, nat) -> Reply<V>, stages: nat, index: nat, first: V, last: V) {
    exists vs: seq<V> :: Chain(call, stages, index, first, vs) && vs[stages] == last
  }

  ghost predicate Completes<V(!new)>(call: (nat, V, nat) -> Reply<V>, stages: nat, index: nat, first: V) {
    exists v :: Passes(call, stages, index, first, v)
  }

  /** The item went through the stages before the given one, which raised. */
  ghost predicate FailsAt<V(!new)>(call: (nat, V, nat) -> Reply<V>, stages: nat, index: nat, first: V, stage: nat, why: string) {
    stage < stages && exists vs: seq<V> :: Chain(call, stage, index, first, vs) && call(stage, vs[stage], index) == Raise(why)
  }

  /** The fold is the chain, if there is one, or where it breaks. */
  lemma {:induction false} FoldChains<V(!new)>(call: (nat, V, nat) -> Reply<V>, stages: nat, index: nat, stage: nat, vs: seq<V>)
    requires stage <= stages && |vs| == stage + 1 && Chain(call, stage, index, vs[0], vs)
    ensures match Fold(call, stages, index, stage, vs[stage])
            case Value(v) => Passes(call, stages, index, vs[0], v)
            case StageError(s, why) => FailsAt(call, stages, index, vs[0], s, why)
    decreases stages - stage
  {
    if stage < stages {
      match call(stage, vs[stage], index)
      case Ok(v) =>
        assert Chain(call, stage + 1, index, vs[0], vs + [v]);
        FoldChains(call, stages, index, stage + 1, vs + [v]);
      case Raise(why) =>
    }
  }

  /** A chain through all stages is what the fold computes. */
  lemma {:induction false} ChainFolds<V>(call: (nat, V, nat) -> Reply<V>, stages: nat, index: nat, stage: nat, vs: seq<V>)
    requires stage <= stages && |vs| == stages + 1 && Chain(call, stages, index, vs[0], vs)
    ensures Fold(call, stages, index, stage, vs[stage]) == Value(vs[stages])
    decreases stages - stage
  {
    if stage < stages {
      ChainFolds(call, stages, index, stage + 1, vs);
    }
  }

  lemma ItemMeans<V(!new)>(call: (nat, V, nat) -> Reply<V>, stages: nat, index: nat, first: V)
    ensures var ending := Fold(call, stages, index, 0, first);
            && (ending.Value? <==> Completes(call, stages, index, first))
            && (ending.Value? ==> Passes(call, stages, index, first, ending.value))
            && (ending.StageError? ==> FailsAt(call, stages, index, first, ending.stage, ending.why))
  {
    FoldChains(call, stages, index, 0, [first]);
    if Completes(call, stages, index, first) {
      var v :| Passes(call, stages, index, first, v);
      var vs: seq<V> :| Chain(call, stages, index, first, vs) && vs[stages] == v;
      ChainFolds(call, stages, index, 0, vs);
    }
  }

  // ------------------------------------------------------------------------
  // The history of a pool.
  // ------------------------------------------------------------------------

  function Starts(log: seq<Event>): seq<nat> {
    if log == [] then []
    else
      var e := log[|log| - 1];
      Starts(log[..|log| - 1]) + if e.Started? then [e.index] else []
  }

  /** Items that were started and neither collected nor cancelled. */
  function InFlight(log: seq<Event>): int {
    if log == [] then 0
    else
      var e := log[|log| - 1];
      InFlight(log[..|log| - 1]) + if e.Started? then 1 else if e.Collected? || e.Cancelled? then -1 else 0
  }

  /** At no moment were more than `width` items in flight. */
  ghost predicate Bounded(log: seq<Event>, width: nat) {
    forall n | 0 <= n <= |log| :: InFlight(log[..n]) <= width
  }

  /** Once a failure was observed, no item starts or advances. */
  ghost predicate QuietAfterFailure(log: seq<Event>) {
    forall i, j | 0 <= i < j < |log| && log[i].Observed? :: !log[j].Started? && !log[j].Advanced?
  }

  ghost predicate NoneObserved(log: seq<Event>) {
    forall i | 0 <= i < |log| :: !log[i].Observed?
  }

  function UpTo(n: nat): (s: seq<nat>)
    ensures |s| == n && forall i | 0 <= i < n :: s[i] == i
  {
    seq(n, i => i)
  }

  /** What the log and the pool's own counters agree on. */
  ghost predicate Orderly(log: seq<Event>, next: nat, flying: nat, width: nat) {
    Starts(log) == UpTo(next) && InFlight(log) == flying && Bounded(log, width) && QuietAfterFailure(log)
  }

  lemma OrderlyAppend(log: seq<Event>, e: Event, next: nat, flying: nat, width: nat)
    requires Orderly(log, next, flying, width)
    requires e.Started? || e.Advanced? ==> NoneObserved(log)
    requires e.Started? ==> e.index == next && flying < width
    requires e.Collected? || e.Cancelled? ==> flying > 0
    ensures Orderly(log + [e], if e.Started? then next + 1 else next,
                    if e.Started? then flying + 1 else if e.Collected? || e.Cancelled? then flying - 1 else flying, width)
  {
    var longer := log + [e];
    assert longer[..|longer| - 1] == log;
    forall n | 0 <= n <= |longer| ensures InFlight(longer[..n]) <= width {
      if n <= |log| {
        assert longer[..n] == log[..n];
      } else {
        assert longer[..n] == longer;
        assert log[..|log|] == log;
      }
    }
  }

  // ------------------------------------------------------------------------
  // Work left, for termination.
  // ------------------------------------------------------------------------

  function Left<V>(task: Task<V>, stages: nat): nat {
    if task.At? && task.stage <= stages then stages - task.stage + 1 else 0
  }

  function TotalLeft<V>(tasks: seq<Task<V>>, stages: nat): nat {
    if tasks == [] then 0 else Left(tasks[0], stages) + TotalLeft(tasks[1..], stages)
  }

  lemma {:induction false} TotalLeftUpdate<V>(tasks: seq<Task<V>>, stages: nat, i: nat, t: Task<V>)
    requires i < |tasks|
    ensures TotalLeft(tasks[i := t], stages) == TotalLeft(tasks, stages) - Left(tasks[i], stages) + Left(t, stages)
  {
    if i == 0 {
      assert tasks[0 := t][1..] == tasks[1..];
    } else {
      TotalLeftUpdate(tasks[1..], stages, i - 1, t);
      assert tasks[i := t][1..] == tasks[1..][i - 1 := t];
    }
  }

  // ------------------------------------------------------------------------
  // The pool.
  // ------------------------------------------------------------------------

  class Pool<V(0)> {
    const items: seq<V>
    const stages: nat
    const call: (nat, V, nat) -> Reply<V>
    const width: nat
    var tasks: seq<Task<V>>       // one per started item
    const results: array<Option<V>>
    var running: set<nat>
    var nextIndex: nat
    ghost var log: seq<Event>

    constructor (items: seq<V>, stages: nat, call: (nat, V, nat) -> Reply<V>, width: nat)
      requires width >= 1
      ensures this.items == items && this.stages == stages && this.call == call && this.width == width
      ensures Valid() && nextIndex == 0 && running == {} && log == [] && fresh(results)
    {
      this.items, this.stages, this.call, this.width := items, stages, call, width;
      tasks, running, nextIndex, log := [], {}, 0, [];
      results := new Option<V>[|items|](_ => None);
    }

    function Meaning(index: nat): Ending<V>
      requires index < |items|
    {
      Fold(call, stages, index, 0, items[index])
    }

    /** The task is on its way to its item's sequential meaning, and its slot
        holds its value once it has one. */
    ghost predicate OnTrack(index: nat, task: Task<V>, slot: Option<V>)
      requires index < |items|
    {
      match task
      case At(stage, current) =>
        stage <= stages && Fold(call, stages, index, stage, current) == Meaning(index) && slot == None
      case Ended(ending) =>
        ending == Meaning(index) && slot == if ending.Value? then Some(ending.value) else None
    }

    ghost predicate Valid()
      reads this, results
    {
      && |tasks| == nextIndex <= |items| == results.Length
      && (forall i | i in running :: i < nextIndex)
      && (forall i: nat | i < nextIndex :: OnTrack(i, tasks[i], results[i]))
      && (forall i: nat | nextIndex <= i < |items| :: results[i] == None)
      && 1 <= width && |running| <= width
      && Orderly(log, nextIndex, |running|, width)
    }

    /** What one scheduling turn makes of a running task. */
    function Turn(index: nat, task: Task<V>): (r: Task<V>)
      requires index < |items| && task.At? && task.stage <= stages
      ensures OnTrack(index, task, None) ==>
                OnTrack(index, r, if r.Ended? && r.ending.Value? then Some(r.ending.value) else None)
      ensures Left(r, stages) < Left(task, stages)
    {
      if task.stage == stages then Ended(Value(task.current))
      else match call(task.stage, task.current, index)
        case Ok(v) => At(task.stage + 1, v)
        case Raise(why) => Ended(StageError(task.stage, why))
    }

    /** No failure has been observed: everything no longer running has its value. */
    ghost predicate Healthy()
      reads this, results
      requires |tasks| == nextIndex
    {
      && NoneObserved(log)
      && forall i: nat | i < nextIndex && i !in running :: tasks[i].Ended? && tasks[i].ending.Value?
    }

    /** `start_ready`. */
    method StartReady()
      requires Valid() && Healthy()
      modifies this, results
      ensures Valid() && Healthy()
      ensures running != {} || nextIndex == |items|
      ensures |items| - nextIndex + |running| == old(|items| - nextIndex + |running|)
    {
      while nextIndex < |items| && |running| < width
        invariant Valid() && Healthy()
        invariant |items| - nextIndex + |running| == old(|items| - nextIndex + |running|)
        decreases |items| - nextIndex
      {
        Start();
      }
    }

    method Start()
      requires Valid() && Healthy() && nextIndex < |items| && |running| < width
      modifies this, results
      ensures Valid() && Healthy()
      ensures nextIndex == old(nextIndex) + 1 && |running| == old(|running|) + 1
    {
      OrderlyAppend(log, Started(nextIndex), nextIndex, |running|, width);
      log := log + [Started(nextIndex)];
      tasks := tasks + [At(0, items[nextIndex])];
      running := running + {nextIndex};
      nextIndex := nextIndex + 1;
    }

    /** One running item gets the answer of its stage, or ends. */
    method Advance(index: nat)
      requires Valid() && Healthy() && index in running && tasks[index].At?
      modifies this`tasks, this`log, results
      ensures Valid() && Healthy()
      ensures TotalLeft(tasks, stages) < old(TotalLeft(tasks, stages))
      ensures |tasks| == old(|tasks|) && forall i | 0 <= i < |tasks| && i != index :: tasks[i] == old(tasks[i])
    {
      var t := tasks[index];
      assert OnTrack(index, t, results[index]);
      OrderlyAppend(log, Advanced(index, t.stage), nextIndex, |running|, width);
      var after := Turn(index, t);
      TotalLeftUpdate(tasks, stages, index, after);
      log := log + [Advanced(index, t.stage)];
      tasks := tasks[index := after];
      if after.Ended? && after.ending.Value? {
        results[index] := Some(after.ending.value);
      }
    }

    /** `asyncio.wait(..., FIRST_COMPLETED)`: items advance in any order until
        at least one has ended; every item that has is reported done. */
    method Wait() returns (done: set<nat>)
      requires Valid() && Healthy() && running != {}
      modifies this, results
      ensures Valid() && NoneObserved(log) && nextIndex == old(nextIndex)
      ensures done != {} && running == old(running) - done && done <= old(running)
      ensures |running| < old(|running|)
      ensures forall i | i in done :: tasks[i].Ended?
      ensures forall i: nat | i < nextIndex && i !in running && i !in done :: tasks[i].Ended? && tasks[i].ending.Value?
    {
      var more := true;
      while more
        invariant Valid() && Healthy() && running == old(running) && nextIndex == old(nextIndex)
        invariant !more ==> exists i :: i in running && tasks[i].Ended?
        decreases TotalLeft(tasks, stages), more
      {
        var ready := set i | i in running && tasks[i].Ended?;
        if ready == {} {
          var i :| i in running;
          assert i !in ready;
          Advance(i);
        } else {
          var i :| i in ready;
          var waiting := running - ready;
          more := *;
          if more && waiting != {} {
            var other :| other in waiting;
            Advance(other);
          } else {
            more := false;
          }
          assert i in running && tasks[i].Ended?;
        }
      }
      done := set i | i in running && tasks[i].Ended?;
      var i :| i in running && tasks[i].Ended?;
      assert i in done && |done| >= 1;
      Collect(done);
    }

    method Collect(done: set<nat>)
      requires Valid() && NoneObserved(log) && done <= running
      modifies this`running, this`log
      ensures Valid() && NoneObserved(log)
      ensures running == old(running) - done && |running| == old(|running|) - |done|
      decreases |done|
    {
      if done != {} {
        var i :| i in done;
        CollectOne(i);
        Collect(done - {i});
      }
    }

    method CollectOne(i: nat)
      requires Valid() && NoneObserved(log) && i in running
      modifies this`running, this`log
      ensures Valid() && NoneObserved(log) && running == old(running) - {i} && |running| == old(|running|) - 1
    {
      OrderlyAppend(log, Collected(i), nextIndex, |running|, width);
      log := log + [Collected(i)];
      running := running - {i};
    }

    /** Cancel what is still running and wait for it. */
    method CancelAll()
      requires Valid()
      modifies this`running, this`log
      ensures Valid() && running == {}
      ensures old(log) <= log && forall i | |old(log)| <= i < |log| :: log[i].Cancelled?
    {
      while running != {}
        invariant Valid() && old(log) <= log
        invariant forall i | |old(log)| <= i < |log| :: log[i].Cancelled?
        decreases |running|
      {
        var i :| i in running;
        OrderlyAppend(log, Cancelled(i), nextIndex, |running|, width);
        log := log + [Cancelled(i)];
        running := running - {i};
      }
    }

    /** The loop shared by `parallel` and `pipeline`. */
    method Join() returns (r: Joined<V>)
      requires Valid() && nextIndex == 0 && running == {} && log == []
      modifies this, results
      ensures Orderly(log, nextIndex, 0, width)
      ensures r.Returned? <==> forall i: nat | i < |items| :: Meaning(i).Value?
      ensures r.Returned? ==> Starts(log) == UpTo(|items|) && |r.results| == |items|
                              && forall i: nat | i < |items| :: Meaning(i) == Value(r.results[i])
      ensures r.Raised? ==> r.index < |items| && Meaning(r.index) == StageError(r.stage, r.why)
    {
      StartReady();
      while running != {}
        invariant Valid() && Healthy()
        invariant running != {} || nextIndex == |items|
        decreases |items| - nextIndex + |running|
      {
        var done := Wait();
        var todo := done;
        while todo != {}
          invariant todo <= done && Valid() && NoneObserved(log)
          invariant forall i: nat | i < nextIndex && i !in running && i !in todo :: tasks[i].Ended? && tasks[i].ending.Value?
          decreases |todo|
        {
          var i :| i in todo;
          if tasks[i].ending.StageError? {
            OrderlyAppend(log, Observed(i), nextIndex, |running|, width);
            log := log + [Observed(i)];
            assert OnTrack(i, tasks[i], results[i]);
            assert !Meaning(i).Value?;
            r := Raised(i, tasks[i].ending.stage, tasks[i].ending.why);
            CancelAll();
            return;
          }
          todo := todo - {i};
        }
        StartReady();
      }
      forall i: nat | i < |items| ensures results[i].Some? && Meaning(i) == Value(results[i].value) {
        assert OnTrack(i, tasks[i], results[i]) && tasks[i].Ended? && tasks[i].ending.Value?;
      }
      r := Returned(seq(|items|, i requires 0 <= i < |items| && results[i].Some? reads this, results => results[i].value));
    }
  }

  /** `parallel(thunks)`: one opaque stage per thunk. */
  method Parallel<V>(thunks: seq<Reply<V>>, maxParallel: nat) returns (r: Joined<Option<V>>, ghost log: seq<Event>)
    requires maxParallel >= 1
    ensures r.Returned? <==> forall i | 0 <= i < |thunks| :: thunks[i].Ok?
    ensures r.Returned? ==> |r.results| == |thunks| && Starts(log) == UpTo(|thunks|)
                            && forall i | 0 <= i < |thunks| :: Reply.Ok(r.results[i].GetOr(thunks[i].value)) == thunks[i] && r.results[i].Some?
    ensures r.Raised? ==> r.index < |thunks| && thunks[r.index] == Raise(r.why)
    ensures exists k :: Orderly(log, k, 0, maxParallel)
  {
    var call := (stage: nat, current: Option<V>, index: nat) =>
      if index >= |thunks| then Ok(None)
      else match thunks[index] case Ok(v) => Ok(Some(v)) case Raise(why) => Raise(why);
    var pool := new Pool<Option<V>>(seq(|thunks|, _ => None), 1, call, maxParallel);
    r := pool.Join();
    log := pool.log;
    forall i: nat | i < |thunks|
      ensures pool.Meaning(i) == match thunks[i] case Ok(v) => Value(Some(v)) case Raise(why) => StageError(0, why)
    {
      OneStage(call, i, pool.items[i]);
    }
  }

  lemma OneStage<V>(call: (nat, V, nat) -> Reply<V>, index: nat, current: V)
    ensures Fold(call, 1, index, 0, current) == match call(0, current, index) case Ok(v) => Value(v) case Raise(why) => StageError(0, why)
  {
  }

  /** `pipeline(items, *stages)`: each item goes through its stages on its own. */
  method Pipeline<V(0,!new)>(items: seq<V>, stages: nat, call: (nat, V, nat) -> Reply<V>, maxParallel: nat)
    returns (r: Joined<V>, ghost log: seq<Event>)
    requires maxParallel >= 1
    ensures r.Returned? <==> forall i: nat | i < |items| :: Completes(call, stages, i, items[i])
    ensures r.Returned? ==> |r.results| == |items| && Starts(log) == UpTo(|items|)
                            && forall i: nat | i < |items| :: Passes(call, stages, i, items[i], r.results[i])
    ensures r.Raised? ==> r.index < |items| && FailsAt(call, stages, r.index, items[r.index], r.stage, r.why)
    ensures exists k :: Orderly(log, k, 0, maxParallel)
  {
    var pool := new Pool<V>(items, stages, call, maxParallel);
    r := pool.Join();
    log := pool.log;
    forall i: nat | i < |items|
      ensures pool.Meaning(i).Value? <==> Completes(call, stages, i, items[i])
      ensures pool.Meaning(i).Value? ==> Passes(call, stages, i, items[i], pool.Meaning(i).value)
      ensures pool.Meaning(i).StageError? ==> FailsAt(call, stages, i, items[i], pool.Meaning(i).stage, pool.Meaning(i).why)
    {
      ItemMeans(call, stages, i, items[i]);
    }
  }
}
