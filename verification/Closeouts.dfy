/** What closing out a loop run (resources.py:301-460, loops.py:966-1027) makes of
    the host's answers, finalizer by finalizer. */
module Closeouts {
  import opened Json
  import R = Resources
  import opened Loop

  /** The host's adapter was asked to finalize, and said that it did. */
  predicate Cleaned(r: R.Resource, f: R.Finalizer, trigger: R.Trigger, runner: R.Runner) {
    runner.Some? && runner.value(r, f, trigger) == R.Answers(true)
  }

  /** The host is asked only by these two policies. */
  predicate Asks(f: R.Finalizer) {
    f.policy == R.Required || f.policy == R.BestEffort
  }

  /** What a finalizer's result says of the answer. */
  ghost predicate Came(x: R.FinalizerResult, r: R.Resource, f: R.Finalizer, trigger: R.Trigger, runner: R.Runner) {
    && R.KeyOf(x) == (r.id, f.id, trigger) && x.policy == f.policy
    && (x.status == R.Preserved <==> f.policy == R.PreserveOnly)
    && (x.status == R.ApprovalRequired <==> f.policy == R.ManualApproval)
    && (x.status == R.Succeeded <==> Asks(f) && Cleaned(r, f, trigger, runner))
    && (x.status == R.Skipped <==> f.policy == R.BestEffort && runner.None?)
    && (x.status == R.Failed <==> Asks(f) && !Cleaned(r, f, trigger, runner) && (runner.None? ==> f.policy == R.Required))
  }

  lemma RunOneCame(r: R.Resource, f: R.Finalizer, trigger: R.Trigger, runner: R.Runner)
    ensures Came(R.RunOne(r, f, trigger, runner), r, f, trigger, runner)
  {
    if runner.Some? {
      match runner.value(r, f, trigger) {
        case Answers(ok) =>
        case Raises =>
        case Malformed =>
      }
    }
  }

  /** That finalizer is declared by one of the resources for the trigger. */
  predicate DeclaredFor(resources: seq<R.Resource>, r: R.Resource, f: R.Finalizer, trigger: R.Trigger) {
    r in resources && f in r.finalizers && trigger in f.when
  }

  /** Ids tell resources apart, and finalizers within one. */
  ghost predicate Registered(resources: seq<R.Resource>) {
    && R.UniqueIds(resources)
    && forall r | r in resources :: R.DistinctIds(r.finalizers)
  }

  lemma {:induction false} ResultsOfCame(r: R.Resource, fs: seq<R.Finalizer>, trigger: R.Trigger, runner: R.Runner,
                                         completed: set<R.Key>, x: R.FinalizerResult)
    requires x in R.ResultsOf(r, fs, trigger, runner, completed)
    ensures exists f :: f in fs && trigger in f.when && Came(x, r, f, trigger, runner)
    decreases fs
  {
    RunOneCame(r, fs[0], trigger, runner);
    if !R.Due(r, fs[0], trigger, completed) {
      ResultsOfCame(r, fs[1..], trigger, runner, completed, x);
    } else if x != R.RunOne(r, fs[0], trigger, runner) {
      ResultsOfCame(r, fs[1..], trigger, runner, completed + {(r.id, fs[0].id, trigger)}, x);
    }
  }

  lemma {:induction false} ResultsCame(resources: seq<R.Resource>, trigger: R.Trigger, runner: R.Runner,
                                       completed: set<R.Key>, x: R.FinalizerResult)
    requires x in R.Results(resources, trigger, runner, completed)
    ensures exists r, f :: DeclaredFor(resources, r, f, trigger) && Came(x, r, f, trigger, runner)
    decreases resources
  {
    var r := resources[0];
    if x in R.ResultsOf(r, r.finalizers, trigger, runner, completed) {
      ResultsOfCame(r, r.finalizers, trigger, runner, completed, x);
      var f :| f in r.finalizers && trigger in f.when && Came(x, r, f, trigger, runner);
      assert DeclaredFor(resources, r, f, trigger);
    } else {
      ResultsCame(resources[1..], trigger, runner, completed + R.CompletedBy(r, r.finalizers, trigger), x);
      var q, f :| DeclaredFor(resources[1..], q, f, trigger) && Came(x, q, f, trigger, runner);
      assert DeclaredFor(resources, q, f, trigger);
    }
  }

  lemma {:induction false} DueFinalizerRuns(r: R.Resource, fs: seq<R.Finalizer>, trigger: R.Trigger, runner: R.Runner,
                                            completed: set<R.Key>, f: R.Finalizer)
    requires R.DistinctIds(fs) && f in fs && trigger in f.when && (r.id, f.id, trigger) !in completed
    ensures R.RunOne(r, f, trigger, runner) in R.ResultsOf(r, fs, trigger, runner, completed)
    decreases fs
  {
    if f != fs[0] {
      RestIsDistinct(fs);
      OtherIds(fs, f);
      R.ResultsSplit(r, fs, trigger, runner, completed);
      DueFinalizerRuns(r, fs[1..], trigger, runner,
        if R.Due(r, fs[0], trigger, completed) then completed + {(r.id, fs[0].id, trigger)} else completed, f);
    }
  }

  lemma RestIsDistinct(fs: seq<R.Finalizer>)
    requires fs != [] && R.DistinctIds(fs)
    ensures R.DistinctIds(fs[1..])
  {
    var rest := fs[1..];
    forall i, j | 0 <= i < j < |rest| ensures rest[i].id != rest[j].id {
      assert rest[i] == fs[i + 1] && rest[j] == fs[j + 1];
    }
  }

  lemma OtherIds(fs: seq<R.Finalizer>, f: R.Finalizer)
    requires fs != [] && R.DistinctIds(fs) && f in fs && f != fs[0]
    ensures f.id != fs[0].id
  {
    var j :| 0 <= j < |fs| && fs[j] == f;
    assert 0 < j;
  }

  lemma {:induction false} DeclaredFinalizerRuns(resources: seq<R.Resource>, trigger: R.Trigger, runner: R.Runner,
                                                 completed: set<R.Key>, r: R.Resource, f: R.Finalizer)
    requires Registered(resources) && DeclaredFor(resources, r, f, trigger) && (r.id, f.id, trigger) !in completed
    ensures R.RunOne(r, f, trigger, runner) in R.Results(resources, trigger, runner, completed)
    decreases resources
  {
    var first := resources[0];
    if r == first {
      DueFinalizerRuns(r, r.finalizers, trigger, runner, completed, f);
    } else {
      OtherResource(resources, r);
      DeclaredFinalizerRuns(resources[1..], trigger, runner, completed + R.CompletedBy(first, first.finalizers, trigger), r, f);
    }
  }

  lemma OtherResource(resources: seq<R.Resource>, r: R.Resource)
    requires Registered(resources) && r in resources && r != resources[0]
    ensures r in resources[1..] && r.id != resources[0].id && Registered(resources[1..])
  {
    var j :| 0 <= j < |resources| && resources[j] == r;
    assert 0 < j && resources[1..][j - 1] == r;
    var rest := resources[1..];
    forall i, k | 0 <= i < k < |rest| ensures rest[i].id != rest[k].id {
      assert rest[i] == resources[i + 1] && rest[k] == resources[k + 1];
    }
  }

  /** A required finalizer fails exactly when the host did not say it succeeded. */
  lemma RequiredFailureExactlyWhen(resources: seq<R.Resource>, trigger: R.Trigger, runner: R.Runner)
    requires Registered(resources)
    ensures R.RequiredFailure(R.Results(resources, trigger, runner, {})) <==>
            exists r, f :: DeclaredFor(resources, r, f, trigger) && f.policy == R.Required && !Cleaned(r, f, trigger, runner)
  {
    var results := R.Results(resources, trigger, runner, {});
    if R.RequiredFailure(results) {
      var i :| 0 <= i < |results| && results[i].policy == R.Required && results[i].status == R.Failed;
      ResultsCame(resources, trigger, runner, {}, results[i]);
    }
    forall r, f | DeclaredFor(resources, r, f, trigger) && f.policy == R.Required && !Cleaned(r, f, trigger, runner)
      ensures R.RequiredFailure(results)
    {
      DeclaredFinalizerRuns(resources, trigger, runner, {}, r, f);
      RunOneCame(r, f, trigger, runner);
    }
  }

  /** The trigger that a way of stopping closes out with; waiting has none. */
  predicate ClosesWith(stop: LoopState, trigger: R.Trigger) {
    || (stop == Converged && trigger == R.Success)
    || (stop == HaltedTimeCap && trigger == R.Timeout)
    || (&& trigger == R.Failure
        && stop !in {Running, Converged, HaltedTimeCap, WaitingForEvent, WaitingForApproval, HaltedFinalizerError})
  }

  lemma TriggerCloses(stop: LoopState, trigger: R.Trigger)
    ensures TriggerOf(stop) == Some(trigger) <==> ClosesWith(stop, trigger)
  {
    match stop {
      case Running =>
      case Converged =>
      case HaltedTimeCap =>
      case HaltedSensorError =>
      case HaltedStalled =>
      case HaltedActuatorError =>
      case HaltedStepCap =>
      case HaltedBudgetCap =>
      case HaltedGrantDenied =>
      case WaitingForEvent =>
      case WaitingForApproval =>
      case HaltedFinalizerError =>
    }
  }

  lemma {:induction false} DeclarationsAreWellFormed(env: Env, n: nat)
    requires WellDeclared(env)
    ensures forall r | r in Declarations(Taken(env, n)) :: R.WellFormed(r)
  {
    if n > 0 {
      DeclarationsAreWellFormed(env, n - 1);
      assert Taken(env, n)[..n - 1] == Taken(env, n - 1);
      var a := ActionAt(env, n - 1);
      if a.Acts? {
        assert env.actuator.Some?;
        forall r | r in R.FirstWins(a.resources) ensures R.WellFormed(r) {
          FirstOnesAreDeclared(a.resources, r);
        }
      }
    }
  }

  lemma {:induction false} FirstOnesAreDeclared(raw: seq<R.Resource>, r: R.Resource)
    requires r in R.FirstWins(raw)
    ensures r in raw
  {
    if raw != [] && r in R.FirstWins(raw[..|raw| - 1]) {
      FirstOnesAreDeclared(raw[..|raw| - 1], r);
    }
  }

  /** Every resource an actuator declares is one that could be parsed. */
  ghost predicate WellDeclared(env: Env) {
    forall n: nat, r | ActionAt(env, n).Acts? && r in ActionAt(env, n).resources :: R.WellFormed(r)
  }

  lemma RegistryIsRegistered(rs: seq<R.Resource>, incoming: seq<R.Resource>)
    requires R.IsRegistry(rs, incoming)
    ensures Registered(rs)
  {
    forall r | r in rs ensures R.DistinctIds(r.finalizers) {
      var i :| 0 <= i < |rs| && rs[i] == r;
      assert R.IsEntry(rs[i], R.FirstSeen(incoming)[i], incoming);
      R.MergedIsDistinct(R.AllFinalizers(R.Declared(incoming, R.FirstSeen(incoming)[i])));
    }
  }

  lemma RunsRegister(b: Brakes, env: Env, s: Status)
    requires Stopped(b, env, s) && WellDeclared(env)
    ensures Registered(s.work.resources)
  {
    StoppedRunsAreAffordable(b, env, s);
    DeclarationsAreWellFormed(env, |s.work.actions|);
    R.RegistrationsMerge(Declarations(s.work.actions));
    RegistryIsRegistered(s.work.resources, Declarations(s.work.actions));
  }

  /** How a loop run closes out: each result answers for a finalizer registered for
      the way the run stopped, and the run fails in the end exactly when one of
      them was required and the host did not say that it succeeded. */
  lemma CloseoutDecides(b: Brakes, env: Env, s: Status, results: seq<R.FinalizerResult>, state: LoopState)
    requires BrakesOk(b) && EndsIn(b, env, s) && WellDeclared(env)
    requires results == CloseoutResults(env, s)
    requires state == if R.RequiredFailure(results) then HaltedFinalizerError else s.state
    ensures forall x | x in results ::
              exists r, f :: DeclaredFor(s.work.resources, r, f, x.trigger) && ClosesWith(s.state, x.trigger)
                             && Came(x, r, f, x.trigger, env.finalizer)
    ensures state == HaltedFinalizerError <==>
            exists trigger, r, f ::
              && DeclaredFor(s.work.resources, r, f, trigger) && ClosesWith(s.state, trigger)
              && f.policy == R.Required && !Cleaned(r, f, trigger, env.finalizer)
    ensures state != HaltedFinalizerError ==> state == s.state
  {
    RunsStop(b, env, s);
    RunsRegister(b, env, s);
    StateIsNot(b, env, s);
    forall trigger ensures TriggerOf(s.state) == Some(trigger) <==> ClosesWith(s.state, trigger) {
      TriggerCloses(s.state, trigger);
    }
    if TriggerOf(s.state).Some? {
      var trigger := TriggerOf(s.state).value;
      RequiredFailureExactlyWhen(s.work.resources, trigger, env.finalizer);
      forall x | x in results
        ensures exists r, f :: DeclaredFor(s.work.resources, r, f, x.trigger) && ClosesWith(s.state, x.trigger)
                               && Came(x, r, f, x.trigger, env.finalizer)
      {
        ResultsCame(s.work.resources, trigger, env.finalizer, {}, x);
      }
    }
  }

  lemma StateIsNot(b: Brakes, env: Env, s: Status)
    requires Stopped(b, env, s)
    ensures s.state != HaltedFinalizerError
  {
  }
}
