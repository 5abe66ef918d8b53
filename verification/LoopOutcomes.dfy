/** What the end of a loop run (loops.py:300-470) says about the answers that the
    caller's actuator gave, told without the controller's own bookkeeping. */
module LoopOutcomes {
  import opened Json
  import opened Loop

  /** The actuator's n-th answer, counted from one. */
  function Answer(env: Env, n: nat): Action {
    if n == 0 then ActuatorRaises else ActionAt(env, n - 1)
  }

  /** An action that was not denied a grant and did not ask to suspend. */
  predicate Quiet(a: Action) {
    a.Acts? && !a.grantDenied && a.suspension == None
  }

  ghost predicate AllQuiet(env: Env, n: nat) {
    forall i: nat | 1 <= i <= n :: Quiet(Answer(env, i))
  }

  /** The actuator's first `n` answers cost more than the loop may spend. */
  predicate Over(b: Brakes, env: Env, n: nat) {
    b.maxCost.Some? && Sum(CostsOf(Taken(env, n))) > b.maxCost.value
  }

  /** The look at the clock that follows the `n`-th action finds time left. */
  predicate ActedInTime(env: Env, n: nat) {
    n > 0 && !LateAt(env, Looks(n) - 1)
  }

  /** The `n`-th action was completed in time, and its cost could be paid. */
  predicate Paid(b: Brakes, env: Env, n: nat) {
    ActedInTime(env, n) && Answer(env, n).Acts? && !Over(b, env, n)
  }

  /** A run that took `n` actions stops for the last of them exactly when that was
      in time and too dear, or paid and denied, or granted and to be waited for. */
  ghost predicate StopsForItsAction(b: Brakes, env: Env, n: nat, stop: LoopState) {
    && (stop == HaltedBudgetCap <==> ActedInTime(env, n) && Over(b, env, n))
    && (stop == HaltedGrantDenied <==> Paid(b, env, n) && Answer(env, n).grantDenied)
    && (stop == WaitingForEvent <==>
          Paid(b, env, n) && !Answer(env, n).grantDenied && Answer(env, n).suspension == Some(WaitForEvent))
    && (stop == WaitingForApproval <==>
          Paid(b, env, n) && !Answer(env, n).grantDenied && Answer(env, n).suspension == Some(WaitForApproval))
  }

  lemma TurningTakes(b: Brakes, env: Env, s: Status)
    requires Turning(b, env, s)
    ensures var n := |s.work.actions|;
            && s.state == Running && n == s.senses.iterations && s.clockReads == Looks(n)
            && s.work.costs == CostsOf(Taken(env, n)) && !Over(b, env, n)
  {
    assert s.work.actions[..|s.work.costs|] == s.work.actions;
  }

  /** A quiet and affordable past stops nothing. */
  lemma QuietStopsNothing(b: Brakes, env: Env, n: nat, stop: LoopState)
    requires n > 0 ==> Quiet(Answer(env, n))
    requires !Over(b, env, n)
    requires stop !in {HaltedBudgetCap, HaltedGrantDenied, WaitingForEvent, WaitingForApproval}
    ensures StopsForItsAction(b, env, n, stop)
  {
  }

  lemma OneAnswerMore(env: Env, n: nat)
    ensures CostsOf(Taken(env, n + 1)) == CostsOf(Taken(env, n)) + [CostOf(Answer(env, n + 1))]
  {
    var taken := Taken(env, n + 1);
    assert taken == Taken(env, n) + [Answer(env, n + 1)];
    assert taken[..|taken| - 1] == Taken(env, n);
  }

  lemma VerdictIsTheAnswers(b: Brakes, env: Env, n: nat)
    requires Answer(env, n + 1).Acts? && ActedInTime(env, n + 1)
    ensures var stop := Verdict(b, CostsOf(Taken(env, n)) + [Answer(env, n + 1).cost], Answer(env, n + 1));
            && StopsForItsAction(b, env, n + 1, stop)
            && (stop == Running ==> Quiet(Answer(env, n + 1)))
  {
    OneAnswerMore(env, n);
    assert CostsOf(Taken(env, n)) + [Answer(env, n + 1).cost] == CostsOf(Taken(env, n + 1));
    VerdictSays(b, env, n + 1, CostsOf(Taken(env, n + 1)));
  }

  lemma VerdictSays(b: Brakes, env: Env, n: nat, costs: seq<real>)
    requires Answer(env, n).Acts? && ActedInTime(env, n) && costs == CostsOf(Taken(env, n))
    ensures var stop := Verdict(b, costs, Answer(env, n));
            && StopsForItsAction(b, env, n, stop)
            && (stop == Running ==> Quiet(Answer(env, n)))
  {
    OneOfTwo(Answer(env, n).suspension);
  }

  lemma OneOfTwo(asked: Option<Suspension>)
    ensures asked in {None, Some(WaitForEvent), Some(WaitForApproval)}
  {
    match asked {
      case Some(s) => match s { case WaitForEvent => case WaitForApproval => }
      case None =>
    }
  }

  /** How the acting half goes on from the middle of a turn. */
  lemma ActingAnswers(b: Brakes, env: Env, s: Status, n: nat)
    requires |s.work.actions| == n && s.clockReads == Looks(n + 1) - 2
    requires s.work.costs == CostsOf(Taken(env, n))
    requires (n > 0 ==> Quiet(Answer(env, n))) && !Over(b, env, n)
    ensures var t := Acting(b, env, s);
            && n <= |t.work.actions| <= n + 1
            && StopsForItsAction(b, env, |t.work.actions|, t.state)
            && (t.state == Running ==> |t.work.actions| == n + 1 && Quiet(Answer(env, n + 1)))
  {
    var t := Acting(b, env, s);
    if env.actuator.None? || n >= b.maxSteps || LateAt(env, s.clockReads) || ActionAt(env, n).ActuatorRaises? {
      QuietStopsNothing(b, env, n, t.state);
    } else if LateAt(env, s.clockReads + 1) {
      ActingLate(b, env, s);
      assert !ActedInTime(env, n + 1);
    } else {
      ActingCharges(b, env, s);
      VerdictIsTheAnswers(b, env, n);
    }
  }

  lemma SensingDecides(b: Brakes, env: Env, s: Status)
    requires s.state == Running
    ensures var t := Sensing(b, env, s);
            t.work == s.work && t.state in {Running, HaltedTimeCap, HaltedSensorError, Converged, HaltedStalled}
  {
  }

  lemma ReadyIs(b: Brakes, env: Env, s: Status)
    requires Ready(b, env, s)
    ensures s.clockReads == Looks(|s.work.actions| + 1) - 2
  {
  }

  /** A turn after `n` quiet actions ends in at most one action more, quiet if the
      run goes on. */
  ghost predicate TurnsOn(b: Brakes, env: Env, n: nat, t: Status) {
    && n <= |t.work.actions| <= n + 1
    && StopsForItsAction(b, env, |t.work.actions|, t.state)
    && (t.state == Running ==> |t.work.actions| == n + 1 && Quiet(Answer(env, n + 1)))
  }

  lemma TurnAnswers(b: Brakes, env: Env, s: Status)
    requires Turning(b, env, s) && AllQuiet(env, |s.work.actions|)
    ensures TurnsOn(b, env, |s.work.actions|, Turn(b, env, s))
  {
    hide Turning;
    hide Ready;
    hide Stopped;
    hide Acting;
    hide Sensing;
    hide StopsForItsAction;
    TurningTakes(b, env, s);
    SensingKeeps(b, env, s);
    var t := Sensing(b, env, s);
    SensingDecides(b, env, s);
    if t.state == Running {
      ReadyIs(b, env, t);
      ActingAnswers(b, env, t, |s.work.actions|);
    } else {
      QuietStopsNothing(b, env, |s.work.actions|, t.state);
    }
  }

  /** What every run owes its actuator's answers, stopped or not. */
  ghost predicate Answers(b: Brakes, env: Env, s: Status) {
    var n := |s.work.actions|;
    if s.state == Running then AllQuiet(env, n)
    else (n > 0 ==> AllQuiet(env, n - 1)) && StopsForItsAction(b, env, n, s.state)
  }

  lemma NextAnswers(b: Brakes, env: Env, s: Status)
    requires OnItsWay(b, env, s) && Answers(b, env, s)
    ensures Answers(b, env, Next(b, env, s))
  {
    hide Turning;
    hide Stopped;
    hide Turn;
    hide StopsForItsAction;
    if s.state == Running {
      TurnAnswers(b, env, s);
    }
  }

  lemma PlannedAnswers(b: Brakes, env: Env)
    ensures Answers(b, env, PLANNED)
  {
  }

  lemma {:induction false} EveryTurnAnswers(b: Brakes, env: Env, n: nat)
    requires BrakesOk(b)
    ensures Answers(b, env, After(b, env, n))
  {
    hide OnItsWay;
    hide Answers;
    hide Next;
    if n == 0 {
      PlannedAnswers(b, env);
    } else {
      EveryTurnAnswers(b, env, n - 1);
      EveryTurnKeeps(b, env, n - 1);
      NextAnswers(b, env, After(b, env, n - 1));
    }
  }

  /** No action before the last was denied a grant or asked to suspend; and of a
      last action that was completed in time, a total too dear, a denied grant and
      each kind of suspension decide how the run ends, in this order. */
  lemma WaitsExactlyWhenAsked(b: Brakes, env: Env, s: Status)
    requires BrakesOk(b) && EndsIn(b, env, s)
    ensures var n := |s.work.actions|;
            && (forall i: nat | 1 <= i < n :: Quiet(Answer(env, i)))
            && (s.state == HaltedBudgetCap <==> ActedInTime(env, n) && Over(b, env, n))
            && (s.state == HaltedGrantDenied <==> Paid(b, env, n) && Answer(env, n).grantDenied)
            && (s.state == WaitingForEvent <==>
                  Paid(b, env, n) && !Answer(env, n).grantDenied && Answer(env, n).suspension == Some(WaitForEvent))
            && (s.state == WaitingForApproval <==>
                  Paid(b, env, n) && !Answer(env, n).grantDenied && Answer(env, n).suspension == Some(WaitForApproval))
  {
    var n: nat :| After(b, env, n) == s;
    EveryTurnAnswers(b, env, n);
  }

  /** Asked to suspend by an action, the loop takes no other; and it waits for what
      it was asked to, the action paid and not denied. */
  lemma SuspensionsAreWaitedFor(b: Brakes, env: Env, s: Status, i: nat)
    requires BrakesOk(b) && EndsIn(b, env, s)
    requires 1 <= i <= |s.work.actions| && Answer(env, i).Acts? && Answer(env, i).suspension.Some?
    ensures i == |s.work.actions|
    ensures Paid(b, env, i) && !Answer(env, i).grantDenied ==>
              s.state == if Answer(env, i).suspension == Some(WaitForEvent) then WaitingForEvent else WaitingForApproval
  {
    WaitsExactlyWhenAsked(b, env, s);
    OneOfTwo(Answer(env, i).suspension);
  }

  // ------------------------------------------------------------------------
  // Stopping before an action.
  // ------------------------------------------------------------------------

  /** The latest reading was in time, and neither converged nor stalled: it is for
      the actuator to go on. */
  ghost predicate Undecided(b: Brakes, env: Env, v: Senses) {
    LastRead(v, false) && !LateAfter(env, v.iterations) && !EndsStalled(Signals(v.readings), b.maxRepeatedSignal)
  }

  /** And it did not, no action having followed. */
  ghost predicate NotActed(b: Brakes, env: Env, s: Status) {
    Undecided(b, env, s.senses) && |s.work.actions| == s.senses.iterations - 1
  }

  /** The next action was tried, and raised. */
  predicate ActuatorRaised(b: Brakes, env: Env, n: nat) {
    env.actuator.Some? && n < b.maxSteps && !LateAt(env, Looks(n + 1) - 2) && ActionAt(env, n).ActuatorRaises?
  }

  ghost predicate StopsUnacted(b: Brakes, env: Env, s: Status) {
    var v, n := s.senses, |s.work.actions|;
    && (s.state == Converged <==> LastRead(v, true) && !LateAfter(env, v.iterations))
    && (s.state == HaltedSensorError <==> |v.readings| < v.iterations)
    && (s.state == HaltedActuatorError <==> NotActed(b, env, s) && (env.actuator.None? || ActuatorRaised(b, env, n)))
    && (s.state == HaltedStepCap <==> NotActed(b, env, s) && env.actuator.Some? && n >= b.maxSteps)
  }

  ghost predicate NoneConverged(readings: seq<Sense>) {
    forall i | 0 <= i < |readings| :: !readings[i].converged
  }

  lemma ReadyIsUndecided(b: Brakes, env: Env, s: Status)
    requires BrakesOk(b) && Ready(b, env, s)
    ensures Undecided(b, env, s.senses) && |s.work.actions| == s.senses.iterations - 1
    ensures s.clockReads == Looks(s.senses.iterations) - 2
  {
    StallsOnEqualSignals(Signals(s.senses.readings), b.maxRepeatedSignal);
  }

  /** Of the acting half. */
  lemma ActingStopsUnacted(b: Brakes, env: Env, s: Status, n: nat)
    requires Undecided(b, env, s.senses) && |s.work.actions| == n == s.senses.iterations - 1
    requires s.clockReads == Looks(n + 1) - 2
    ensures var t := Acting(b, env, s);
            t.senses == s.senses && StopsUnacted(b, env, t)
  {
    var t := Acting(b, env, s);
    assert Undecided(b, env, t.senses);
  }

  /** What the sensing half reads, and what it stops with. */
  ghost predicate Read(env: Env, before: Senses, t: Status) {
    var v := t.senses;
    || (t.state == HaltedTimeCap && v == before)
    || (t.state == HaltedSensorError && v.iterations == before.iterations + 1 && v.readings == before.readings)
    || (&& v.iterations == |v.readings| == before.iterations + 1 && v.readings[..|v.readings| - 1] == before.readings
        && (t.state == HaltedTimeCap <==> LateAfter(env, v.iterations))
        && (t.state == Converged <==> !LateAfter(env, v.iterations) && LastRead(v, true))
        && t.state in {HaltedTimeCap, Converged, HaltedStalled, Running})
  }

  lemma SensingReads(b: Brakes, env: Env, s: Status)
    requires s.state == Running && |s.senses.readings| == s.senses.iterations == |s.work.actions|
    requires s.clockReads == Looks(s.senses.iterations)
    ensures Sensing(b, env, s).work == s.work && Read(env, s.senses, Sensing(b, env, s))
  {
    SensingIs(b, env, s);
    assert Looks(s.senses.iterations + 1) - 3 == s.clockReads + 1;
  }

  lemma ReadStopsUnacted(b: Brakes, env: Env, before: Senses, t: Status)
    requires |before.readings| == before.iterations == |t.work.actions| && NoneConverged(before.readings)
    requires Read(env, before, t) && t.state != Running
    requires t.state == HaltedStalled <==>
             EndsStalled(Signals(t.senses.readings), b.maxRepeatedSignal) && LastRead(t.senses, false) && !LateAfter(env, t.senses.iterations)
    ensures StopsUnacted(b, env, t)
  {
    hide EndsStalled;
    hide LateAfter;
    hide LateAt;
  }

  lemma SensingStopsUnacted(b: Brakes, env: Env, s: Status, t: Status)
    requires BrakesOk(b) && Turning(b, env, s) && NoneConverged(s.senses.readings)
    requires t == Sensing(b, env, s) && t.state != Running && Stopped(b, env, t)
    ensures StopsUnacted(b, env, t)
  {
    TurningReads(b, env, s);
    hide Turning;
    SensingReads(b, env, s);
    StalledExactlyWhen(b, env, t);
    hide Sensing;
    hide Stopped;
    hide Read;
    hide EndsStalled;
    hide StopsUnacted;
    ReadStopsUnacted(b, env, s.senses, t);
  }

  lemma TurningReads(b: Brakes, env: Env, s: Status)
    requires Turning(b, env, s)
    ensures s.state == Running && |s.senses.readings| == s.senses.iterations == |s.work.actions|
    ensures s.clockReads == Looks(s.senses.iterations)
  {
  }

  /** What holds of a run after any number of turns. */
  ghost predicate Unacted(b: Brakes, env: Env, s: Status) {
    if s.state == Running then NoneConverged(s.senses.readings)
    else StopsUnacted(b, env, s) && (s.senses.readings != [] ==> NoneConverged(s.senses.readings[..|s.senses.readings| - 1]))
  }

  lemma TurnIsUnacted(b: Brakes, env: Env, s: Status)
    requires BrakesOk(b) && Turning(b, env, s) && NoneConverged(s.senses.readings)
    ensures Unacted(b, env, Turn(b, env, s))
  {
    hide Turning;
    hide Stopped;
    hide Ready;
    hide Sensing;
    hide Acting;
    hide StopsUnacted;
    TurningReads(b, env, s);
    SensingReads(b, env, s);
    SensingKeeps(b, env, s);
    var t := Sensing(b, env, s);
    if t.state == Running {
      ReadyIsUndecided(b, env, t);
      ActingStopsUnacted(b, env, t, |s.work.actions|);
    } else {
      SensingStopsUnacted(b, env, s, t);
    }
  }

  lemma NextIsUnacted(b: Brakes, env: Env, s: Status)
    requires BrakesOk(b) && OnItsWay(b, env, s) && Unacted(b, env, s)
    ensures Unacted(b, env, Next(b, env, s))
  {
    hide Turning;
    hide Stopped;
    hide Turn;
    if s.state == Running {
      TurnIsUnacted(b, env, s);
    }
  }

  lemma PlannedUnacted(b: Brakes, env: Env)
    ensures Unacted(b, env, PLANNED)
  {
  }

  lemma {:induction false} EveryTurnIsUnacted(b: Brakes, env: Env, n: nat)
    requires BrakesOk(b)
    ensures Unacted(b, env, After(b, env, n))
  {
    hide OnItsWay;
    hide Unacted;
    hide Next;
    if n == 0 {
      PlannedUnacted(b, env);
    } else {
      EveryTurnIsUnacted(b, env, n - 1);
      EveryTurnKeeps(b, env, n - 1);
      NextIsUnacted(b, env, After(b, env, n - 1));
    }
  }

  /** Only the last reading can have converged, and in time it ends the run so; a
      sensing without a reading ends it, and so does, before an action, the want of
      an actuator, of a step left, or of an answer. */
  lemma StopsBeforeActingExactlyWhen(b: Brakes, env: Env, s: Status)
    requires BrakesOk(b) && EndsIn(b, env, s)
    ensures var v, n := s.senses, |s.work.actions|;
            && (forall i | 0 <= i < |v.readings| - 1 :: !v.readings[i].converged)
            && (s.state == Converged <==> LastRead(v, true) && !LateAfter(env, v.iterations))
            && (s.state == HaltedSensorError <==> |v.readings| < v.iterations)
            && (s.state == HaltedActuatorError <==> NotActed(b, env, s) && (env.actuator.None? || ActuatorRaised(b, env, n)))
            && (s.state == HaltedStepCap <==> NotActed(b, env, s) && env.actuator.Some? && n >= b.maxSteps)
  {
    var n: nat :| After(b, env, n) == s;
    EveryTurnIsUnacted(b, env, n);
  }
}
