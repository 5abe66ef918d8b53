/** The feedback-loop controller (loops.py): one unbounded loop that only its
    brakes bound. The sensor, the actuator, the clock and the grant broker are
    arbitrary: the n-th use of each may answer anything. Costs are reals. */
module Loop {
  import opened Json
  import Resources

  datatype Reading = SensorRaises | Reads(converged: bool, signal: string, noise: bool)

  datatype Suspension = WaitForEvent | WaitForApproval

  datatype Action =
    | ActuatorRaises     // or returned something malformed
    | Acts(cost: real, suspension: Option<Suspension>, resources: seq<Resources.Resource>, grantDenied: bool)

  datatype Brakes = Brakes(maxSteps: nat, maxRepeatedSignal: nat, maxSensorRetries: nat, maxCost: Option<real>)

  datatype LoopState =
    | Running | Converged | HaltedTimeCap | HaltedSensorError | HaltedStalled | HaltedActuatorError
    | HaltedStepCap | HaltedBudgetCap | HaltedGrantDenied | WaitingForEvent | WaitingForApproval
    | HaltedFinalizerError

  datatype Env = Env(
    sensor: nat -> Reading,
    actuator: Option<nat -> Action>,
    timeExceeded: nat -> bool,
    finalizer: Resources.Runner)

  datatype Sense = Sense(converged: bool, signal: string)

  /** What loop validation guarantees of the brakes. */
  predicate BrakesOk(b: Brakes) {
    b.maxSteps >= 1 && b.maxRepeatedSignal >= 1 && (b.maxCost.Some? ==> b.maxCost.value >= 0.0)
  }

  function SensorAt(env: Env, n: nat): Reading {
    env.sensor(n)
  }

  /** The n-th action; without an actuator there is none. */
  function ActionAt(env: Env, n: nat): Action {
    if env.actuator.Some? then env.actuator.value(n) else ActuatorRaises
  }

  predicate LateAt(env: Env, n: nat) {
    env.timeExceeded(n)
  }

  /** What an action charges; one that raised charges nothing. */
  function CostOf(a: Action): real {
    if a.Acts? then a.cost else 0.0
  }

  /** The actuator's first `n` answers. */
  function Taken(env: Env, n: nat): (s: seq<Action>)
    ensures |s| == n
  {
    if n == 0 then [] else Taken(env, n - 1) + [ActionAt(env, n - 1)]
  }

  function CostsOf(actions: seq<Action>): (s: seq<real>)
    ensures |s| == |actions|
  {
    if actions == [] then [] else CostsOf(actions[..|actions| - 1]) + [CostOf(actions[|actions| - 1])]
  }

  /** What the actions declared, the first declaration within each winning. */
  function Declarations(actions: seq<Action>): seq<Resources.Resource> {
    if actions == [] then []
    else
      var a := actions[|actions| - 1];
      Declarations(actions[..|actions| - 1]) + if a.Acts? then Resources.FirstWins(a.resources) else []
  }

  // ------------------------------------------------------------------------
  // Signals and costs.
  // ------------------------------------------------------------------------

  function Signals(readings: seq<Sense>): (s: seq<string>)
    ensures |s| == |readings|
  {
    if readings == [] then [] else Signals(readings[..|readings| - 1]) + [readings[|readings| - 1].signal]
  }

  predicate AllEqual(s: seq<string>) {
    forall i | 0 <= i < |s| :: s[i] == s[0]
  }

  /** Length of the last stretch of equal signals. */
  function LastStretch(s: seq<string>): (n: nat)
    ensures n <= |s|
    ensures s != [] ==> n >= 1
  {
    if |s| <= 1 then |s|
    else if s[|s| - 1] == s[|s| - 2] then 1 + LastStretch(s[..|s| - 1])
    else 1
  }

  lemma EqualOneMore(s: seq<string>, x: string)
    requires s != [] && AllEqual(s) && s[|s| - 1] == x
    ensures AllEqual(s + [x])
  {
    var t := s + [x];
    forall i | 0 <= i < |t| ensures t[i] == t[0] {
      if i < |s| {
        assert t[i] == s[i];
      }
    }
  }

  /** Those signals are equal, and the one before them, if any, is not. */
  lemma {:induction false} LastStretchIsEqual(s: seq<string>)
    ensures AllEqual(s[|s| - LastStretch(s)..])
    ensures 0 < LastStretch(s) < |s| ==> s[|s| - LastStretch(s) - 1] != s[|s| - 1]
  {
    if |s| >= 2 && s[|s| - 1] == s[|s| - 2] {
      var front, n := s[..|s| - 1], LastStretch(s);
      LastStretchIsEqual(front);
      var frontTail := front[|front| - (n - 1)..];
      assert |frontTail| == n - 1 && frontTail[n - 2] == front[|front| - 1];
      EqualOneMore(frontTail, s[|s| - 1]);
      assert s[|s| - n..] == frontTail + [s[|s| - 1]];
    }
  }

  function Sum(costs: seq<real>): real {
    if costs == [] then 0.0 else Sum(costs[..|costs| - 1]) + costs[|costs| - 1]
  }

  /** Equal signals at the end make the last stretch long. */
  lemma {:induction false} EqualSuffixStretches(s: seq<string>, k: nat)
    requires k <= |s| && AllEqual(s[|s| - k..])
    ensures LastStretch(s) >= k
  {
    if k >= 2 {
      var front, tail := s[..|s| - 1], s[|s| - k..];
      var frontTail := front[|front| - (k - 1)..];
      forall i | 0 <= i < |frontTail| ensures frontTail[i] == frontTail[0] {
        assert frontTail[i] == tail[i] && frontTail[0] == tail[0];
      }
      assert tail[k - 1] == s[|s| - 1] && tail[k - 2] == s[|s| - 2];
      EqualSuffixStretches(front, k - 1);
    }
  }

  /** And a long last stretch is equal signals at the end. */
  lemma StretchIsEqualSuffix(s: seq<string>, k: nat)
    requires 1 <= k <= LastStretch(s)
    ensures k <= |s| && AllEqual(s[|s| - k..])
  {
    LastStretchIsEqual(s);
    ShorterSuffix(s, LastStretch(s), k);
  }

  lemma ShorterSuffix(s: seq<string>, n: nat, k: nat)
    requires k <= n <= |s| && AllEqual(s[|s| - n..])
    ensures AllEqual(s[|s| - k..])
  {
    var long, short := s[|s| - n..], s[|s| - k..];
    forall i | 0 <= i < |short| ensures short[i] == short[0] {
      assert short[i] == long[n - k + i] && short[0] == long[n - k];
    }
  }

  // ------------------------------------------------------------------------
  // What a run keeps true.
  // ------------------------------------------------------------------------

  /** The stall check of one turn, which spares the first reading. */
  predicate Stalls(iteration: nat, repeated: nat, k: nat) {
    iteration > 1 && repeated >= k
  }

  /** At no point so far did the brake see a stall. */
  ghost predicate Unstalled(b: Brakes, signals: seq<string>) {
    signals == [] ||
    (!Stalls(|signals|, LastStretch(signals), b.maxRepeatedSignal) && Unstalled(b, signals[..|signals| - 1]))
  }

  /** Nor at any point but the last. */
  ghost predicate UnstalledBefore(b: Brakes, signals: seq<string>) {
    signals != [] ==> Unstalled(b, signals[..|signals| - 1])
  }

  lemma {:induction false} UnstalledPrefix(b: Brakes, signals: seq<string>, n: nat)
    requires Unstalled(b, signals) && 1 <= n <= |signals|
    ensures !Stalls(n, LastStretch(signals[..n]), b.maxRepeatedSignal)
  {
    if n == |signals| {
      assert signals[..n] == signals;
    } else {
      UnstalledPrefix(b, signals[..|signals| - 1], n);
      assert signals[..|signals| - 1][..n] == signals[..n];
    }
  }

  ghost predicate Affordable(b: Brakes, costs: seq<real>) {
    b.maxCost.Some? ==> Sum(costs) <= b.maxCost.value
  }

  /** Without its last action, the run cost no more than allowed. */
  ghost predicate AffordableButLast(b: Brakes, actions: seq<Action>) {
    actions != [] ==> Affordable(b, CostsOf(actions[..|actions| - 1]))
  }

  /** The actions taken are the actuator's, in order; what they cost was charged;
      what they declared is registered. */
  ghost predicate Acted(env: Env, actions: seq<Action>, costs: seq<real>, resources: seq<Resources.Resource>) {
    && actions == Taken(env, |actions|)
    && |costs| <= |actions| && costs == CostsOf(actions[..|costs|])
    && resources == Resources.RegisterAll([], Declarations(actions))
  }

  lemma SumOneMore(costs: seq<real>, cost: real)
    ensures Sum(costs + [cost]) == Sum(costs) + cost
    ensures (costs + [cost])[..|costs|] == costs
  {
  }

  lemma OneMoreCost(actions: seq<Action>, a: Action)
    ensures CostsOf((actions + [a])[..|actions|]) == CostsOf(actions)
    ensures CostsOf((actions + [a])[..|actions| + 1]) == CostsOf(actions) + [CostOf(a)]
  {
    assert (actions + [a])[..|actions|] == actions;
    assert (actions + [a])[..|actions| + 1] == actions + [a];
  }

  lemma OneMoreDeclaration(actions: seq<Action>, a: Action)
    requires a.Acts?
    ensures Resources.RegisterAll([], Declarations(actions + [a])) ==
            Resources.RegisterAll(Resources.RegisterAll([], Declarations(actions)), Resources.FirstWins(a.resources))
  {
    assert (actions + [a])[..|actions|] == actions;
    RegisterAllAppend([], Declarations(actions), Resources.FirstWins(a.resources));
  }

  /** The next action, recorded, charged and registered. */
  lemma OneMoreAction(env: Env, actions: seq<Action>, costs: seq<real>, resources: seq<Resources.Resource>)
    requires Acted(env, actions, costs, resources) && |costs| == |actions| && ActionAt(env, |actions|).Acts?
    ensures var a := ActionAt(env, |actions|);
            var after := Resources.RegisterAll(resources, Resources.FirstWins(a.resources));
            && Acted(env, actions + [a], costs, after)
            && Acted(env, actions + [a], costs + [a.cost], after)
  {
    var a := ActionAt(env, |actions|);
    assert actions[..|costs|] == actions;
    OneMoreCost(actions, a);
    OneMoreDeclaration(actions, a);
  }

  lemma OneMoreSignal(s: seq<string>, x: string)
    ensures LastStretch(s + [x]) == if s != [] && s[|s| - 1] == x then LastStretch(s) + 1 else 1
    ensures (s + [x])[..|s|] == s
  {
    assert (s + [x])[..|s|] == s;
  }

  // ------------------------------------------------------------------------
  // The run.
  // ------------------------------------------------------------------------

  datatype Sensed = Result(sense: Sense) | SensorFailed

  /** The reading of one sensing, and how often the sensor was asked for it: the
      first that is not noise, among the first and at most `retries` more. */
  function Clear(env: Env, from: nat, retries: nat): (r: (Sensed, nat))
    ensures 1 <= r.1 <= retries + 1
    decreases retries
  {
    var reading := SensorAt(env, from);
    if reading.SensorRaises? then (SensorFailed, 1)
    else if !reading.noise then (Result(Sense(reading.converged, reading.signal)), 1)
    else if retries == 0 then (SensorFailed, 1)
    else
      var rest := Clear(env, from + 1, retries - 1);
      (rest.0, rest.1 + 1)
  }

  /** `_read_sensor_with_noise_retry`. */
  method ReadSensor(env: Env, from: nat, maxRetries: nat) returns (r: Sensed, used: nat)
    ensures (r, used) == Clear(env, from, maxRetries)
  {
    var attempts := 0;
    while true
      invariant 0 <= attempts <= maxRetries
      invariant var rest := Clear(env, from + attempts, maxRetries - attempts);
                Clear(env, from, maxRetries) == (rest.0, rest.1 + attempts)
      decreases maxRetries - attempts
    {
      var reading := SensorAt(env, from + attempts);
      if reading.SensorRaises? {
        return SensorFailed, attempts + 1;
      }
      if !reading.noise {
        return Result(Sense(reading.converged, reading.signal)), attempts + 1;
      }
      if attempts >= maxRetries {
        return SensorFailed, attempts + 1;
      }
      attempts := attempts + 1;
    }
  }

  /** A sensing gives up exactly on a sensor that raises, or on noise to the end. */
  lemma {:induction false} ClearIsTheFirstClearReading(env: Env, from: nat, retries: nat)
    ensures var (r, used) := Clear(env, from, retries);
            var last := SensorAt(env, from + used - 1);
            && (forall i: nat | from <= i < from + used - 1 :: SensorAt(env, i).Reads? && SensorAt(env, i).noise)
            && (r.Result? <==> last.Reads? && !last.noise)
            && (r.Result? ==> r.sense == Sense(last.converged, last.signal))
            && (r.SensorFailed? ==> last.SensorRaises? || used == retries + 1)
    decreases retries
  {
    var reading := SensorAt(env, from);
    if reading.Reads? && reading.noise && retries > 0 {
      ClearIsTheFirstClearReading(env, from + 1, retries - 1);
    }
  }

  /** `_finalizer_trigger`. */
  function TriggerOf(state: LoopState): Option<Resources.Trigger> {
    match state
    case Converged => Some(Resources.Success)
    case HaltedTimeCap => Some(Resources.Timeout)
    case HaltedSensorError | HaltedStalled | HaltedActuatorError | HaltedStepCap | HaltedBudgetCap | HaltedGrantDenied => Some(Resources.Failure)
    case _ => None
  }

  /** The sensing half of a run's status: `sensor_results` and how often the sensor was asked. */
  datatype Senses = Senses(iterations: nat, readings: seq<Sense>, calls: nat)

  /** The acting half: `actuator_results`, the charged costs, and the resources. */
  datatype Work = Work(actions: seq<Action>, costs: seq<real>, resources: seq<Resources.Resource>, calls: nat)

  /** A call of one of the caller's two functions. */
  datatype Use = Sensor | Actuator

  /** `repeated` is the controller's count of equal signals in a row; `uses` is
      the history of calls. */
  datatype Status = Status(state: LoopState, senses: Senses, work: Work, clockReads: nat, repeated: nat, uses: seq<Use>)

  const PLANNED: Status := Status(Running, Senses(0, [], 0), Work([], [], [], 0), 0, 0, [])

  /** What the first `n` sensings give, and how often the sensor is asked for it. */
  function SensedIn(env: Env, retries: nat, n: nat): (v: Senses)
    ensures v.iterations == n && |v.readings| <= n <= v.calls
  {
    if n == 0 then Senses(0, [], 0)
    else
      var v := SensedIn(env, retries, n - 1);
      var (sensed, used) := Clear(env, v.calls, retries);
      Senses(n, v.readings + if sensed.Result? then [sensed.sense] else [], v.calls + used)
  }

  /** None of the first `n` sensings failed. */
  ghost predicate AllClear(env: Env, retries: nat, n: nat) {
    |SensedIn(env, retries, n).readings| == n
  }

  function Asked(n: nat): (uses: seq<Use>)
    ensures |uses| == n && forall i | 0 <= i < n :: uses[i] == Sensor
  {
    if n == 0 then [] else Asked(n - 1) + [Sensor]
  }

  /** Sensings and actions take turns, a sensing first: `n` sensings, each but
      the last followed by one action, and the last too if `acts` reaches it. */
  function Alternating(env: Env, retries: nat, n: nat, acts: nat): seq<Use> {
    if n == 0 then []
    else
      Alternating(env, retries, n - 1, n - 1)
      + Asked(Clear(env, SensedIn(env, retries, n - 1).calls, retries).1)
      + if acts >= n then [Actuator] else []
  }

  ghost predicate SensesOk(env: Env, retries: nat, v: Senses) {
    v == SensedIn(env, retries, v.iterations) && |v.readings| == v.iterations
  }

  /** Only the last sensing may have failed. */
  ghost predicate SensesStopped(env: Env, retries: nat, v: Senses) {
    && v == SensedIn(env, retries, v.iterations)
    && (v.iterations > 0 ==> AllClear(env, retries, v.iterations - 1))
  }

  ghost predicate WorkOk(b: Brakes, env: Env, w: Work) {
    && w.calls == |w.actions| == |w.costs| <= b.maxSteps
    && Affordable(b, w.costs) && AffordableButLast(b, w.actions)
    && Acted(env, w.actions, w.costs, w.resources)
  }

  ghost predicate WorkStopped(b: Brakes, env: Env, w: Work) {
    && |w.costs| <= |w.actions| <= |w.costs| + 1
    && |w.actions| <= w.calls <= b.maxSteps
    && AffordableButLast(b, w.actions)
    && Acted(env, w.actions, w.costs, w.resources)
  }

  /** The last reading was the last iteration's. */
  ghost predicate LastRead(v: Senses, converged: bool) {
    |v.readings| == v.iterations > 0 && v.readings[v.iterations - 1].converged == converged
  }

  datatype Watch = InTime | JustLate | LateBefore

  /** What the first `n` looks at the clock found: never late, or late at the last
      of them and not before, or late before that. */
  ghost function Watched(env: Env, n: nat): Watch {
    if forall k: nat | k < n :: !LateAt(env, k) then InTime
    else if forall k: nat | k < n - 1 :: !LateAt(env, k) then JustLate
    else LateBefore
  }

  lemma OneLookMore(env: Env, n: nat)
    requires Watched(env, n) == InTime
    ensures Watched(env, n + 1) == if LateAt(env, n) then JustLate else InTime
  {
  }

  lemma TwoLooksMore(env: Env, n: nat)
    requires Watched(env, n) == InTime && !LateAt(env, n)
    ensures Watched(env, n + 2) == if LateAt(env, n + 1) then JustLate else InTime
  {
    OneLookMore(env, n);
    OneLookMore(env, n + 1);
  }

  /** How often complete turns look at the clock: four times each. */
  function Looks(turns: nat): nat {
    turns + turns + turns + turns
  }

  /** The clock is late at the last look of a run it stops, and at no other. */
  ghost predicate Looked(env: Env, clock: nat, stop: LoopState) {
    Watched(env, clock) == if stop == HaltedTimeCap then JustLate else InTime
  }

  /** Ways to stop before acting are what their names say, and so is the number of
      looks at the clock: four a turn, of which the first comes before the sensing
      and the second after it. */
  ghost predicate SensesExplain(b: Brakes, v: Senses, clock: nat, stop: LoopState) {
    match stop
    case Converged => LastRead(v, true) && clock == Looks(v.iterations) - 2
    case HaltedTimeCap =>
      && |v.readings| == v.iterations
      && (clock == Looks(v.iterations) - 2 || (clock == Looks(v.iterations) + 1 && Unstalled(b, Signals(v.readings))))
    case HaltedSensorError => |v.readings| == v.iterations - 1 && clock == Looks(v.iterations) - 3
    case HaltedStalled =>
      && LastRead(v, false) && clock == Looks(v.iterations) - 2
      && Stalls(v.iterations, LastStretch(Signals(v.readings)), b.maxRepeatedSignal)
    case _ => false
  }

  ghost predicate LastActed(w: Work) {
    w.actions != [] && w.actions[|w.actions| - 1].Acts?
  }

  /** `n` actions were called, and all of them completed and charged. */
  predicate Completed(w: Work, n: int) {
    w.calls == |w.actions| == |w.costs| == n
  }

  /** And so are the ways to stop in or after the `n`-th action, which the third
      look precedes and the fourth follows. */
  ghost predicate WorkExplains(b: Brakes, env: Env, w: Work, n: nat, clock: nat, stop: LoopState) {
    match stop
    case HaltedTimeCap =>
      || (Completed(w, n - 1) && clock == Looks(n) - 1)
      || (w.calls == |w.actions| == n == |w.costs| + 1 && clock == Looks(n))
    case HaltedActuatorError =>
      || (env.actuator.None? && Completed(w, n - 1) && clock == Looks(n) - 2)
      || (w.calls == n == |w.actions| + 1 == |w.costs| + 1 && ActionAt(env, |w.actions|).ActuatorRaises? && clock == Looks(n) - 1)
    case HaltedStepCap => Completed(w, n - 1) && |w.actions| == b.maxSteps && clock == Looks(n) - 2
    case HaltedBudgetCap => Charged(w, n, clock) && b.maxCost.Some? && Sum(w.costs) > b.maxCost.value
    case HaltedGrantDenied => Charged(w, n, clock) && LastActed(w) && w.actions[n - 1].grantDenied
    case WaitingForEvent => Charged(w, n, clock) && LastActed(w) && w.actions[n - 1].suspension == Some(WaitForEvent)
    case WaitingForApproval => Charged(w, n, clock) && LastActed(w) && w.actions[n - 1].suspension == Some(WaitForApproval)
    case _ => false
  }

  predicate Charged(w: Work, n: nat, clock: nat) {
    Completed(w, n) && clock == Looks(n)
  }

  /** Every way of stopping is what its name says, and a sensing that stopped the
      loop has no action after it. */
  ghost predicate Explained(b: Brakes, env: Env, s: Status) {
    || (&& SensesExplain(b, s.senses, s.clockReads, s.state)
        && Completed(s.work, if s.clockReads > Looks(s.senses.iterations) then s.senses.iterations else s.senses.iterations - 1))
    || (&& WorkExplains(b, env, s.work, s.senses.iterations, s.clockReads, s.state)
        && LastRead(s.senses, false) && Unstalled(b, Signals(s.senses.readings)))
  }

  // ------------------------------------------------------------------------
  // One turn.
  // ------------------------------------------------------------------------

  /** The sensor's answer, recorded. */
  function AfterSensor(s: Status, sensed: Sensed, used: nat): Status {
    var v := s.senses.(iterations := s.senses.iterations + 1, calls := s.senses.calls + used);
    match sensed
    case SensorFailed => s.(senses := v, state := HaltedSensorError, clockReads := s.clockReads + 1, uses := s.uses + Asked(used))
    case Result(sense) =>
      var same := v.readings != [] && sense.signal == v.readings[|v.readings| - 1].signal;
      s.(senses := v.(readings := v.readings + [sense]), clockReads := s.clockReads + 1,
         repeated := if same then s.repeated + 1 else 1, uses := s.uses + Asked(used))
  }

  /** What the latest reading decides, at the given reading of the clock. */
  function ReadingVerdict(b: Brakes, env: Env, v: Senses, clock: nat, repeated: nat): LoopState
    requires v.readings != []
  {
    if LateAt(env, clock) then HaltedTimeCap
    else if v.readings[|v.readings| - 1].converged then Converged
    else if Stalls(v.iterations, repeated, b.maxRepeatedSignal) then HaltedStalled
    else Running
  }

  function Judged(b: Brakes, env: Env, s: Status): Status
    requires s.senses.readings != []
  {
    s.(clockReads := s.clockReads + 1, state := ReadingVerdict(b, env, s.senses, s.clockReads, s.repeated))
  }

  /** The first part of a turn. */
  function Sensing(b: Brakes, env: Env, s: Status): Status {
    if LateAt(env, s.clockReads) then s.(state := HaltedTimeCap, clockReads := s.clockReads + 1)
    else
      var (sensed, used) := Clear(env, s.senses.calls, b.maxSensorRetries);
      var t := AfterSensor(s, sensed, used);
      if t.state == HaltedSensorError || t.senses.readings == [] then t else Judged(b, env, t)
  }

  /** An action that completed: recorded, and its resources registered. */
  function Recorded(w: Work, action: Action): Work
    requires action.Acts?
  {
    Work(w.actions + [action], w.costs,
         Resources.RegisterAll(w.resources, Resources.FirstWins(action.resources)), w.calls + 1)
  }

  /** What a completed action decides, its cost charged. */
  function Verdict(b: Brakes, costs: seq<real>, action: Action): LoopState
    requires action.Acts?
  {
    if b.maxCost.Some? && Sum(costs) > b.maxCost.value then HaltedBudgetCap
    else if action.grantDenied then HaltedGrantDenied
    else if action.suspension == Some(WaitForEvent) then WaitingForEvent
    else if action.suspension == Some(WaitForApproval) then WaitingForApproval
    else Running
  }

  /** The second part of a turn. */
  function Acting(b: Brakes, env: Env, s: Status): Status {
    var w := s.work;
    if env.actuator.None? then s.(state := HaltedActuatorError)
    else if |w.actions| >= b.maxSteps then s.(state := HaltedStepCap)
    else if LateAt(env, s.clockReads) then s.(state := HaltedTimeCap, clockReads := s.clockReads + 1)
    else
      var action := ActionAt(env, |w.actions|);
      if action.ActuatorRaises? then
        s.(state := HaltedActuatorError, work := w.(calls := w.calls + 1), clockReads := s.clockReads + 1, uses := s.uses + [Actuator])
      else
        var t := s.(work := Recorded(w, action), clockReads := s.clockReads + 2, uses := s.uses + [Actuator]);
        if LateAt(env, s.clockReads + 1) then t.(state := HaltedTimeCap)
        else
          var costs := w.costs + [action.cost];
          t.(work := t.work.(costs := costs), state := Verdict(b, costs, action))
  }

  function Turn(b: Brakes, env: Env, s: Status): Status {
    var t := Sensing(b, env, s);
    if t.state == Running then Acting(b, env, t) else t
  }

  // ------------------------------------------------------------------------
  // What every turn keeps.
  // ------------------------------------------------------------------------

  ghost predicate Used(b: Brakes, env: Env, s: Status) {
    s.uses == Alternating(env, b.maxSensorRetries, s.senses.iterations, s.work.calls)
  }

  /** What holds of a run before each of its sensings and actions. */
  ghost predicate Steady(b: Brakes, env: Env, s: Status) {
    && s.state == Running && Used(b, env, s)
    && SensesOk(env, b.maxSensorRetries, s.senses) && Unstalled(b, Signals(s.senses.readings))
    && s.repeated == LastStretch(Signals(s.senses.readings))
  }

  /** Between turns as many readings as actions have been taken. */
  ghost predicate Turning(b: Brakes, env: Env, s: Status) {
    && Steady(b, env, s) && WorkOk(b, env, s.work) && Completed(s.work, s.senses.iterations)
    && s.clockReads == Looks(s.senses.iterations) && Watched(env, s.clockReads) == InTime
  }

  /** In the middle of a turn there is one reading more, and it has not converged. */
  ghost predicate Ready(b: Brakes, env: Env, s: Status) {
    && Steady(b, env, s) && WorkOk(b, env, s.work) && Completed(s.work, s.senses.iterations - 1)
    && LastRead(s.senses, false)
    && s.clockReads == Looks(s.senses.iterations) - 2 && Watched(env, s.clockReads) == InTime
  }

  ghost predicate Stopped(b: Brakes, env: Env, s: Status) {
    && s.state != Running && s.state != HaltedFinalizerError
    && SensesStopped(env, b.maxSensorRetries, s.senses) && UnstalledBefore(b, Signals(s.senses.readings))
    && WorkStopped(b, env, s.work) && Used(b, env, s)
    && s.senses.iterations - 1 <= s.work.calls <= s.senses.iterations
    && Explained(b, env, s) && Looked(env, s.clockReads, s.state)
  }

  lemma SignalsOneMore(readings: seq<Sense>, sense: Sense)
    ensures Signals(readings + [sense]) == Signals(readings) + [sense.signal]
    ensures readings != [] ==> Signals(readings)[|readings| - 1] == readings[|readings| - 1].signal
  {
    assert (readings + [sense])[..|readings|] == readings;
  }

  /** One sensing more, as a fold. */
  function OneMore(v: Senses, sensed: Sensed, used: nat): Senses {
    Senses(v.iterations + 1, v.readings + if sensed.Result? then [sensed.sense] else [], v.calls + used)
  }

  lemma NextSensing(env: Env, retries: nat, v: Senses)
    requires SensesOk(env, retries, v)
    ensures var (sensed, used) := Clear(env, v.calls, retries);
            SensesStopped(env, retries, OneMore(v, sensed, used))
  {
  }

  lemma ReadingKeepsUnstalled(b: Brakes, readings: seq<Sense>, sense: Sense)
    requires Unstalled(b, Signals(readings))
    ensures UnstalledBefore(b, Signals(readings + [sense]))
  {
    SignalsOneMore(readings, sense);
    OneMoreSignal(Signals(readings), sense.signal);
  }

  lemma OneMoreRepeated(v: Senses, sense: Sense)
    ensures LastStretch(Signals(v.readings + [sense])) ==
            if v.readings != [] && sense.signal == v.readings[|v.readings| - 1].signal then LastStretch(Signals(v.readings)) + 1 else 1
  {
    SignalsOneMore(v.readings, sense);
    OneMoreSignal(Signals(v.readings), sense.signal);
  }

  lemma UnstalledDropsLast(b: Brakes, signals: seq<string>)
    requires Unstalled(b, signals)
    ensures UnstalledBefore(b, signals)
  {
  }

  lemma OneMoreSensing(env: Env, retries: nat, n: nat)
    ensures Alternating(env, retries, n + 1, n)
            == Alternating(env, retries, n, n) + Asked(Clear(env, SensedIn(env, retries, n).calls, retries).1)
  {
    var uses := Alternating(env, retries, n, n) + Asked(Clear(env, SensedIn(env, retries, n).calls, retries).1);
    assert uses + [] == uses;
  }

  lemma OneMoreUse(b: Brakes, env: Env, s: Status)
    requires Ready(b, env, s)
    ensures s.uses + [Actuator] == Alternating(env, b.maxSensorRetries, s.senses.iterations, s.work.calls + 1)
  {
    var n, r := s.senses.iterations, b.maxSensorRetries;
    var before := Alternating(env, r, n - 1, n - 1) + Asked(Clear(env, SensedIn(env, r, n - 1).calls, r).1);
    assert before + [] == before;
  }

  lemma UnstoppedSenses(env: Env, retries: nat, v: Senses)
    requires SensesOk(env, retries, v)
    ensures SensesStopped(env, retries, v)
  {
    if v.iterations > 0 {
      assert |SensedIn(env, retries, v.iterations - 1).readings| >= |v.readings| - 1;
    }
  }

  lemma UnstoppedWork(b: Brakes, env: Env, w: Work)
    requires WorkOk(b, env, w)
    ensures WorkStopped(b, env, w)
  {
  }

  lemma LateBeforeSensing(b: Brakes, env: Env, s: Status)
    requires Turning(b, env, s) && LateAt(env, s.clockReads)
    ensures Stopped(b, env, s.(state := HaltedTimeCap, clockReads := s.clockReads + 1))
  {
    UnstoppedSenses(env, b.maxSensorRetries, s.senses);
    UnstalledDropsLast(b, Signals(s.senses.readings));
    UnstoppedWork(b, env, s.work);
    OneLookMore(env, s.clockReads);
  }

  lemma AskedOnceMore(b: Brakes, env: Env, s: Status, used: nat)
    requires Used(b, env, s) && s.senses == SensedIn(env, b.maxSensorRetries, s.senses.iterations)
    requires s.work.calls == s.senses.iterations && used == Clear(env, s.senses.calls, b.maxSensorRetries).1
    ensures s.uses + Asked(used) == Alternating(env, b.maxSensorRetries, s.senses.iterations + 1, s.work.calls)
  {
    OneMoreSensing(env, b.maxSensorRetries, s.senses.iterations);
  }

  lemma FailedSensing(env: Env, retries: nat, v: Senses, used: nat)
    requires SensesOk(env, retries, v) && Clear(env, v.calls, retries) == (SensorFailed, used)
    ensures SensesStopped(env, retries, Senses(v.iterations + 1, v.readings, v.calls + used))
  {
    NextSensing(env, retries, v);
    assert v.readings + [] == v.readings;
  }

  lemma FailureIsExplained(b: Brakes, env: Env, v: Senses, calls: nat, clock: nat)
    requires |v.readings| == v.iterations && clock == Looks(v.iterations) && Watched(env, clock) == InTime && !LateAt(env, clock)
    ensures SensesExplain(b, Senses(v.iterations + 1, v.readings, calls), clock + 1, HaltedSensorError)
    ensures Looked(env, clock + 1, HaltedSensorError)
  {
    OneLookMore(env, clock);
  }

  lemma AfterFailureIs(s: Status, used: nat)
    ensures AfterSensor(s, SensorFailed, used) ==
              Status(HaltedSensorError, Senses(s.senses.iterations + 1, s.senses.readings, s.senses.calls + used), s.work,
                     s.clockReads + 1, s.repeated, s.uses + Asked(used))
  {
  }

  lemma SensorGaveUp(b: Brakes, env: Env, s: Status, used: nat)
    requires Turning(b, env, s) && !LateAt(env, s.clockReads)
    requires Clear(env, s.senses.calls, b.maxSensorRetries) == (SensorFailed, used)
    ensures var t := AfterSensor(s, SensorFailed, used); t.state != Running && t.work == s.work && Stopped(b, env, t)
  {
    AfterFailureIs(s, used);
    FailedSensing(env, b.maxSensorRetries, s.senses, used);
    AskedOnceMore(b, env, s, used);
    UnstoppedWork(b, env, s.work);
    UnstalledDropsLast(b, Signals(s.senses.readings));
    FailureIsExplained(b, env, s.senses, s.senses.calls + used, s.clockReads);
    StopsInSensing(b, env, AfterSensor(s, SensorFailed, used));
  }

  /** A status put together so is one a run may stop with in its sensing. */
  lemma StopsInSensing(b: Brakes, env: Env, t: Status)
    requires t.state != Running && t.state != HaltedFinalizerError
    requires SensesStopped(env, b.maxSensorRetries, t.senses) && UnstalledBefore(b, Signals(t.senses.readings))
    requires WorkStopped(b, env, t.work) && Completed(t.work, t.senses.iterations - 1) && Used(b, env, t)
    requires SensesExplain(b, t.senses, t.clockReads, t.state) && t.clockReads <= Looks(t.senses.iterations)
    requires Looked(env, t.clockReads, t.state)
    ensures Stopped(b, env, t)
  {
  }

  lemma UnstalledGrows(b: Brakes, signals: seq<string>)
    requires UnstalledBefore(b, signals) && !Stalls(|signals|, LastStretch(signals), b.maxRepeatedSignal)
    ensures Unstalled(b, signals)
  {
  }

  lemma VerdictIsExplained(b: Brakes, env: Env, v: Senses, clock: nat, stretch: nat)
    requires |v.readings| == v.iterations >= 1 && stretch == LastStretch(Signals(v.readings))
    requires clock == Looks(v.iterations) - 3 && Watched(env, clock) == InTime
    ensures var stop := ReadingVerdict(b, env, v, clock, stretch);
            && Looked(env, clock + 1, stop)
            && (stop == Running ==> LastRead(v, false) && !Stalls(v.iterations, stretch, b.maxRepeatedSignal))
            && (stop != Running ==> SensesExplain(b, v, clock + 1, stop))
  {
    OneLookMore(env, clock);
  }

  /** A sensing that succeeded, about to be judged. */
  ghost predicate JustSensed(b: Brakes, env: Env, s: Status) {
    && s.state == Running && WorkOk(b, env, s.work) && Used(b, env, s)
    && SensesStopped(env, b.maxSensorRetries, s.senses) && UnstalledBefore(b, Signals(s.senses.readings))
    && |s.senses.readings| == s.senses.iterations && Completed(s.work, s.senses.iterations - 1)
    && s.repeated == LastStretch(Signals(s.senses.readings))
    && s.clockReads == Looks(s.senses.iterations) - 3 && Watched(env, s.clockReads) == InTime
  }

  lemma JudgedOn(b: Brakes, env: Env, s: Status)
    requires JustSensed(b, env, s) && Judged(b, env, s).state == Running
    ensures Ready(b, env, Judged(b, env, s))
  {
    VerdictIsExplained(b, env, s.senses, s.clockReads, s.repeated);
    UnstalledGrows(b, Signals(s.senses.readings));
  }

  lemma JudgedOut(b: Brakes, env: Env, s: Status)
    requires JustSensed(b, env, s) && Judged(b, env, s).state != Running
    ensures Stopped(b, env, Judged(b, env, s))
  {
    VerdictIsExplained(b, env, s.senses, s.clockReads, s.repeated);
    UnstoppedWork(b, env, s.work);
    StopsInSensing(b, env, Judged(b, env, s));
  }

  lemma JudgingKeeps(b: Brakes, env: Env, s: Status)
    requires JustSensed(b, env, s)
    ensures var t := Judged(b, env, s);
            && (t.state == Running ==> Ready(b, env, t))
            && (t.state != Running ==> Stopped(b, env, t))
  {
    if Judged(b, env, s).state == Running {
      JudgedOn(b, env, s);
    } else {
      JudgedOut(b, env, s);
    }
  }

  lemma SensingIs(b: Brakes, env: Env, s: Status)
    requires s.state == Running
    ensures var (sensed, used) := Clear(env, s.senses.calls, b.maxSensorRetries);
            Sensing(b, env, s) ==
              if LateAt(env, s.clockReads) then s.(state := HaltedTimeCap, clockReads := s.clockReads + 1)
              else if sensed.SensorFailed? then AfterSensor(s, sensed, used)
              else Judged(b, env, AfterSensor(s, sensed, used))
  {
  }

  lemma SensingKeeps(b: Brakes, env: Env, s: Status)
    requires Turning(b, env, s)
    ensures var t := Sensing(b, env, s);
            && t.work == s.work
            && (t.state == Running ==> Ready(b, env, t))
            && (t.state != Running ==> Stopped(b, env, t))
  {
    SensingIs(b, env, s);
    var (sensed, used) := Clear(env, s.senses.calls, b.maxSensorRetries);
    if LateAt(env, s.clockReads) {
      LateBeforeSensing(b, env, s);
    } else {
      match sensed {
        case SensorFailed => SensorGaveUp(b, env, s, used);
        case Result(sense) => ClearReadingKeeps(b, env, s, sense, used);
      }
    }
  }

  lemma ClearReadingKeeps(b: Brakes, env: Env, s: Status, sense: Sense, used: nat)
    requires Turning(b, env, s) && !LateAt(env, s.clockReads)
    requires Clear(env, s.senses.calls, b.maxSensorRetries) == (Result(sense), used)
    ensures var t := Judged(b, env, AfterSensor(s, Result(sense), used));
            && t.work == s.work
            && (t.state == Running ==> Ready(b, env, t))
            && (t.state != Running ==> Stopped(b, env, t))
  {
    var t := AfterSensor(s, Result(sense), used);
    AfterReadingIs(s, sense, used);
    ReadingIsRecorded(env, b.maxSensorRetries, s.senses, sense, used);
    ReadingKeepsUnstalled(b, s.senses.readings, sense);
    OneMoreRepeated(s.senses, sense);
    AskedOnceMore(b, env, s, used);
    OneLookMore(env, s.clockReads);
    JudgingKeeps(b, env, t);
  }

  lemma AfterReadingIs(s: Status, sense: Sense, used: nat)
    requires s.state == Running
    ensures var t := AfterSensor(s, Result(sense), used);
            && t.state == Running && t.work == s.work && t.clockReads == s.clockReads + 1 && t.uses == s.uses + Asked(used)
            && t.senses == Senses(s.senses.iterations + 1, s.senses.readings + [sense], s.senses.calls + used)
            && t.repeated == if s.senses.readings != [] && sense.signal == s.senses.readings[|s.senses.readings| - 1].signal
                             then s.repeated + 1 else 1
  {
  }

  lemma ReadingIsRecorded(env: Env, retries: nat, v: Senses, sense: Sense, used: nat)
    requires SensesOk(env, retries, v) && Clear(env, v.calls, retries) == (Result(sense), used)
    ensures SensesStopped(env, retries, Senses(v.iterations + 1, v.readings + [sense], v.calls + used))
  {
    NextSensing(env, retries, v);
  }

  lemma RecordingKeepsWork(b: Brakes, env: Env, w: Work)
    requires WorkOk(b, env, w) && |w.actions| < b.maxSteps && ActionAt(env, |w.actions|).Acts?
    ensures var a := ActionAt(env, |w.actions|);
            var x := Recorded(w, a);
            && WorkStopped(b, env, x) && WorkStopped(b, env, x.(costs := w.costs + [a.cost]))
            && Sum(w.costs + [a.cost]) == Sum(w.costs) + a.cost
            && (Affordable(b, w.costs + [a.cost]) ==> WorkOk(b, env, x.(costs := w.costs + [a.cost])))
  {
    var a := ActionAt(env, |w.actions|);
    OneMoreAction(env, w.actions, w.costs, w.resources);
    SumOneMore(w.costs, a.cost);
    assert (w.actions + [a])[..|w.actions|] == w.actions && w.actions[..|w.costs|] == w.actions;
  }

  /** Every stop in the acting half keeps what the sensing half left. */
  lemma WorkStops(b: Brakes, env: Env, s: Status, t: Status)
    requires Ready(b, env, s) && t.senses == s.senses && Used(b, env, t)
    requires s.work.calls <= t.work.calls <= s.work.calls + 1
    requires t.state != Running && WorkStopped(b, env, t.work)
    requires WorkExplains(b, env, t.work, t.senses.iterations, t.clockReads, t.state) && Looked(env, t.clockReads, t.state)
    ensures Stopped(b, env, t)
  {
    UnstoppedSenses(env, b.maxSensorRetries, s.senses);
    UnstalledDropsLast(b, Signals(s.senses.readings));
  }

  /** No actuator, no step left, or no time before the action. */
  lemma NotActing(b: Brakes, env: Env, s: Status)
    requires Ready(b, env, s)
    requires env.actuator.None? || |s.work.actions| >= b.maxSteps || LateAt(env, s.clockReads)
    ensures var t := Acting(b, env, s); t.state != Running && t.senses == s.senses && Stopped(b, env, t)
  {
    hide Acted;
    UnstoppedWork(b, env, s.work);
    NotActingIs(b, env, s);
    WorkStops(b, env, s, Acting(b, env, s));
  }

  lemma NotActingIs(b: Brakes, env: Env, s: Status)
    requires Completed(s.work, s.senses.iterations - 1) && |s.work.actions| <= b.maxSteps
    requires s.clockReads == Looks(s.senses.iterations) - 2 && Watched(env, s.clockReads) == InTime
    requires env.actuator.None? || |s.work.actions| >= b.maxSteps || LateAt(env, s.clockReads)
    ensures var t := Acting(b, env, s);
            && t == s.(state := t.state, clockReads := t.clockReads) && t.state != Running
            && WorkExplains(b, env, s.work, s.senses.iterations, t.clockReads, t.state) && Looked(env, t.clockReads, t.state)
  {
  }

  lemma ActuatorGaveUp(b: Brakes, env: Env, s: Status)
    requires Ready(b, env, s) && env.actuator.Some? && |s.work.actions| < b.maxSteps && !LateAt(env, s.clockReads)
    requires ActionAt(env, |s.work.actions|).ActuatorRaises?
    ensures var t := Acting(b, env, s); t.state != Running && t.senses == s.senses && Stopped(b, env, t)
  {
    hide Acted;
    UnstoppedWork(b, env, s.work);
    OneMoreUse(b, env, s);
    ActuatorGaveUpIs(b, env, s);
    WorkStops(b, env, s, Acting(b, env, s));
  }

  lemma ActuatorGaveUpIs(b: Brakes, env: Env, s: Status)
    requires Completed(s.work, s.senses.iterations - 1) && s.clockReads == Looks(s.senses.iterations) - 2 && Watched(env, s.clockReads) == InTime
    requires env.actuator.Some? && |s.work.actions| < b.maxSteps && !LateAt(env, s.clockReads)
    requires ActionAt(env, |s.work.actions|).ActuatorRaises?
    ensures var t := Acting(b, env, s);
            && t == s.(state := HaltedActuatorError, work := s.work.(calls := s.work.calls + 1), clockReads := s.clockReads + 1,
                       uses := s.uses + [Actuator])
            && WorkExplains(b, env, t.work, s.senses.iterations, t.clockReads, t.state) && Looked(env, t.clockReads, t.state)
  {
    OneLookMore(env, s.clockReads);
  }

  /** An action that completed too late. */
  lemma ActingLate(b: Brakes, env: Env, s: Status)
    requires env.actuator.Some? && |s.work.actions| < b.maxSteps && !LateAt(env, s.clockReads)
    requires ActionAt(env, |s.work.actions|).Acts? && LateAt(env, s.clockReads + 1)
    ensures Acting(b, env, s) ==
              s.(work := Recorded(s.work, ActionAt(env, |s.work.actions|)), clockReads := s.clockReads + 2,
                 uses := s.uses + [Actuator], state := HaltedTimeCap)
  {
  }

  /** An action that completed in time. */
  lemma ActingCharges(b: Brakes, env: Env, s: Status)
    requires env.actuator.Some? && |s.work.actions| < b.maxSteps && !LateAt(env, s.clockReads)
    requires ActionAt(env, |s.work.actions|).Acts? && !LateAt(env, s.clockReads + 1)
    ensures var action := ActionAt(env, |s.work.actions|);
            var costs := s.work.costs + [action.cost];
            Acting(b, env, s) ==
              s.(work := Recorded(s.work, action).(costs := costs), clockReads := s.clockReads + 2,
                 uses := s.uses + [Actuator], state := Verdict(b, costs, action))
  {
  }

  lemma VerdictOfAction(b: Brakes, env: Env, w: Work, n: nat, action: Action)
    requires Completed(w, n) && action.Acts?
    ensures var costs := w.costs + [action.cost];
            var x, stop := Recorded(w, action).(costs := costs), Verdict(b, costs, action);
            && stop != HaltedTimeCap
            && (stop == Running ==> Affordable(b, costs))
            && (stop != Running ==> WorkExplains(b, env, x, n + 1, Looks(n + 1), stop))
  {
  }

  lemma ChargedActionKeeps(b: Brakes, env: Env, w: Work, n: nat)
    requires WorkOk(b, env, w) && Completed(w, n) && n < b.maxSteps && ActionAt(env, n).Acts?
    ensures var action := ActionAt(env, n);
            var costs := w.costs + [action.cost];
            var x, stop := Recorded(w, action).(costs := costs), Verdict(b, costs, action);
            && Completed(x, n + 1) && stop != HaltedTimeCap
            && (stop == Running ==> WorkOk(b, env, x))
            && (stop != Running ==> WorkStopped(b, env, x) && WorkExplains(b, env, x, n + 1, Looks(n + 1), stop))
  {
    RecordingKeepsWork(b, env, w);
    VerdictOfAction(b, env, w, n, ActionAt(env, n));
  }

  lemma LateWork(b: Brakes, env: Env, w: Work, n: nat)
    requires WorkOk(b, env, w) && Completed(w, n) && n < b.maxSteps && ActionAt(env, n).Acts?
    ensures var x := Recorded(w, ActionAt(env, n));
            x.calls == n + 1 && WorkStopped(b, env, x) && WorkExplains(b, env, x, n + 1, Looks(n + 1), HaltedTimeCap)
  {
    RecordingKeepsWork(b, env, w);
  }

  lemma LateActionKeeps(b: Brakes, env: Env, s: Status)
    requires Ready(b, env, s) && env.actuator.Some? && |s.work.actions| < b.maxSteps && !LateAt(env, s.clockReads)
    requires ActionAt(env, |s.work.actions|).Acts? && LateAt(env, s.clockReads + 1)
    ensures var t := Acting(b, env, s); t.state != Running && t.senses == s.senses && Stopped(b, env, t)
  {
    hide Acted;
    var t := s.(work := Recorded(s.work, ActionAt(env, |s.work.actions|)), clockReads := s.clockReads + 2,
                uses := s.uses + [Actuator], state := HaltedTimeCap);
    ActingLate(b, env, s);
    LateWork(b, env, s.work, |s.work.actions|);
    OneMoreUse(b, env, s);
    TwoLooksMore(env, s.clockReads);
    WorkStops(b, env, s, t);
  }

  /** The actuator's part is done, and the next turn may begin. */
  lemma TurnsAgain(b: Brakes, env: Env, s: Status, t: Status)
    requires Ready(b, env, s) && t == s.(work := t.work, uses := t.uses, clockReads := s.clockReads + 2)
    requires Used(b, env, t) && WorkOk(b, env, t.work) && Completed(t.work, s.senses.iterations) && Watched(env, t.clockReads) == InTime
    ensures Turning(b, env, t)
  {
  }

  lemma TimelyActionStops(b: Brakes, env: Env, s: Status)
    requires Ready(b, env, s) && env.actuator.Some? && |s.work.actions| < b.maxSteps && !LateAt(env, s.clockReads)
    requires ActionAt(env, |s.work.actions|).Acts? && !LateAt(env, s.clockReads + 1)
    ensures var t := Acting(b, env, s); t.senses == s.senses && (t.state != Running ==> Stopped(b, env, t))
  {
    hide Acted;
    var t := Acting(b, env, s);
    ActingCharges(b, env, s);
    if t.state != Running {
      ChargedActionKeeps(b, env, s.work, |s.work.actions|);
      OneMoreUse(b, env, s);
      TwoLooksMore(env, s.clockReads);
      WorkStops(b, env, s, t);
    }
  }

  lemma TimelyActionTurns(b: Brakes, env: Env, s: Status)
    requires Ready(b, env, s) && env.actuator.Some? && |s.work.actions| < b.maxSteps && !LateAt(env, s.clockReads)
    requires ActionAt(env, |s.work.actions|).Acts? && !LateAt(env, s.clockReads + 1)
    ensures var t := Acting(b, env, s);
            t.state == Running ==> Turning(b, env, t) && |t.work.actions| == |s.work.actions| + 1
  {
    hide Acted;
    var t := Acting(b, env, s);
    ActingCharges(b, env, s);
    if t.state == Running {
      ChargedActionKeeps(b, env, s.work, |s.work.actions|);
      OneMoreUse(b, env, s);
      TwoLooksMore(env, s.clockReads);
      TurnsAgain(b, env, s, t);
    }
  }

  lemma ActingKeeps(b: Brakes, env: Env, s: Status)
    requires Ready(b, env, s)
    ensures var t := Acting(b, env, s);
            && t.senses == s.senses
            && (t.state == Running ==> Turning(b, env, t) && |t.work.actions| == |s.work.actions| + 1)
            && (t.state != Running ==> Stopped(b, env, t))
  {
    if env.actuator.None? || |s.work.actions| >= b.maxSteps || LateAt(env, s.clockReads) {
      NotActing(b, env, s);
    } else if ActionAt(env, |s.work.actions|).ActuatorRaises? {
      ActuatorGaveUp(b, env, s);
    } else if LateAt(env, s.clockReads + 1) {
      LateActionKeeps(b, env, s);
    } else {
      TimelyActionStops(b, env, s);
      TimelyActionTurns(b, env, s);
    }
  }

  /** A turn stops for a reason, or takes exactly one action more. */
  lemma TurnKeeps(b: Brakes, env: Env, s: Status)
    requires Turning(b, env, s)
    ensures var t := Turn(b, env, s);
            && (t.state == Running ==> Turning(b, env, t) && |t.work.actions| == |s.work.actions| + 1)
            && (t.state != Running ==> Stopped(b, env, t))
  {
    SensingKeeps(b, env, s);
    if Sensing(b, env, s).state == Running {
      ActingKeeps(b, env, Sensing(b, env, s));
    }
  }

  lemma PlannedIsSteady(b: Brakes, env: Env)
    requires BrakesOk(b)
    ensures Turning(b, env, PLANNED)
  {
    assert PLANNED.work.actions[..0] == [];
  }

  // ------------------------------------------------------------------------
  // The loop.
  // ------------------------------------------------------------------------

  /** The first part of a turn, as it is run. */
  method RunSensing(b: Brakes, env: Env, s: Status) returns (t: Status)
    requires s.state == Running
    ensures t == Sensing(b, env, s)
  {
    t := s.(clockReads := s.clockReads + 1);
    if LateAt(env, s.clockReads) {
      t := t.(state := HaltedTimeCap);
      return;
    }
    var sensed, used := ReadSensor(env, s.senses.calls, b.maxSensorRetries);
    t := t.(senses := t.senses.(iterations := t.senses.iterations + 1, calls := t.senses.calls + used), uses := t.uses + Asked(used));
    if sensed.SensorFailed? {
      t := t.(state := HaltedSensorError);
      return;
    }
    var last := if t.senses.readings == [] then None else Some(t.senses.readings[|t.senses.readings| - 1].signal);
    t := t.(senses := t.senses.(readings := t.senses.readings + [sensed.sense]),
            repeated := if last == Some(sensed.sense.signal) then t.repeated + 1 else 1);
    if LateAt(env, t.clockReads) {
      t := t.(state := HaltedTimeCap, clockReads := t.clockReads + 1);
      return;
    }
    t := t.(clockReads := t.clockReads + 1);
    if sensed.sense.converged {
      t := t.(state := Converged);
    } else if Stalls(t.senses.iterations, t.repeated, b.maxRepeatedSignal) {
      t := t.(state := HaltedStalled);
    }
  }

  /** The second part, as it is run. */
  method RunActing(b: Brakes, env: Env, s: Status) returns (t: Status)
    ensures t == Acting(b, env, s)
  {
    if env.actuator.None? {
      return s.(state := HaltedActuatorError);
    }
    if |s.work.actions| >= b.maxSteps {
      return s.(state := HaltedStepCap);
    }
    t := s.(clockReads := s.clockReads + 1);
    if LateAt(env, s.clockReads) {
      t := t.(state := HaltedTimeCap);
      return;
    }
    var action := ActionAt(env, |s.work.actions|);
    if action.ActuatorRaises? {
      t := t.(state := HaltedActuatorError, work := t.work.(calls := t.work.calls + 1), uses := t.uses + [Actuator]);
      return;
    }
    var incoming := Resources.NormalizeEnvelopes(action.resources);
    var resources := Resources.RegisterResources(s.work.resources, incoming);
    t := t.(work := Work(s.work.actions + [action], s.work.costs, resources, s.work.calls + 1), uses := t.uses + [Actuator]);
    if LateAt(env, t.clockReads) {
      t := t.(state := HaltedTimeCap, clockReads := t.clockReads + 1);
      return;
    }
    var costs := s.work.costs + [action.cost];
    t := t.(work := t.work.(costs := costs), clockReads := t.clockReads + 1, state := Verdict(b, costs, action));
  }

  ghost function Next(b: Brakes, env: Env, s: Status): Status {
    if s.state == Running then Turn(b, env, s) else s
  }

  /** The run after at most `n` turns. */
  ghost function After(b: Brakes, env: Env, n: nat): Status {
    if n == 0 then PLANNED else Next(b, env, After(b, env, n - 1))
  }

  /** The status a run stops with. */
  ghost predicate EndsIn(b: Brakes, env: Env, s: Status) {
    s.state != Running && exists n: nat :: After(b, env, n) == s
  }

  lemma {:induction false} StoppedStays(b: Brakes, env: Env, n: nat, m: nat)
    requires n <= m && After(b, env, n).state != Running
    ensures After(b, env, m) == After(b, env, n)
  {
    if n < m {
      StoppedStays(b, env, n, m - 1);
    }
  }

  /** Whatever a run stops with is explained. */
  lemma RunsStop(b: Brakes, env: Env, s: Status)
    requires BrakesOk(b) && EndsIn(b, env, s)
    ensures Stopped(b, env, s)
  {
    var n: nat :| After(b, env, n) == s;
    EveryTurnKeeps(b, env, n);
  }

  lemma {:induction false} EveryTurnKeeps(b: Brakes, env: Env, n: nat)
    requires BrakesOk(b)
    ensures OnItsWay(b, env, After(b, env, n))
  {
    hide Acted;
    if n == 0 {
      PlannedIsOnItsWay(b, env);
    } else {
      EveryTurnKeeps(b, env, n - 1);
      NextKeeps(b, env, After(b, env, n - 1));
    }
  }

  lemma PlannedIsOnItsWay(b: Brakes, env: Env)
    requires BrakesOk(b)
    ensures OnItsWay(b, env, PLANNED)
  {
    PlannedIsSteady(b, env);
  }

  ghost predicate OnItsWay(b: Brakes, env: Env, s: Status) {
    if s.state == Running then Turning(b, env, s) else Stopped(b, env, s)
  }

  lemma NextKeeps(b: Brakes, env: Env, s: Status)
    requires OnItsWay(b, env, s)
    ensures OnItsWay(b, env, Next(b, env, s))
  {
    if s.state == Running {
      TurnKeeps(b, env, s);
    }
  }

  /** A run stops in one way only. */
  lemma RunsAreDetermined(b: Brakes, env: Env, s: Status, t: Status)
    requires EndsIn(b, env, s) && EndsIn(b, env, t)
    ensures s == t
  {
    var n: nat :| After(b, env, n) == s;
    var m: nat :| After(b, env, m) == t;
    StoppedStays(b, env, n, if n <= m then m else n);
    StoppedStays(b, env, m, if n <= m then m else n);
  }

  /** The `while True` of `loop_run`. */
  method RunToStop(b: Brakes, env: Env) returns (s: Status)
    requires BrakesOk(b)
    ensures EndsIn(b, env, s) && Stopped(b, env, s)
  {
    s := PLANNED;
    PlannedIsSteady(b, env);
    ghost var n: nat := 0;
    while s.state == Running
      invariant s == After(b, env, n)
      invariant s.state == Running ==> Turning(b, env, s)
      invariant s.state != Running ==> Stopped(b, env, s)
      decreases s.state == Running, b.maxSteps - |s.work.actions|
    {
      TurnKeeps(b, env, s);
      var t := RunSensing(b, env, s);
      if t.state == Running {
        t := RunActing(b, env, t);
      }
      s, n := t, n + 1;
    }
  }

  /** `_closeout_resources`: the finalizer results, and the state they leave. */
  method Closeout(env: Env, s: Status) returns (results: seq<Resources.FinalizerResult>, state: LoopState)
    requires s.state != HaltedFinalizerError
    ensures results == CloseoutResults(env, s)
    ensures state == if Resources.RequiredFailure(results) then HaltedFinalizerError else s.state
  {
    results, state := [], s.state;
    var trigger := TriggerOf(s.state);
    if trigger.None? || s.work.resources == [] {
      return;
    }
    assert Resources.Keys([]) == {};
    results := Resources.RunFinalizers(s.work.resources, trigger.value, env.finalizer, []);
    if Resources.RequiredFailure(results) {
      state := HaltedFinalizerError;
    }
  }

  /** Every finalizer declared for the trigger is run, none while waiting. */
  ghost function CloseoutResults(env: Env, s: Status): seq<Resources.FinalizerResult> {
    if TriggerOf(s.state).Some? then Resources.Results(s.work.resources, TriggerOf(s.state).value, env.finalizer, {}) else []
  }

  /** `loop_run`, which always terminates. */
  method LoopRun(b: Brakes, env: Env) returns (s: Status, results: seq<Resources.FinalizerResult>, state: LoopState)
    requires BrakesOk(b)
    ensures EndsIn(b, env, s) && Stopped(b, env, s)
    ensures results == CloseoutResults(env, s)
    ensures state == if Resources.RequiredFailure(results) then HaltedFinalizerError else s.state
  {
    s := RunToStop(b, env);
    results, state := Closeout(env, s);
  }

  // ------------------------------------------------------------------------
  // What a run means, in terms of the caller's sensor and actuator.
  // ------------------------------------------------------------------------

  lemma {:induction false} SensingsAskBoundedly(env: Env, retries: nat, n: nat)
    ensures SensedIn(env, retries, n).calls <= n * (retries + 1)
  {
    if n > 0 {
      SensingsAskBoundedly(env, retries, n - 1);
      assert n * (retries + 1) == (n - 1) * (retries + 1) + (retries + 1);
    }
  }

  lemma NoMoreThan(n: nat, bound: nat, each: nat)
    requires n <= bound
    ensures n * each <= bound * each
  {
    assert bound * each == n * each + (bound - n) * each;
  }

  lemma CallsWithin(env: Env, retries: nat, n: nat, bound: nat)
    requires n <= bound
    ensures SensedIn(env, retries, n).calls <= bound * (retries + 1)
  {
    SensingsAskBoundedly(env, retries, n);
    NoMoreThan(n, bound, retries + 1);
  }

  /** However the loop stops, it stayed within its brakes. */
  lemma StoppedRunsAreBounded(b: Brakes, env: Env, s: Status)
    requires Stopped(b, env, s)
    ensures |s.work.actions| <= s.work.calls <= b.maxSteps && s.senses.iterations <= b.maxSteps + 1
  {
  }

  lemma SensorCallsAreBounded(b: Brakes, env: Env, s: Status)
    requires Stopped(b, env, s)
    ensures s.senses.calls <= (b.maxSteps + 1) * (b.maxSensorRetries + 1)
  {
    CallsWithin(env, b.maxSensorRetries, s.senses.iterations, b.maxSteps + 1);
  }

  /** Without its last action it cost no more than allowed, whatever stopped it,
      and what its actions declared is registered. */
  lemma StoppedRunsAreAffordable(b: Brakes, env: Env, s: Status)
    requires Stopped(b, env, s)
    ensures s.work.actions == Taken(env, |s.work.actions|)
    ensures b.maxCost.Some? && s.work.actions != [] ==>
              Sum(CostsOf(s.work.actions[..|s.work.actions| - 1])) <= b.maxCost.value
    ensures s.work.resources == Resources.RegisterAll([], Declarations(s.work.actions))
  {
  }

  function Count(uses: seq<Use>, use: Use): nat {
    if uses == [] then 0 else Count(uses[..|uses| - 1], use) + if uses[|uses| - 1] == use then 1 else 0
  }

  lemma {:induction false} CountAppend(a: seq<Use>, c: seq<Use>, use: Use)
    ensures Count(a + c, use) == Count(a, use) + Count(c, use)
  {
    if c == [] {
      assert a + c == a;
    } else {
      CountAppend(a, c[..|c| - 1], use);
      assert (a + c)[..|a + c| - 1] == a + c[..|c| - 1];
    }
  }

  lemma {:induction false} CountAsked(n: nat)
    ensures Count(Asked(n), Sensor) == n && Count(Asked(n), Actuator) == 0
  {
    if n > 0 {
      CountAsked(n - 1);
      assert Asked(n)[..n - 1] == Asked(n - 1);
    }
  }

  /** Every action comes directly after a sensing. */
  ghost predicate TakeTurns(uses: seq<Use>) {
    forall i | 0 <= i < |uses| && uses[i] == Actuator :: i > 0 && uses[i - 1] == Sensor
  }

  lemma CountsOneTurnMore(before: seq<Use>, used: nat, acted: bool)
    ensures var uses := before + Asked(used) + if acted then [Actuator] else [];
            && Count(uses, Sensor) == Count(before, Sensor) + used
            && Count(uses, Actuator) == Count(before, Actuator) + if acted then 1 else 0
  {
    var last := if acted then [Actuator] else [];
    CountAsked(used);
    CountLast(acted);
    CountAppend(before, Asked(used), Sensor);
    CountAppend(before, Asked(used), Actuator);
    CountAppend(before + Asked(used), last, Sensor);
    CountAppend(before + Asked(used), last, Actuator);
  }

  lemma TakesOneTurnMore(before: seq<Use>, asked: seq<Use>, last: seq<Use>)
    requires TakeTurns(before) && asked != [] && last <= [Actuator]
    requires forall i | 0 <= i < |asked| :: asked[i] == Sensor
    ensures var uses := before + asked + last;
            TakeTurns(uses) && (last == [] ==> uses[|uses| - 1] == Sensor)
  {
    var uses := before + asked + last;
    forall i | 0 <= i < |uses| && uses[i] == Actuator ensures i > 0 && uses[i - 1] == Sensor {
      if i < |before| {
        assert before[i] == Actuator && before[i - 1] == Sensor;
      } else {
        assert i == |before| + |asked| && uses[i - 1] == asked[|asked| - 1];
      }
    }
  }

  lemma AlternatingIs(env: Env, retries: nat, n: nat, acts: nat)
    requires n > 0
    ensures var (sensed, used) := Clear(env, SensedIn(env, retries, n - 1).calls, retries);
            && Alternating(env, retries, n, acts) ==
               Alternating(env, retries, n - 1, n - 1) + Asked(used) + (if acts >= n then [Actuator] else [])
            && SensedIn(env, retries, n).calls == SensedIn(env, retries, n - 1).calls + used
  {
  }

  ghost predicate Tells(uses: seq<Use>, calls: nat, acts: nat) {
    TakeTurns(uses) && Count(uses, Sensor) == calls && Count(uses, Actuator) == acts
  }

  lemma {:induction false} AlternatingTakesTurns(env: Env, retries: nat, n: nat, acts: nat)
    requires n - 1 <= acts <= n
    ensures var uses := Alternating(env, retries, n, acts);
            && Tells(uses, SensedIn(env, retries, n).calls, acts)
            && (acts < n ==> uses != [] && uses[|uses| - 1] == Sensor)
  {
    if n > 0 {
      AlternatingTakesTurns(env, retries, n - 1, n - 1);
      AlternatingIs(env, retries, n, acts);
      var used := Clear(env, SensedIn(env, retries, n - 1).calls, retries).1;
      var before, last := Alternating(env, retries, n - 1, n - 1), if acts >= n then [Actuator] else [];
      CountsOneTurnMore(before, used, acts >= n);
      TakesOneTurnMore(before, Asked(used), last);
    }
  }

  lemma CountLast(acted: bool)
    ensures var last := if acted then [Actuator] else [];
            Count(last, Sensor) == 0 && Count(last, Actuator) == if acted then 1 else 0
  {
    assert [Actuator][..0] == [];
  }

  /** The calls a run makes: as many of each as its status says, sensings and
      actions in turn. */
  lemma SensingsAndActionsAlternate(b: Brakes, env: Env, s: Status)
    requires Stopped(b, env, s)
    ensures Tells(s.uses, s.senses.calls, s.work.calls)
    ensures s.senses.iterations == s.work.calls + 1 ==> s.uses != [] && s.uses[|s.uses| - 1] == Sensor
  {
    AlternatingTakesTurns(env, b.maxSensorRetries, s.senses.iterations, s.work.calls);
  }

  lemma {:induction false} AllClearBefore(env: Env, retries: nat, n: nat, i: nat)
    requires i <= n && AllClear(env, retries, n)
    ensures AllClear(env, retries, i) && SensedIn(env, retries, i).readings == SensedIn(env, retries, n).readings[..i]
    decreases n
  {
    if i < n {
      AllClearBefore(env, retries, n - 1, i);
    }
  }

  lemma ClearSensingReads(env: Env, retries: nat, i: nat)
    requires AllClear(env, retries, i) && AllClear(env, retries, i + 1)
    ensures var v := SensedIn(env, retries, i + 1);
            SensorAt(env, v.calls - 1) == Reads(v.readings[i].converged, v.readings[i].signal, false)
  {
    ClearIsTheFirstClearReading(env, SensedIn(env, retries, i).calls, retries);
  }

  /** Each reading is the answer that ended its sensing, and not noise. */
  lemma ReadingsAreTheSensors(env: Env, retries: nat, v: Senses, i: nat)
    requires SensesStopped(env, retries, v) && i < |v.readings|
    ensures var at := SensedIn(env, retries, i + 1).calls - 1;
            at < v.calls && SensorAt(env, at) == Reads(v.readings[i].converged, v.readings[i].signal, false)
  {
    ReadingsAreClear(env, retries, v);
    ClearReadingsAre(env, retries, |v.readings|, i);
    CallsGrow(env, retries, i + 1, v.iterations);
  }

  lemma ClearReadingsAre(env: Env, retries: nat, n: nat, i: nat)
    requires AllClear(env, retries, n) && i < n
    ensures var reading := SensedIn(env, retries, n).readings[i];
            SensorAt(env, SensedIn(env, retries, i + 1).calls - 1) == Reads(reading.converged, reading.signal, false)
  {
    AllClearBefore(env, retries, n, i);
    AllClearBefore(env, retries, n, i + 1);
    ClearSensingReads(env, retries, i);
  }

  lemma ReadingsAreClear(env: Env, retries: nat, v: Senses)
    requires SensesStopped(env, retries, v)
    ensures v.iterations - 1 <= |v.readings| <= v.iterations
    ensures AllClear(env, retries, |v.readings|)
    ensures SensedIn(env, retries, |v.readings|).readings == v.readings
  {
  }

  lemma {:induction false} CallsGrow(env: Env, retries: nat, i: nat, n: nat)
    requires i <= n
    ensures SensedIn(env, retries, i).calls <= SensedIn(env, retries, n).calls
    decreases n
  {
    if i < n {
      CallsGrow(env, retries, i, n - 1);
    }
  }

  lemma LastReadingIsTheSensors(env: Env, retries: nat, v: Senses, converged: bool)
    requires SensesStopped(env, retries, v) && LastRead(v, converged)
    ensures v.calls > 0
    ensures var last := SensorAt(env, v.calls - 1); last.Reads? && last.converged == converged && !last.noise
  {
    ReadingsAreTheSensors(env, retries, v, v.iterations - 1);
  }

  /** A run that ends converged ends on a sensor that said so, called after every
      action, and no required finalizer has failed. */
  lemma ConvergedMeansSensedConvergence(b: Brakes, env: Env, s: Status, results: seq<Resources.FinalizerResult>, state: LoopState)
    requires Stopped(b, env, s)
    requires state == if Resources.RequiredFailure(results) then HaltedFinalizerError else s.state
    requires state == Converged
    ensures s.senses.calls > 0
    ensures var last := SensorAt(env, s.senses.calls - 1); last.Reads? && last.converged && !last.noise
    ensures Count(s.uses, Sensor) == s.senses.calls && s.uses != [] && s.uses[|s.uses| - 1] == Sensor
    ensures !Resources.RequiredFailure(results)
  {
    SensingsAndActionsAlternate(b, env, s);
    LastReadingIsTheSensors(env, b.maxSensorRetries, s.senses, true);
  }

  /** The last answer raised, or all answers one sensing may ask for were noise. */
  ghost predicate GaveUp(env: Env, calls: nat, each: nat) {
    && calls > 0
    && (SensorAt(env, calls - 1).SensorRaises?
        || (each <= calls && forall i: nat | calls - each <= i < calls :: SensorAt(env, i).Reads? && SensorAt(env, i).noise))
  }

  lemma FailedSensingGaveUp(env: Env, retries: nat, n: nat)
    requires n > 0 && AllClear(env, retries, n - 1) && !AllClear(env, retries, n)
    ensures GaveUp(env, SensedIn(env, retries, n).calls, retries + 1)
  {
    var from := SensedIn(env, retries, n - 1).calls;
    ClearIsTheFirstClearReading(env, from, retries);
  }

  /** A sensor error is the sensor's. */
  lemma SensorErrorsAreTheSensors(b: Brakes, env: Env, s: Status)
    requires Stopped(b, env, s) && s.state == HaltedSensorError
    ensures GaveUp(env, s.senses.calls, b.maxSensorRetries + 1)
  {
    FailedSensingGaveUp(env, b.maxSensorRetries, s.senses.iterations);
  }

  /** A run is out of time exactly when the clock was late at one of its looks,
      which was then its last; it looks four times a turn. */
  lemma TimeCapExactlyWhen(b: Brakes, env: Env, s: Status)
    requires Stopped(b, env, s)
    ensures s.state == HaltedTimeCap <==> exists n: nat :: n < s.clockReads && LateAt(env, n)
    ensures forall n: nat | n < s.clockReads - 1 :: !LateAt(env, n)
    ensures Looks(s.senses.iterations) - 3 <= s.clockReads <= Looks(s.senses.iterations) + 1
  {
  }

  /** `k` equal signals at the end, of at least two. */
  ghost predicate EndsStalled(signals: seq<string>, k: nat) {
    |signals| >= 2 && k <= |signals| && AllEqual(signals[|signals| - k..])
  }

  lemma StallsOnEqualSignals(signals: seq<string>, k: nat)
    requires k >= 1
    ensures Stalls(|signals|, LastStretch(signals), k) <==> EndsStalled(signals, k)
  {
    if EndsStalled(signals, k) {
      EqualSuffixStretches(signals, k);
    }
    if Stalls(|signals|, LastStretch(signals), k) {
      StretchIsEqualSuffix(signals, k);
    }
  }

  lemma NeverStalledBefore(b: Brakes, signals: seq<string>, n: nat)
    requires BrakesOk(b) && UnstalledBefore(b, signals) && n < |signals|
    ensures !EndsStalled(signals[..n], b.maxRepeatedSignal)
  {
    if n > 0 {
      var front := signals[..|signals| - 1];
      UnstalledPrefix(b, front, n);
      assert front[..n] == signals[..n];
      StallsOnEqualSignals(signals[..n], b.maxRepeatedSignal);
    }
  }

  lemma StalledOnItsCount(b: Brakes, env: Env, s: Status)
    requires Stopped(b, env, s)
    ensures var signals := Signals(s.senses.readings);
            s.state == HaltedStalled <==>
              Stalls(|signals|, LastStretch(signals), b.maxRepeatedSignal) && LastRead(s.senses, false) && !LateAfter(env, s.senses.iterations)
  {
    if SensesExplain(b, s.senses, s.clockReads, s.state) {
      StoppedInSensing(b, env, s.senses, s.clockReads, s.state);
    }
  }

  lemma StoppedInSensing(b: Brakes, env: Env, v: Senses, clock: nat, stop: LoopState)
    requires SensesExplain(b, v, clock, stop) && Looked(env, clock, stop)
    ensures var signals := Signals(v.readings);
            stop == HaltedStalled <==>
              Stalls(|signals|, LastStretch(signals), b.maxRepeatedSignal) && LastRead(v, false) && !LateAfter(env, v.iterations)
  {
  }

  /** The look at the clock that follows the `n`-th sensing finds it late. */
  predicate LateAfter(env: Env, n: nat) {
    n > 0 && LateAt(env, Looks(n) - 3)
  }

  /** A run stalls exactly when its readings end on `k` equal signals, at least
      two, and the last of them did not converge and was taken in time. */
  lemma StalledExactlyWhen(b: Brakes, env: Env, s: Status)
    requires BrakesOk(b) && Stopped(b, env, s)
    ensures s.state == HaltedStalled <==>
              && EndsStalled(Signals(s.senses.readings), b.maxRepeatedSignal)
              && LastRead(s.senses, false) && !LateAfter(env, s.senses.iterations)
  {
    StalledOnItsCount(b, env, s);
    StallsOnEqualSignals(Signals(s.senses.readings), b.maxRepeatedSignal);
  }

  /** And before its last reading it never ended so. */
  lemma NotStalledBefore(b: Brakes, env: Env, s: Status, n: nat)
    requires BrakesOk(b) && Stopped(b, env, s) && n < |s.senses.readings|
    ensures !EndsStalled(Signals(s.senses.readings)[..n], b.maxRepeatedSignal)
  {
    NeverStalledBefore(b, Signals(s.senses.readings), n);
  }

  lemma TwoStallABrakeOfOne(signals: seq<string>)
    requires |signals| >= 2
    ensures EndsStalled(signals[..2], 1)
    ensures |signals| == 2 ==> EndsStalled(signals, 1)
  {
  }

  /** With a brake of 1 the second reading stalls the run, whatever it reads. */
  lemma BrakeOfOneStallsOnTheSecondReading(b: Brakes, env: Env, s: Status)
    requires b.maxRepeatedSignal == 1 && BrakesOk(b) && Stopped(b, env, s)
    ensures |s.senses.readings| <= 2
    ensures s.state == HaltedStalled <==> |s.senses.readings| == 2 && LastRead(s.senses, false) && !LateAfter(env, 2)
  {
    StalledExactlyWhen(b, env, s);
    if |s.senses.readings| >= 2 {
      TwoStallABrakeOfOne(Signals(s.senses.readings));
    }
    OneIsEnough(b, Signals(s.senses.readings));
  }

  lemma OneIsEnough(b: Brakes, signals: seq<string>)
    requires b.maxRepeatedSignal == 1 && BrakesOk(b) && UnstalledBefore(b, signals)
    ensures |signals| <= 2
  {
    if |signals| > 2 {
      TwoStallABrakeOfOne(signals);
      NeverStalledBefore(b, signals, 2);
    }
  }

  lemma WindowEndsStalled(signals: seq<string>, from: nat, k: nat)
    requires k >= 2 && from + k < |signals| && AllEqual(signals[from..from + k + 1])
    ensures EndsStalled(signals[..from + k], k)
  {
    var window, tail := signals[from..from + k + 1], signals[..from + k][from..];
    assert forall i | 0 <= i < k :: tail[i] == window[i];
  }

  lemma NoWindowWithoutStall(b: Brakes, signals: seq<string>, from: nat)
    requires BrakesOk(b) && b.maxRepeatedSignal >= 2 && UnstalledBefore(b, signals) && from + b.maxRepeatedSignal < |signals|
    ensures !AllEqual(signals[from..from + b.maxRepeatedSignal + 1])
  {
    var k := b.maxRepeatedSignal;
    NeverStalledBefore(b, signals, from + k);
    if AllEqual(signals[from..from + k + 1]) {
      WindowEndsStalled(signals, from, k);
    }
  }

  /** For a brake `k` of at least 2, no `k` + 1 signals in a row are equal. */
  lemma NoLongerStretch(b: Brakes, env: Env, s: Status, from: nat)
    requires BrakesOk(b) && Stopped(b, env, s) && b.maxRepeatedSignal >= 2
    requires from + b.maxRepeatedSignal < |s.senses.readings|
    ensures !AllEqual(Signals(s.senses.readings)[from..from + b.maxRepeatedSignal + 1])
  {
    NoWindowWithoutStall(b, Signals(s.senses.readings), from);
  }

  lemma {:induction false} RegisterAllAppend(start: seq<Resources.Resource>, a: seq<Resources.Resource>, b: seq<Resources.Resource>)
    ensures Resources.RegisterAll(start, a + b) == Resources.RegisterAll(Resources.RegisterAll(start, a), b)
  {
    if b == [] {
      assert a + b == a;
    } else {
      RegisterAllAppend(start, a, b[..|b| - 1]);
      assert (a + b)[..|a + b| - 1] == a + b[..|b| - 1];
    }
  }
}
