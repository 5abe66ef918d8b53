/** Operator controls (controls.py): an append-only log per run, the fold that
    projects it, the decisions adapters consult, and idempotent retries.

    A derived control id is `sha256(run, target, attempt)`; it is kept symbolic,
    which makes it injective. Actors, timestamps and metadata are left out. */
module Controls {
  import opened Json

  datatype Action = Pause | Resume | Stop | TaskStop | Retry | DecideCall

  datatype CallVerdict = Approve | Edit | Reject | Respond

  datatype ControlId = Minted(n: nat) | RetryOf(target: string, attempt: int)

  datatype Control = Control(
    id: ControlId,
    action: Action,
    reason: Option<string>,
    target: Option<string>,
    replacement: Option<string>,
    attempt: Option<int>,
    verdict: Option<CallVerdict>)

  /** One projected `task_stop`, `retry` or `decide_call` row. */
  datatype Row = Row(
    target: Option<string>,
    id: ControlId,
    reason: Option<string>,
    replacement: Option<string>,
    attempt: Option<int>,
    verdict: Option<CallVerdict>)

  datatype RunControlState = RunControlState(
    paused: bool,
    stopped: bool,
    stopReason: Option<string>,
    stoppedId: Option<ControlId>,
    stoppedTasks: seq<Row>,
    retries: seq<Row>,
    callDecisions: seq<Row>,
    lastId: Option<ControlId>,
    total: nat)

  const INITIAL: RunControlState :=
    RunControlState(false, false, None, None, [], [], [], None, 0)

  function RowOf(c: Control): Row {
    Row(c.target, c.id, c.reason, c.replacement, c.attempt, c.verdict)
  }

  // ------------------------------------------------------------------------
  // Projection.
  // ------------------------------------------------------------------------

  /** One turn of the projection loop. */
  function Apply(s: RunControlState, c: Control): RunControlState {
    var t := s.(lastId := Some(c.id), total := s.total + 1);
    match c.action
    case Stop =>
      var u := if t.stopped then t else t.(stopped := true, stopReason := c.reason, stoppedId := Some(c.id));
      u.(paused := false)
    case Pause => if t.stopped then t else t.(paused := true)
    case Resume => if t.stopped then t else t.(paused := false)
    case TaskStop => t.(stoppedTasks := t.stoppedTasks + [RowOf(c)])
    case Retry => t.(retries := t.retries + [RowOf(c)])
    case DecideCall => t.(callDecisions := t.callDecisions + [RowOf(c)])
  }

  function Project(log: seq<Control>): RunControlState {
    if log == [] then INITIAL else Apply(Project(log[..|log| - 1]), log[|log| - 1])
  }

  /** `project_control_state`, which updates one local per field. */
  method ProjectControlState(log: seq<Control>) returns (s: RunControlState)
    ensures s == Project(log)
  {
    var paused, stopped := false, false;
    var stopReason, stoppedId, lastId := None, None, None;
    var stoppedTasks, retries, callDecisions := [], [], [];
    var i := 0;
    while i < |log|
      invariant 0 <= i <= |log|
      invariant Project(log[..i]) ==
                RunControlState(paused, stopped, stopReason, stoppedId, stoppedTasks, retries, callDecisions, lastId, i)
    {
      var c := log[i];
      assert log[..i + 1][..i] == log[..i];
      lastId := Some(c.id);
      match c.action {
        case Stop =>
          if !stopped {
            stopped, stopReason, stoppedId := true, c.reason, Some(c.id);
          }
          paused := false;
        case Pause =>
          if !stopped {
            paused := true;
          }
        case Resume =>
          if !stopped {
            paused := false;
          }
        case TaskStop => stoppedTasks := stoppedTasks + [RowOf(c)];
        case Retry => retries := retries + [RowOf(c)];
        case DecideCall => callDecisions := callDecisions + [RowOf(c)];
      }
      i := i + 1;
    }
    assert log[..|log|] == log;
    s := RunControlState(paused, stopped, stopReason, stoppedId, stoppedTasks, retries, callDecisions, lastId, |log|);
  }

  // ------------------------------------------------------------------------
  // The declarative reading of a log.
  // ------------------------------------------------------------------------

  predicate HasStop(log: seq<Control>) {
    exists i | 0 <= i < |log| :: log[i].action == Stop
  }

  /** The last pause or resume in the log is a pause. */
  ghost predicate EndsPaused(log: seq<Control>) {
    exists i | 0 <= i < |log| ::
      log[i].action == Pause && forall j | i < j < |log| :: log[j].action != Resume
  }

  ghost predicate IsFirstStop(log: seq<Control>, i: nat) {
    i < |log| && log[i].action == Stop && forall j | 0 <= j < i :: log[j].action != Stop
  }

  /** The rows of one action, in recorded order. */
  function RowsOf(log: seq<Control>, action: Action): seq<Row> {
    if log == [] then []
    else
      var rest := RowsOf(log[..|log| - 1], action);
      var c := log[|log| - 1];
      if c.action == action then rest + [RowOf(c)] else rest
  }

  lemma HasStopAppend(log: seq<Control>, c: Control)
    ensures HasStop(log + [c]) <==> HasStop(log) || c.action == Stop
  {
    var all := log + [c];
    if HasStop(log) {
      var i :| 0 <= i < |log| && log[i].action == Stop;
      assert all[i].action == Stop;
    }
    if c.action == Stop {
      assert all[|log|].action == Stop;
    }
  }

  lemma EndsPausedAppend(log: seq<Control>, c: Control)
    ensures EndsPaused(log + [c]) <==> c.action == Pause || (EndsPaused(log) && c.action != Resume)
  {
    var all := log + [c];
    if c.action == Pause {
      assert all[|log|].action == Pause;
    } else {
      if EndsPaused(log) && c.action != Resume {
        var i :| 0 <= i < |log| && log[i].action == Pause && forall j | i < j < |log| :: log[j].action != Resume;
        assert all[i].action == Pause && forall j | i < j < |all| :: all[j].action != Resume;
      }
      if EndsPaused(all) {
        var i :| 0 <= i < |all| && all[i].action == Pause && forall j | i < j < |all| :: all[j].action != Resume;
        assert all[|log|].action != Resume;
        assert log[i].action == Pause && forall j | i < j < |log| :: log[j] == all[j];
      }
    }
  }

  /** The fold is the declarative reading: a stop anywhere stops the run for good
      and names the first one, otherwise the last pause or resume decides, and
      the row lists are the log filtered by action. */
  lemma {:induction false} ProjectReadsTheLog(log: seq<Control>)
    ensures Project(log).stopped <==> HasStop(log)
    ensures Project(log).paused <==> !HasStop(log) && EndsPaused(log)
    ensures HasStop(log) ==> exists i: nat :: IsFirstStop(log, i) && Project(log).stoppedId == Some(log[i].id)
    ensures Project(log).stoppedTasks == RowsOf(log, TaskStop)
    ensures Project(log).retries == RowsOf(log, Retry)
    ensures Project(log).callDecisions == RowsOf(log, DecideCall)
    ensures Project(log).total == |log|
  {
    if log != [] {
      var front, c := log[..|log| - 1], log[|log| - 1];
      ProjectReadsTheLog(front);
      assert log == front + [c];
      HasStopAppend(front, c);
      EndsPausedAppend(front, c);
      if HasStop(front) {
        var i: nat :| IsFirstStop(front, i) && Project(front).stoppedId == Some(front[i].id);
      } else if c.action == Stop {
      }
    }
  }

  // ------------------------------------------------------------------------
  // Decisions.
  // ------------------------------------------------------------------------

  datatype Operation = StartChild | ContinueTask | RetryTask | CheckRun

  datatype Code = Allowed | RunStopped | RunPaused | TaskStopped | RetryExists

  datatype Decision = Decision(
    code: Code,
    id: Option<ControlId>,
    replacement: Option<string>,
    attempt: Option<int>)
  {
    predicate IsAllowed() { code == Allowed }
  }

  /** `ControlError` for an operation that needs a target and has none. */
  datatype Evaluation = Verdict(d: Decision) | ControlError

  /** `_last_match`: the last row for a target. */
  function LastMatch(rows: seq<Row>, target: string): (r: Option<Row>)
    ensures r.None? <==> forall i | 0 <= i < |rows| :: rows[i].target != Some(target)
    ensures r.Some? ==> r.value in rows && r.value.target == Some(target)
  {
    if rows == [] then None
    else if rows[|rows| - 1].target == Some(target) then Some(rows[|rows| - 1])
    else LastMatch(rows[..|rows| - 1], target)
  }

  method LastMatchLoop(rows: seq<Row>, target: string) returns (r: Option<Row>)
    ensures r == LastMatch(rows, target)
  {
    r := None;
    var i := 0;
    while i < |rows|
      invariant 0 <= i <= |rows|
      invariant r == LastMatch(rows[..i], target)
    {
      assert rows[..i + 1][..i] == rows[..i];
      if rows[i].target == Some(target) {
        r := Some(rows[i]);
      }
      i := i + 1;
    }
    assert rows[..|rows|] == rows;
  }

  predicate NeedsTarget(op: Operation) {
    op == ContinueTask || op == RetryTask
  }

  /** `evaluate_control_state`. An empty target reads as none. */
  function Evaluate(s: RunControlState, op: Operation, target: string): Evaluation {
    if NeedsTarget(op) && target == "" then ControlError
    else if s.stopped then Verdict(Decision(RunStopped, s.stoppedId, None, None))
    else if NeedsTarget(op) && LastMatch(s.stoppedTasks, target).Some? then
      Verdict(Decision(TaskStopped, Some(LastMatch(s.stoppedTasks, target).value.id), None, None))
    else if op == RetryTask && LastMatch(s.retries, target).Some? then
      var prior := LastMatch(s.retries, target).value;
      Verdict(Decision(RetryExists, Some(prior.id), prior.replacement, prior.attempt))
    else if s.paused && (op == StartChild || op == RetryTask) then
      Verdict(Decision(RunPaused, None, None, None))
    else Verdict(Decision(Allowed, None, None, None))
  }

  predicate AllowedBy(log: seq<Control>, op: Operation, target: string) {
    var e := Evaluate(Project(log), op, target);
    e.Verdict? && e.d.IsAllowed()
  }

  /** New work may start exactly when nothing stopped the run and it does not end paused. */
  lemma StartChildReading(log: seq<Control>)
    ensures AllowedBy(log, StartChild, "") <==> !HasStop(log) && !EndsPaused(log)
  {
    ProjectReadsTheLog(log);
  }

  lemma CheckRunReading(log: seq<Control>)
    ensures AllowedBy(log, CheckRun, "") <==> !HasStop(log)
  {
    ProjectReadsTheLog(log);
  }

  predicate NamesTarget(c: Control, action: Action, target: string) {
    c.action == action && c.target == Some(target)
  }

  ghost predicate IsLastNamed(log: seq<Control>, i: nat, action: Action, target: string) {
    i < |log| && NamesTarget(log[i], action, target) && forall j | i < j < |log| :: !NamesTarget(log[j], action, target)
  }

  /** The last record of one action on one target. */
  function LastRecord(log: seq<Control>, action: Action, target: string): (r: Option<Control>)
    ensures r.None? ==> forall i | 0 <= i < |log| :: !NamesTarget(log[i], action, target)
    ensures r.Some? ==> exists i: nat :: IsLastNamed(log, i, action, target) && log[i] == r.value
  {
    if log == [] then None
    else
      var n := |log| - 1;
      assert forall i | 0 <= i < n :: log[..n][i] == log[i];
      if NamesTarget(log[n], action, target) then
        assert IsLastNamed(log, n, action, target);
        Some(log[n])
      else
        var r := LastRecord(log[..n], action, target);
        assert forall i: nat | IsLastNamed(log[..n], i, action, target) :: IsLastNamed(log, i, action, target);
        r
  }

  /** The row a target resolves to is that of the last matching record of the log. */
  lemma {:induction false} LastMatchIsLastRecord(log: seq<Control>, action: Action, target: string)
    ensures var c := LastRecord(log, action, target);
            LastMatch(RowsOf(log, action), target) == (if c.Some? then Some(RowOf(c.value)) else None)
  {
    if log != [] {
      var c := log[|log| - 1];
      LastMatchIsLastRecord(log[..|log| - 1], action, target);
      var rest := RowsOf(log[..|log| - 1], action);
      assert (rest + [RowOf(c)])[..|rest|] == rest;
    }
  }

  /** A task may continue exactly when neither the run nor that task was stopped. */
  lemma ContinueTaskReading(log: seq<Control>, target: string)
    requires target != ""
    ensures AllowedBy(log, ContinueTask, target) <==>
            !HasStop(log) && forall i | 0 <= i < |log| :: !NamesTarget(log[i], TaskStop, target)
  {
    ProjectReadsTheLog(log);
    LastMatchIsLastRecord(log, TaskStop, target);
  }

  // ------------------------------------------------------------------------
  // Which denials are permanent.
  // ------------------------------------------------------------------------

  /** No extension of the log ever allows the operation. */
  ghost predicate Names(log: seq<Control>, action: Action, target: string) {
    exists i :: 0 <= i < |log| && NamesTarget(log[i], action, target)
  }

  /** A retry may go ahead exactly when the run was not stopped and does not end
      paused, and its target was neither stopped nor retried; otherwise the first
      of a stop, a stop of the target, a retry of it and a pause is the reason. */
  lemma RetryTaskReading(log: seq<Control>, target: string)
    requires target != ""
    ensures AllowedBy(log, RetryTask, target) <==>
            !HasStop(log) && !EndsPaused(log) && !Names(log, TaskStop, target) && !Names(log, Retry, target)
    ensures Evaluate(Project(log), RetryTask, target).Verdict?
    ensures Evaluate(Project(log), RetryTask, target).d.code ==
            if HasStop(log) then RunStopped
            else if Names(log, TaskStop, target) then TaskStopped
            else if Names(log, Retry, target) then RetryExists
            else if EndsPaused(log) then RunPaused
            else Allowed
  {
    ProjectReadsTheLog(log);
    LastMatchIsLastRecord(log, TaskStop, target);
    LastMatchIsLastRecord(log, Retry, target);
    NamedLast(log, TaskStop, target);
    NamedLast(log, Retry, target);
  }

  lemma NamedLast(log: seq<Control>, action: Action, target: string)
    ensures LastRecord(log, action, target).Some? <==> Names(log, action, target)
  {
    if LastRecord(log, action, target).Some? {
      var i: nat :| IsLastNamed(log, i, action, target) && log[i] == LastRecord(log, action, target).value;
      assert NamesTarget(log[i], action, target);
    }
  }

  ghost predicate DeniedForGood(log: seq<Control>, op: Operation, target: string) {
    forall more: seq<Control> :: !AllowedBy(log + more, op, target)
  }

  lemma RecordsStay(log: seq<Control>, more: seq<Control>, action: Action, target: string)
    ensures LastMatch(RowsOf(log, action), target).Some? ==> LastMatch(RowsOf(log + more, action), target).Some?
  {
    LastMatchIsLastRecord(log, action, target);
    LastMatchIsLastRecord(log + more, action, target);
    if LastMatch(RowsOf(log, action), target).Some? {
      var i :| 0 <= i < |log| && NamesTarget(log[i], action, target);
      assert NamesTarget((log + more)[i], action, target);
    }
  }

  /** A stop keeps answering with the same control whatever is appended. */
  lemma StopKeepsItsRecord(log: seq<Control>, more: seq<Control>, op: Operation, target: string)
    requires Evaluate(Project(log), op, target).Verdict?
    requires Evaluate(Project(log), op, target).d.code == RunStopped
    ensures Evaluate(Project(log + more), op, target) == Evaluate(Project(log), op, target)
  {
    ProjectReadsTheLog(log);
    ProjectReadsTheLog(log + more);
    var all := log + more;
    var i: nat :| IsFirstStop(log, i) && Project(log).stoppedId == Some(log[i].id);
    assert all[i] == log[i];
    assert HasStop(all);
    var j: nat :| IsFirstStop(all, j) && Project(all).stoppedId == Some(all[j].id);
    assert forall k | 0 <= k < |log| :: log[k] == all[k];
  }

  /** Exactly the pause denials can be lifted; every other denial is for good. */
  lemma DenialIsPermanentUnlessPaused(log: seq<Control>, op: Operation, target: string)
    requires Evaluate(Project(log), op, target).Verdict?
    ensures DeniedForGood(log, op, target) <==>
            Evaluate(Project(log), op, target).d.code in {RunStopped, TaskStopped, RetryExists}
  {
    var code := Evaluate(Project(log), op, target).d.code;
    ProjectReadsTheLog(log);
    if code in {RunStopped, TaskStopped, RetryExists} {
      forall more: seq<Control>
        ensures !AllowedBy(log + more, op, target)
      {
        ProjectReadsTheLog(log + more);
        if code == RunStopped {
          StopKeepsItsRecord(log, more, op, target);
        }
        RecordsStay(log, more, TaskStop, target);
        RecordsStay(log, more, Retry, target);
      }
    } else if code == Allowed {
      assert log + [] == log;
      assert AllowedBy(log + [], op, target);
    } else {
      var resume := Control(Minted(0), Resume, None, None, None, None, None);
      assert (log + [resume])[..|log|] == log;
      assert Project(log + [resume]) == Apply(Project(log), resume);
      assert AllowedBy(log + [resume], op, target);
    }
  }

  // ------------------------------------------------------------------------
  // Appending and retrying.
  // ------------------------------------------------------------------------

  ghost predicate DistinctIds(log: seq<Control>) {
    forall i, j | 0 <= i < j < |log| :: log[i].id != log[j].id
  }

  /** The stored record of an id, if any. */
  function Stored(log: seq<Control>, id: ControlId): (r: Option<Control>)
    ensures r.None? <==> forall i | 0 <= i < |log| :: log[i].id != id
    ensures r.Some? ==> r.value in log && r.value.id == id
  {
    if log == [] then None
    else if log[0].id == id then Some(log[0])
    else Stored(log[1..], id)
  }

  /** Appending is idempotent on the control id. */
  function Appended(log: seq<Control>, c: Control): seq<Control> {
    if Stored(log, c.id).Some? then log else log + [c]
  }

  /** Retries of one target, in recorded order. */
  function RetriesOf(log: seq<Control>, target: string): seq<Control> {
    if log == [] then []
    else
      var rest := RetriesOf(log[..|log| - 1], target);
      var c := log[|log| - 1];
      if NamesTarget(c, Retry, target) then rest + [c] else rest
  }

  /** `max((c.attempt or 0) for c in prior)`. */
  function MaxAttempt(prior: seq<Control>): (m: int)
    requires prior != []
    ensures forall i | 0 <= i < |prior| :: AttemptOf(prior[i]) <= m
    ensures exists i | 0 <= i < |prior| :: AttemptOf(prior[i]) == m
  {
    var last := AttemptOf(prior[|prior| - 1]);
    if |prior| == 1 then last
    else
      var m := MaxAttempt(prior[..|prior| - 1]);
      if m < last then last else m
  }

  function AttemptOf(c: Control): int {
    if c.attempt.Some? then c.attempt.value else 0
  }

  function NextAttempt(log: seq<Control>, target: string): int {
    var prior := RetriesOf(log, target);
    if prior == [] then 1 else MaxAttempt(prior) + 1
  }

  type Naming = (string, int) -> string

  /** The record a minting retry asks the store to append. An absent replacement
      is named `<target>#retry<attempt>`; `name` renders that placeholder. */
  function RetryRecord(target: string, attempt: int, replacement: Option<string>, reason: Option<string>,
                       name: Naming): Control {
    Control(RetryOf(target, attempt), Retry, reason, Some(target),
            if replacement.Some? then replacement else Some(name(target, attempt)), Some(attempt), None)
  }

  /** One run's bucket of the in-memory control store. */
  class ControlBucket {
    var log: seq<Control>

    constructor ()
      ensures log == []
    {
      log := [];
    }

    method Append(c: Control) returns (stored: Control)
      modifies this
      ensures log == Appended(old(log), c)
      ensures stored == (if Stored(old(log), c.id).Some? then Stored(old(log), c.id).value else c)
    {
      var existing := Stored(log, c.id);
      if existing.Some? {
        return existing.value;
      }
      log := log + [c];
      return c;
    }

    /** `retry`: an unforced call reuses the last retry of the target. */
    method RetryTarget(target: string, force: bool, replacement: Option<string>, reason: Option<string>,
                       name: Naming)
      returns (stored: Control)
      requires target != ""
      modifies this
      ensures var prior := RetriesOf(old(log), target);
              var minted := RetryRecord(target, NextAttempt(old(log), target), replacement, reason, name);
              if prior != [] && !force then
                stored == prior[|prior| - 1] && log == old(log)
              else
                && log == Appended(old(log), minted)
                && stored == (if Stored(old(log), minted.id).Some? then Stored(old(log), minted.id).value else minted)
    {
      var prior := RetriesOf(log, target);
      if prior != [] && !force {
        return prior[|prior| - 1];
      }
      var attempt := if prior != [] then MaxAttempt(prior) + 1 else 1;
      stored := Append(RetryRecord(target, attempt, replacement, reason, name));
    }
  }

  // ------------------------------------------------------------------------
  // Retry lineage over whole histories.
  // ------------------------------------------------------------------------

  /** One call on the store: a retry, or any other verb with a freshly minted id. */
  datatype Call =
    | CallRetry(target: string, force: bool, replacement: Option<string>, reason: Option<string>)
    | CallOther(c: Control)

  function AfterCall(log: seq<Control>, call: Call, name: Naming): seq<Control> {
    match call
    case CallOther(c) => Appended(log, c)
    case CallRetry(target, force, replacement, reason) =>
      if RetriesOf(log, target) != [] && !force then log
      else Appended(log, RetryRecord(target, NextAttempt(log, target), replacement, reason, name))
  }

  /** Every log a sequence of calls can build, with minted ids never reused for a retry. */
  ghost predicate IsHistory(calls: seq<Call>) {
    forall i | 0 <= i < |calls| ::
      calls[i].CallOther? ==> calls[i].c.action != Retry && calls[i].c.id.Minted?
  }

  function AfterCalls(calls: seq<Call>, name: Naming): seq<Control> {
    if calls == [] then []
    else AfterCall(AfterCalls(calls[..|calls| - 1], name), calls[|calls| - 1], name)
  }

  /** Attempts of a target are 1, 2, ... in recorded order, and its retry ids carry them. */
  ghost predicate Numbered(log: seq<Control>, target: string) {
    forall i | 0 <= i < |RetriesOf(log, target)| ::
      && RetriesOf(log, target)[i].attempt == Some(i + 1)
      && RetriesOf(log, target)[i].id == RetryOf(target, i + 1)
  }

  /** A retry id in the log is the retry of that target with that attempt. */
  ghost predicate RetryIdsHonest(log: seq<Control>) {
    forall i | 0 <= i < |log| && log[i].id.RetryOf? ::
      NamesTarget(log[i], Retry, log[i].id.target) && log[i].attempt == Some(log[i].id.attempt)
  }

  lemma {:induction false} RetriesAreRecorded(log: seq<Control>, target: string)
    ensures forall c :: c in RetriesOf(log, target) <==> c in log && NamesTarget(c, Retry, target)
  {
    if log != [] {
      RetriesAreRecorded(log[..|log| - 1], target);
      assert log == log[..|log| - 1] + [log[|log| - 1]];
    }
  }

  lemma RetriesAfterAppend(log: seq<Control>, c: Control, target: string)
    ensures RetriesOf(log + [c], target) ==
            RetriesOf(log, target) + (if NamesTarget(c, Retry, target) then [c] else [])
  {
    assert (log + [c])[..|log|] == log;
  }

  lemma NumberedNextAttempt(log: seq<Control>, target: string)
    requires Numbered(log, target)
    ensures NextAttempt(log, target) == |RetriesOf(log, target)| + 1
  {
    var prior := RetriesOf(log, target);
    if prior != [] {
      assert AttemptOf(prior[|prior| - 1]) == |prior|;
      assert forall i | 0 <= i < |prior| :: AttemptOf(prior[i]) == i + 1;
    }
  }

  lemma FreshRetryId(log: seq<Control>, target: string)
    requires Numbered(log, target) && RetryIdsHonest(log)
    ensures Stored(log, RetryOf(target, NextAttempt(log, target))).None?
  {
    var next := NextAttempt(log, target);
    NumberedNextAttempt(log, target);
    forall i | 0 <= i < |log| ensures log[i].id != RetryOf(target, next) {
      RetriesAreRecorded(log, target);
      assert log[i] in log;
    }
  }

  /** Over any history, the retries of every target are numbered 1..n without a gap,
      each minted id is new, and ids stay distinct. */
  lemma {:induction false} RetriesAreNumbered(calls: seq<Call>, name: Naming)
    requires IsHistory(calls)
    ensures var log := AfterCalls(calls, name);
            DistinctIds(log) && RetryIdsHonest(log) && forall target :: Numbered(log, target)
  {
    if calls != [] {
      var front := calls[..|calls| - 1];
      RetriesAreNumbered(front, name);
      var log := AfterCalls(front, name);
      var log' := AfterCalls(calls, name);
      var call := calls[|calls| - 1];
      if log' != log {
        var c :| log' == log + [c] && Stored(log, c.id).None?
                 && (call.CallOther? ==> c == call.c)
                 && (call.CallRetry? ==> c == RetryRecord(call.target, NextAttempt(log, call.target),
                                                          call.replacement, call.reason, name));
        forall target ensures Numbered(log', target) {
          RetriesAfterAppend(log, c, target);
          NumberedNextAttempt(log, target);
        }
      }
    }
  }

  /** What a `retry_exists` denial surfaces is the very record an unforced retry
      returns, on every log. */
  lemma {:induction false} DenialNamesTheReusedRetry(log: seq<Control>, target: string)
    ensures LastMatch(RowsOf(log, Retry), target) == LastRow(RetriesOf(log, target))
  {
    if log != [] {
      var front, c := log[..|log| - 1], log[|log| - 1];
      DenialNamesTheReusedRetry(front, target);
      if c.action == Retry {
        LastMatchOneMore(RowsOf(front, Retry), RowOf(c), target);
      }
    }
  }

  function LastRow(prior: seq<Control>): Option<Row> {
    if prior == [] then None else Some(RowOf(prior[|prior| - 1]))
  }

  lemma LastMatchOneMore(rows: seq<Row>, row: Row, target: string)
    ensures LastMatch(rows + [row], target) == if row.target == Some(target) then Some(row) else LastMatch(rows, target)
  {
    assert (rows + [row])[..|rows|] == rows;
  }

  lemma RetryExistsSurfacesLineage(log: seq<Control>, target: string)
    requires target != ""
    ensures var e := Evaluate(Project(log), RetryTask, target);
            var prior := RetriesOf(log, target);
            e.Verdict? && e.d.code == RetryExists ==>
              && prior != []
              && e.d == Decision(RetryExists, Some(prior[|prior| - 1].id),
                                 prior[|prior| - 1].replacement, prior[|prior| - 1].attempt)
  {
    ProjectReadsTheLog(log);
    DenialNamesTheReusedRetry(log, target);
  }

  /** Two forced retries that both read the log before either appends settle on
      one record: the second append is a no-op. */
  lemma RacingRetriesConverge(log: seq<Control>, target: string, r1: Option<string>, r2: Option<string>,
                              name: Naming)
    ensures var attempt := NextAttempt(log, target);
            var after := Appended(log, RetryRecord(target, attempt, r1, None, name));
            Appended(after, RetryRecord(target, attempt, r2, None, name)) == after
  {
    var attempt := NextAttempt(log, target);
    var first := RetryRecord(target, attempt, r1, None, name);
    var after := Appended(log, first);
    if Stored(log, first.id).None? {
      assert after[|log|].id == first.id;
    }
  }
}
