/** The guest's RPC connection (vm_guest.py): many asynchronous calls and the
    occasional synchronous one share a channel to the parent, and one reader
    task matches the returns, which arrive in any order, to the calls.

    The parent is an environment that answers each call at most once, in any
    order, with a well-formed `ret` frame, and may close the channel. Blocking
    receives run in a thread, so a frame can be taken while the event loop is
    busy and handled later. Budget figures carried by frames are left out. */
module Rpc {
  import opened Json

  type Answer = Value

  type Answers = nat -> Answer

  datatype Frame = Ret(id: nat, answer: Answer)

  datatype Future = Unresolved | Resolved(answer: Answer) | ChannelClosed | CancelledFuture

  /** The reader task: absent or done, blocked in a receive, or about to handle
      what the receive returned (`None` for a closed channel). */
  datatype Reader = NoReader | Receiving | Holding(frame: Option<Frame>)

  datatype SyncOutcome = Returned(answer: Answer) | Closed | Desync

  datatype State = State(
    nextId: nat,
    pending: set<nat>,
    futures: map<nat, Future>,
    reader: Reader,
    unanswered: set<nat>,            // sent, and not yet answered by the parent
    inbox: seq<Frame>,               // answered, and not yet received
    closed: bool,
    blocked: Option<nat>,            // the synchronous call in progress
    synced: map<nat, SyncOutcome>)

  const START: State := State(0, {}, map[], NoReader, {}, [], false, None, map[])

  datatype Action =
    | ACall
    | Answered(id: nat)
    | Close
    | Receive
    | Handle
    | SyncSend
    | SyncReceive
    | Cancel(id: nat)      // the awaiting task is cancelled
    | PopCancelled(id: nat)  // and, a turn later, its `finally` runs

  predicate Enabled(s: State, a: Action) {
    match a
    case ACall => s.blocked.None?
    case Answered(id) => !s.closed && id in s.unanswered
    case Close => !s.closed
    case Receive => s.reader == Receiving && (s.inbox != [] || s.closed)
    case Handle => s.blocked.None? && s.reader.Holding?
    case SyncSend => s.blocked.None? && s.pending == {}  // the guard of `call`
    case SyncReceive => s.blocked.Some? && (s.inbox != [] || s.closed)
    case Cancel(id) => s.blocked.None? && id in s.futures && s.futures[id] == Unresolved
    case PopCancelled(id) => s.blocked.None? && id in s.futures && s.futures[id] == CancelledFuture && id in s.pending
  }

  /** The loop of `_read_returns` goes on while calls are pending. */
  function NextTurn(pending: set<nat>): Reader {
    if pending == {} then NoReader else Receiving
  }

  /** `_fail_pending`. */
  function FailAll(s: State): map<nat, Future> {
    map id | id in s.futures :: if id in s.pending && s.futures[id] == Unresolved then ChannelClosed else s.futures[id]
  }

  /** One frame in `_read_returns`. Setting the result of a cancelled future
      raises, which ends the reader. */
  function HandleFrame(s: State, frame: Option<Frame>): State {
    match frame
    case None => s.(futures := FailAll(s), pending := {}, reader := NoReader)
    case Some(f) =>
      if f.id !in s.pending then s.(reader := NextTurn(s.pending))
      else
        var pending := s.pending - {f.id};
        if f.id in s.futures && s.futures[f.id] == Unresolved then
          s.(futures := s.futures[f.id := Resolved(f.answer)], pending := pending, reader := NextTurn(pending))
        else s.(pending := pending, reader := NoReader)
  }

  function Apply(s: State, a: Action, answers: Answers): State
    requires Enabled(s, a)
  {
    match a
    case ACall =>
      var id := s.nextId + 1;
      s.(nextId := id, pending := s.pending + {id}, futures := s.futures[id := Unresolved],
         unanswered := s.unanswered + {id}, reader := if s.reader == NoReader then Receiving else s.reader)
    case Answered(id) => s.(unanswered := s.unanswered - {id}, inbox := s.inbox + [Ret(id, answers(id))])
    case Close => s.(closed := true)
    case Receive =>
      if s.inbox != [] then s.(reader := Holding(Some(s.inbox[0])), inbox := s.inbox[1..])
      else s.(reader := Holding(None))
    case Handle => HandleFrame(s, s.reader.frame)
    case SyncSend =>
      var id := s.nextId + 1;
      s.(nextId := id, unanswered := s.unanswered + {id}, blocked := Some(id))
    case SyncReceive =>
      var id := s.blocked.value;
      if s.inbox == [] then s.(blocked := None, synced := s.synced[id := Closed])
      else
        var f := s.inbox[0];
        s.(blocked := None, inbox := s.inbox[1..],
           synced := s.synced[id := if f.id == id then Returned(f.answer) else Desync])
    case Cancel(id) => s.(futures := s.futures[id := CancelledFuture])
    case PopCancelled(id) => s.(pending := s.pending - {id})
  }

  /** A run: every action is enabled where it happens. */
  ghost predicate Runs(s: State, actions: seq<Action>, answers: Answers)
    decreases actions
  {
    actions == [] || (Enabled(s, actions[0]) && Runs(Apply(s, actions[0], answers), actions[1..], answers))
  }

  function After(s: State, actions: seq<Action>, answers: Answers): State
    requires Runs(s, actions, answers)
    decreases actions
  {
    if actions == [] then s else After(Apply(s, actions[0], answers), actions[1..], answers)
  }

  predicate Cancels(a: Action) {
    a.Cancel? || a.PopCancelled?
  }

  // ------------------------------------------------------------------------
  // The invariant of cancellation-free runs.
  // ------------------------------------------------------------------------

  ghost function Held(s: State): set<nat> {
    if s.reader.Holding? && s.reader.frame.Some? then {s.reader.frame.value.id} else {}
  }

  ghost function Ids(inbox: seq<Frame>): set<nat> {
    set f | f in inbox :: f.id
  }

  ghost function Awaited(s: State): set<nat> {
    s.pending + if s.blocked.Some? then {s.blocked.value} else {}
  }

  ghost predicate InboxOk(s: State, answers: Answers) {
    && (forall i, j | 0 <= i < j < |s.inbox| :: s.inbox[i].id != s.inbox[j].id)
    && (forall i | 0 <= i < |s.inbox| ::
          s.inbox[i].answer == answers(s.inbox[i].id) && s.inbox[i].id in Awaited(s)
          && s.inbox[i].id !in s.unanswered && s.inbox[i].id !in Held(s))
  }

  /** Every awaited call has exactly one answer on its way, and nothing else has. */
  ghost predicate Delivery(s: State, answers: Answers) {
    && InboxOk(s, answers)
    && Held(s) !! s.unanswered
    && (forall id | id in Held(s) :: id in s.pending && s.reader.frame.value.answer == answers(id))
    && (forall id | id in Awaited(s) :: id in s.unanswered || id in Held(s) || exists i | 0 <= i < |s.inbox| :: s.inbox[i].id == id)
    && (!s.closed ==> s.unanswered <= Awaited(s) && s.reader != Holding(None))
    && (s.reader == Holding(None) ==> s.inbox == [])
  }

  ghost predicate Matching(s: State, answers: Answers) {
    && (forall id | id in s.pending :: id in s.futures && s.futures[id] == Unresolved)
    && (forall id | id in s.futures && id !in s.pending :: s.futures[id] == Resolved(answers(id)) || (s.closed && s.futures[id] == ChannelClosed))
    && (forall id | id in s.synced :: s.synced[id] == Returned(answers(id)) || (s.closed && s.synced[id] == Closed))
  }

  ghost predicate Numbered(s: State) {
    && (forall id | id in s.futures || id in s.unanswered || id in s.synced || id in Awaited(s) :: id <= s.nextId)
    && (s.blocked.Some? ==> s.blocked.value !in s.futures && s.blocked.value !in s.synced)
    && s.futures.Keys !! s.synced.Keys
  }

  ghost predicate Inv(s: State, answers: Answers) {
    && Delivery(s, answers)
    && Matching(s, answers)
    && Numbered(s)
    && (s.pending == {} <==> s.reader == NoReader)
    && (s.blocked.Some? ==> s.pending == {})
  }

  lemma ACallKeepsInv(s: State, answers: Answers)
    requires Inv(s, answers) && Enabled(s, ACall)
    ensures Inv(Apply(s, ACall, answers), answers)
  {
  }

  lemma AnswerKeepsInv(s: State, id: nat, answers: Answers)
    requires Inv(s, answers) && Enabled(s, Answered(id))
    ensures Inv(Apply(s, Answered(id), answers), answers)
  {
    var t := Apply(s, Answered(id), answers);
    assert t.inbox[|s.inbox|].id == id;
    assert forall i | 0 <= i < |s.inbox| :: t.inbox[i] == s.inbox[i];
  }

  lemma ReceiveKeepsInv(s: State, answers: Answers)
    requires Inv(s, answers) && Enabled(s, Receive)
    ensures Inv(Apply(s, Receive, answers), answers)
  {
    var t := Apply(s, Receive, answers);
    if s.inbox != [] {
      assert forall i | 0 <= i < |t.inbox| :: t.inbox[i] == s.inbox[i + 1];
      forall id | id in Awaited(t) && id !in t.unanswered && id !in Held(t)
        ensures exists i | 0 <= i < |t.inbox| :: t.inbox[i].id == id
      {
        var i :| 0 <= i < |s.inbox| && s.inbox[i].id == id;
        assert t.inbox[i - 1].id == id;
      }
    }
  }

  lemma HandleKeepsInv(s: State, answers: Answers)
    requires Inv(s, answers) && Enabled(s, Handle)
    ensures Inv(Apply(s, Handle, answers), answers)
  {
    var t := Apply(s, Handle, answers);
    if s.reader.frame.Some? {
      var id := s.reader.frame.value.id;
      assert id in Held(s);
    }
  }

  lemma SyncSendKeepsInv(s: State, answers: Answers)
    requires Inv(s, answers) && Enabled(s, SyncSend)
    ensures Inv(Apply(s, SyncSend, answers), answers)
  {
  }

  lemma SyncReceiveKeepsInv(s: State, answers: Answers)
    requires Inv(s, answers) && Enabled(s, SyncReceive)
    ensures Inv(Apply(s, SyncReceive, answers), answers)
  {
    var t := Apply(s, SyncReceive, answers);
    if s.inbox != [] {
      assert forall i | 0 <= i < |s.inbox| :: s.inbox[i].id == s.blocked.value;
      assert |t.inbox| == |s.inbox| - 1;
    }
  }

  lemma StepKeepsInv(s: State, a: Action, answers: Answers)
    requires Inv(s, answers) && Enabled(s, a) && !Cancels(a)
    ensures Inv(Apply(s, a, answers), answers)
  {
    match a
    case ACall => ACallKeepsInv(s, answers);
    case Answered(id) => AnswerKeepsInv(s, id, answers);
    case Close =>
    case Receive => ReceiveKeepsInv(s, answers);
    case Handle => HandleKeepsInv(s, answers);
    case SyncSend => SyncSendKeepsInv(s, answers);
    case SyncReceive => SyncReceiveKeepsInv(s, answers);
  }

  lemma {:induction false} RunsKeepInv(s: State, actions: seq<Action>, answers: Answers)
    requires Inv(s, answers) && Runs(s, actions, answers)
    requires forall i | 0 <= i < |actions| :: !Cancels(actions[i])
    ensures Inv(After(s, actions, answers), answers)
    decreases actions
  {
    if actions != [] {
      StepKeepsInv(s, actions[0], answers);
      RunsKeepInv(Apply(s, actions[0], answers), actions[1..], answers);
    }
  }

  // ------------------------------------------------------------------------
  // What callers may rely on.
  // ------------------------------------------------------------------------

  /** A future that has been resolved is never touched again. */
  lemma ResolvedOnce(s: State, a: Action, answers: Answers, id: nat)
    requires Inv(s, answers) && Enabled(s, a) && !Cancels(a)
    requires id in s.futures && s.futures[id] != Unresolved
    ensures id in Apply(s, a, answers).futures && Apply(s, a, answers).futures[id] == s.futures[id]
  {
    if a.Handle? && s.reader.frame.Some? {
      assert s.reader.frame.value.id in Held(s);
    }
  }

  /** In every cancellation-free run: a call that is resolved has its own answer
      (or learns that the channel closed), a call that is not is pending with a
      live reader, and a synchronous call never sees another call's frame. */
  lemma EveryCallGetsItsOwnAnswer(actions: seq<Action>, answers: Answers)
    requires Runs(START, actions, answers)
    requires forall i | 0 <= i < |actions| :: !Cancels(actions[i])
    ensures var s := After(START, actions, answers);
            && (forall id | id in s.futures ::
                  || (s.futures[id] == Unresolved && id in s.pending && s.reader != NoReader)
                  || s.futures[id] == Resolved(answers(id))
                  || (s.closed && s.futures[id] == ChannelClosed))
            && (forall id | id in s.synced :: s.synced[id] == Returned(answers(id)) || (s.closed && s.synced[id] == Closed))
            && (s.blocked.Some? ==> s.reader == NoReader)
  {
    RunsKeepInv(START, actions, answers);
  }

  /** Steps that need no new call, counted until everything is resolved. */
  ghost function Distance(s: State): nat {
    3 * |s.unanswered| + 2 * |s.inbox| + if s.reader.Holding? then 1 else 0
  }

  predicate Delivers(a: Action) {
    a.Answered? || a.Receive? || a.Handle?
  }

  /** No deadlock: while a call is pending on an open channel, some delivering
      step is enabled, and every delivering step brings the end nearer. */
  lemma PendingCallsProgress(s: State, answers: Answers) returns (a: Action)
    requires Inv(s, answers) && s.pending != {} && !s.closed
    ensures Delivers(a) && Enabled(s, a)
  {
    if s.reader.Holding? {
      a := Handle;
    } else if s.inbox != [] {
      a := Receive;
    } else {
      var id :| id in s.pending;
      assert id in Awaited(s);
      a := Answered(id);
    }
  }

  lemma DeliveryShortens(s: State, a: Action, answers: Answers)
    requires Inv(s, answers) && Enabled(s, a) && Delivers(a) && !s.closed
    ensures Distance(Apply(s, a, answers)) < Distance(s)
  {
    if a.Answered? {
      assert |s.unanswered - {a.id}| == |s.unanswered| - 1;
    }
  }

  /** What is left to do for the pending calls, a closed channel included. */
  ghost function Left(s: State): nat {
    4 * |s.unanswered| + 3 * |s.inbox| + 3 * |s.pending| + match s.reader case NoReader => 0 case Receiving => 2 case Holding(_) => 1
  }

  /** The delivering step that is enabled while a call is pending. */
  lemma NextDelivery(s: State, answers: Answers) returns (a: Action)
    requires Inv(s, answers) && s.pending != {}
    ensures Delivers(a) && Enabled(s, a) && Left(Apply(s, a, answers)) < Left(s)
  {
    if s.reader.Holding? {
      a := Handle;
      HandlingShortens(s, answers);
    } else if s.inbox != [] || s.closed {
      a := Receive;
    } else {
      var id :| id in s.pending;
      assert id in Awaited(s);
      a := Answered(id);
      assert |s.unanswered - {id}| == |s.unanswered| - 1;
    }
  }

  lemma HandlingShortens(s: State, answers: Answers)
    requires Inv(s, answers) && Enabled(s, Handle)
    ensures Left(Apply(s, Handle, answers)) < Left(s)
  {
    if s.reader.frame.Some? {
      var id := s.reader.frame.value.id;
      assert id in Held(s) && id in s.pending;
      assert |s.pending - {id}| == |s.pending| - 1;
    }
  }

  /** From every moment of a cancellation-free run the parent's answers and the
      reader alone can resolve all pending calls, on a closed channel too. */
  lemma {:induction false} PendingCallsAreResolved(s: State, answers: Answers) returns (actions: seq<Action>)
    requires Inv(s, answers)
    ensures Runs(s, actions, answers) && forall i | 0 <= i < |actions| :: Delivers(actions[i])
    ensures After(s, actions, answers).pending == {}
    decreases Left(s)
  {
    actions := [];
    if s.pending != {} {
      var a := NextDelivery(s, answers);
      StepKeepsInv(s, a, answers);
      var rest := PendingCallsAreResolved(Apply(s, a, answers), answers);
      actions := [a] + rest;
      assert actions[1..] == rest;
    }
  }

  // ------------------------------------------------------------------------
  // Cancelled calls.
  // ------------------------------------------------------------------------

  /** What every run keeps, cancellations or not: ids are numbered as they are
      drawn, frames carry their call's answer, and a pending call is unresolved
      or cancelled. */
  ghost predicate Sane(s: State, answers: Answers) {
    && (forall id | id in s.futures || id in s.unanswered || id in s.synced || id in s.pending :: id <= s.nextId)
    && (forall i | 0 <= i < |s.inbox| :: s.inbox[i].id <= s.nextId && s.inbox[i].answer == answers(s.inbox[i].id))
    && (forall id | id in s.pending :: id in s.futures && s.futures[id] in [Unresolved, CancelledFuture])
    && (s.blocked.Some? ==> s.blocked.value <= s.nextId && s.blocked.value !in s.synced)
  }

  lemma StepKeepsSane(s: State, a: Action, answers: Answers)
    requires Sane(s, answers) && Enabled(s, a)
    ensures Sane(Apply(s, a, answers), answers)
  {
    var t := Apply(s, a, answers);
    if (a.Receive? || a.SyncReceive?) && s.inbox != [] {
      assert forall i | 0 <= i < |t.inbox| :: t.inbox[i] == s.inbox[i + 1];
    }
    if a.Answered? {
      assert forall i | 0 <= i < |s.inbox| :: t.inbox[i] == s.inbox[i];
    }
  }

  lemma {:induction false} RunsKeepSane(s: State, actions: seq<Action>, answers: Answers)
    requires Sane(s, answers) && Runs(s, actions, answers)
    ensures Sane(After(s, actions, answers), answers)
    decreases actions
  {
    if actions != [] {
      StepKeepsSane(s, actions[0], answers);
      RunsKeepSane(Apply(s, actions[0], answers), actions[1..], answers);
    }
  }

  // ------------------------------------------------------------------------
  // When calls lose their reader.
  // ------------------------------------------------------------------------

  /** Calls are pending and nobody reads. */
  predicate Stranded(s: State) {
    s.pending != {} && s.reader == NoReader
  }

  /** The reader takes up the frame of a call that was cancelled and has not yet
      left the table. */
  predicate MeetsCancelled(s: State, a: Action) {
    && a.Handle? && s.reader.Holding? && s.reader.frame.Some?
    && var id := s.reader.frame.value.id;
       id in s.pending && id in s.futures && s.futures[id] == CancelledFuture
  }

  predicate Strands(s: State, a: Action) {
    MeetsCancelled(s, a) && s.pending != {s.reader.frame.value.id}
  }

  lemma StepStrands(s: State, a: Action, answers: Answers)
    requires Sane(s, answers) && Enabled(s, a) && !Stranded(s)
    ensures Stranded(Apply(s, a, answers)) <==> Strands(s, a)
  {
    if a.Handle? && s.reader.frame.Some? && s.pending != {s.reader.frame.value.id} && s.pending != {} {
      var other :| other in s.pending && other != s.reader.frame.value.id;
      assert other in s.pending - {s.reader.frame.value.id};
    }
  }

  ghost predicate NeverStranded(s: State, actions: seq<Action>, answers: Answers)
    requires Runs(s, actions, answers)
    decreases actions
  {
    !Stranded(s) && (actions != [] ==> NeverStranded(Apply(s, actions[0], answers), actions[1..], answers))
  }

  ghost predicate NoneStrands(s: State, actions: seq<Action>, answers: Answers)
    requires Runs(s, actions, answers)
    decreases actions
  {
    actions != [] ==> !Strands(s, actions[0]) && NoneStrands(Apply(s, actions[0], answers), actions[1..], answers)
  }

  /** Over any run: pending calls have a reader at every moment exactly when the
      reader never takes up the frame of a cancelled call while another is pending. */
  lemma {:induction false} ReaderIsKeptExactlyWhen(s: State, actions: seq<Action>, answers: Answers)
    requires Sane(s, answers) && !Stranded(s) && Runs(s, actions, answers)
    ensures NeverStranded(s, actions, answers) <==> NoneStrands(s, actions, answers)
    decreases actions
  {
    if actions != [] {
      var t := Apply(s, actions[0], answers);
      StepStrands(s, actions[0], answers);
      StepKeepsSane(s, actions[0], answers);
      if Stranded(t) {
        assert !NeverStranded(t, actions[1..], answers);
      } else {
        ReaderIsKeptExactlyWhen(t, actions[1..], answers);
      }
    }
  }

  /** A reader met a cancelled call, and no call was begun since. */
  ghost predicate ReaderLost(s: State, actions: seq<Action>, answers: Answers, lost: bool)
    requires Runs(s, actions, answers)
    decreases actions
  {
    if actions == [] then lost
    else ReaderLost(Apply(s, actions[0], answers), actions[1..], answers, (lost || MeetsCancelled(s, actions[0])) && !actions[0].ACall?)
  }

  /** `lost` says whether the reader ended on a cancelled call; otherwise it ends
      only when nothing is pending. */
  ghost predicate ReaderTold(s: State, lost: bool) {
    if lost then s.reader == NoReader else !Stranded(s)
  }

  lemma StepTellsReader(s: State, a: Action, answers: Answers, lost: bool)
    requires Sane(s, answers) && Enabled(s, a) && ReaderTold(s, lost)
    ensures ReaderTold(Apply(s, a, answers), (lost || MeetsCancelled(s, a)) && !a.ACall?)
  {
    if !lost {
      StepStrands(s, a, answers);
    }
  }

  /** At any moment of any run, calls are stranded exactly when some are pending
      and the last reader met a cancelled call: the next call, if any, revives them. */
  lemma {:induction false} StrandedExactlyWhen(s: State, actions: seq<Action>, answers: Answers, lost: bool)
    requires Sane(s, answers) && Runs(s, actions, answers) && ReaderTold(s, lost)
    ensures var t := After(s, actions, answers);
            Stranded(t) <==> t.pending != {} && ReaderLost(s, actions, answers, lost)
    decreases actions
  {
    if actions != [] {
      StepTellsReader(s, actions[0], answers, lost);
      StepKeepsSane(s, actions[0], answers);
      StrandedExactlyWhen(Apply(s, actions[0], answers), actions[1..], answers, (lost || MeetsCancelled(s, actions[0])) && !actions[0].ACall?);
    }
  }

  lemma {:induction false} OneMore(s: State, run: seq<Action>, a: Action, answers: Answers)
    requires Runs(s, run, answers) && Enabled(After(s, run, answers), a)
    ensures Runs(s, run + [a], answers) && After(s, run + [a], answers) == Apply(After(s, run, answers), a, answers)
    decreases run
  {
    var longer := run + [a];
    if run == [] {
      assert longer[1..] == [];
    } else {
      OneMore(Apply(s, run[0], answers), run[1..], a, answers);
      assert longer[1..] == run[1..] + [a];
    }
  }

  /** Two calls, the first cancelled while its answer is being taken: the second
      is left pending with no reader, although its answer has arrived. */
  lemma CancellationCanStrandACall(answers: Answers) returns (run: seq<Action>)
    ensures Runs(START, run, answers)
    ensures var s := After(START, run, answers);
            2 in s.pending && 2 in s.futures && s.futures[2] == Unresolved && s.reader == NoReader && s.inbox == [Ret(2, answers(2))]
  {
    run := [];
    OneMore(START, run, ACall, answers);
    run := run + [ACall];
    OneMore(START, run, ACall, answers);
    run := run + [ACall];
    OneMore(START, run, Answered(1), answers);
    run := run + [Answered(1)];
    OneMore(START, run, Answered(2), answers);
    run := run + [Answered(2)];
    OneMore(START, run, Receive, answers);
    run := run + [Receive];
    OneMore(START, run, Cancel(1), answers);
    run := run + [Cancel(1)];
    OneMore(START, run, Handle, answers);
    run := run + [Handle];
  }

  // ------------------------------------------------------------------------
  // When a synchronous call is safe.
  // ------------------------------------------------------------------------

  /** The call has its own answer, or learned that the channel closed before it
      was answered, or is still waiting. */
  predicate OwnOutcome(s: State, id: nat, answers: Answers) {
    id in s.synced ==> s.synced[id] == Returned(answers(id)) || (s.synced[id] == Closed && id in s.unanswered)
  }

  /** No frame of another call can come first, and nobody else can take its own. */
  predicate ClearForSync(s: State) {
    s.inbox == [] && (s.closed || (s.unanswered == {} && s.reader != Receiving))
  }

  /** What a call sent on a clear connection keeps until it returns, and after. */
  ghost predicate SyncOk(s: State, id: nat, answers: Answers) {
    if id in s.synced then
      && (s.synced[id] == Returned(answers(id)) || (s.synced[id] == Closed && id in s.unanswered && s.closed))
    else
      && s.blocked == Some(id)
      && (if id in s.unanswered then s.inbox == [] && (s.closed || s.unanswered == {id})
          else s.unanswered == {} && s.inbox == [Ret(id, answers(id))])
      && (s.closed || s.reader != Receiving || id !in s.unanswered)
      && (id !in s.unanswered ==> s.reader != Receiving)
  }

  lemma StepKeepsSyncOk(s: State, a: Action, id: nat, answers: Answers)
    requires Sane(s, answers) && Enabled(s, a) && SyncOk(s, id, answers) && id <= s.nextId
    ensures SyncOk(Apply(s, a, answers), id, answers)
  {
  }

  lemma {:induction false} ClearCallsKeepTheirOutcome(s: State, more: seq<Action>, id: nat, answers: Answers)
    requires Sane(s, answers) && Runs(s, more, answers) && SyncOk(s, id, answers) && id <= s.nextId
    ensures OwnOutcome(After(s, more, answers), id, answers)
    decreases more
  {
    if more != [] {
      StepKeepsSane(s, more[0], answers);
      StepKeepsSyncOk(s, more[0], id, answers);
      ClearCallsKeepTheirOutcome(Apply(s, more[0], answers), more[1..], id, answers);
    }
  }

  /** What goes wrong otherwise. */
  lemma UnclearCallsCanGoWrong(s: State, answers: Answers) returns (more: seq<Action>)
    requires Sane(s, answers) && Enabled(s, SyncSend) && !ClearForSync(s)
    ensures var t := Apply(s, SyncSend, answers);
            Runs(t, more, answers) && !OwnOutcome(After(t, more, answers), s.nextId + 1, answers)
  {
    var t := Apply(s, SyncSend, answers);
    more := [];
    if s.inbox == [] {
      if s.unanswered != {} {
        var other :| other in s.unanswered;
        OneMore(t, more, Answered(other), answers);
        more := more + [Answered(other)];
      } else {
        OneMore(t, more, Answered(s.nextId + 1), answers);
        more := more + [Answered(s.nextId + 1)];
        OneMore(t, more, Receive, answers);
        more := more + [Receive];
        OneMore(t, more, Close, answers);
        more := more + [Close];
      }
    }
    OneMore(t, more, SyncReceive, answers);
    more := more + [SyncReceive];
  }

  /** After any run: a synchronous call that passes its guard gets its own answer,
      in every continuation, exactly when the connection is clear as it is sent. */
  lemma SyncCallIsSafeExactlyWhen(actions: seq<Action>, answers: Answers)
    requires Runs(START, actions, answers) && Enabled(After(START, actions, answers), SyncSend)
    ensures var s := After(START, actions, answers);
            var t := Apply(s, SyncSend, answers);
            (forall more | Runs(t, more, answers) :: OwnOutcome(After(t, more, answers), s.nextId + 1, answers)) <==> ClearForSync(s)
  {
    RunsKeepSane(START, actions, answers);
    var s := After(START, actions, answers);
    var t := Apply(s, SyncSend, answers);
    StepKeepsSane(s, SyncSend, answers);
    if ClearForSync(s) {
      forall more | Runs(t, more, answers) ensures OwnOutcome(After(t, more, answers), s.nextId + 1, answers) {
        ClearCallsKeepTheirOutcome(t, more, s.nextId + 1, answers);
      }
    } else {
      var more := UnclearCallsCanGoWrong(s, answers);
    }
  }

  lemma FramesAreAwaited(s: State, answers: Answers)
    requires InboxOk(s, answers)
    ensures s.inbox != [] ==> Awaited(s) != {}
  {
    if s.inbox != [] {
      assert s.inbox[0].id in Awaited(s);
    }
  }

  /** Without cancellations the guard alone makes it clear. */
  lemma GuardSufficesWithoutCancellation(s: State, answers: Answers)
    requires Inv(s, answers) && Enabled(s, SyncSend)
    ensures ClearForSync(s)
  {
    FramesAreAwaited(s, answers);
    assert Awaited(s) == {};
  }

  /** A cancelled call leaves `pending` while its answer is still to come, so a
      synchronous call passes its guard with the reader still receiving, and
      takes the wrong frame. */
  lemma CancellationCanMisdirectASyncCall(answers: Answers) returns (run: seq<Action>)
    ensures Runs(START, run, answers)
    ensures var s := After(START, run, answers);
            2 in s.synced && s.synced[2] == Desync && s.reader == Receiving
  {
    run := [];
    OneMore(START, run, ACall, answers);
    run := run + [ACall];
    OneMore(START, run, Cancel(1), answers);
    run := run + [Cancel(1)];
    OneMore(START, run, PopCancelled(1), answers);
    run := run + [PopCancelled(1)];
    OneMore(START, run, SyncSend, answers);
    run := run + [SyncSend];
    OneMore(START, run, Answered(1), answers);
    run := run + [Answered(1)];
    OneMore(START, run, Answered(2), answers);
    run := run + [Answered(2)];
    OneMore(START, run, SyncReceive, answers);
    run := run + [SyncReceive];
  }

  // ------------------------------------------------------------------------
  // The connection object.
  // ------------------------------------------------------------------------

  /** The parent's end of the channel. */
  class Channel {
    var unanswered: set<nat>
    var inbox: seq<Frame>
    var closed: bool

    constructor ()
      ensures unanswered == {} && inbox == [] && !closed
    {
      unanswered, inbox, closed := {}, [], false;
    }

    method Send(id: nat)
      modifies this
      ensures unanswered == old(unanswered) + {id} && inbox == old(inbox) && closed == old(closed)
    {
      unanswered := unanswered + {id};
    }

    /** A receive that has something to return. */
    method Recv() returns (frame: Option<Frame>)
      requires inbox != [] || closed
      modifies this
      ensures unanswered == old(unanswered) && closed == old(closed)
      ensures if old(inbox) == [] then frame == None && inbox == [] else frame == Some(old(inbox)[0]) && inbox == old(inbox)[1..]
    {
      if inbox == [] {
        return None;
      }
      frame := Some(inbox[0]);
      inbox := inbox[1..];
    }
  }

  class Connection {
    const channel: Channel
    var nextId: nat
    var pending: set<nat>
    var futures: map<nat, Future>
    var reader: Reader
    var blocked: Option<nat>
    var synced: map<nat, SyncOutcome>

    constructor (channel: Channel)
      requires channel.unanswered == {} && channel.inbox == [] && !channel.closed
      ensures this.channel == channel && Now() == START
    {
      this.channel := channel;
      nextId, pending, futures, reader, blocked, synced := 0, {}, map[], NoReader, None, map[];
    }

    ghost function Now(): State
      reads this, channel
    {
      State(nextId, pending, futures, reader, channel.unanswered, channel.inbox, channel.closed, blocked, synced)
    }

    /** `acall`, up to the await of its future. */
    method BeginACall(ghost answers: Answers) returns (id: nat)
      requires Enabled(Now(), ACall)
      modifies this, channel
      ensures Now() == Apply(old(Now()), ACall, answers) && id == nextId
    {
      nextId := nextId + 1;
      id := nextId;
      pending := pending + {id};
      futures := futures[id := Unresolved];
      channel.Send(id);
      if reader == NoReader {
        reader := Receiving;
      }
    }

    /** The first half of `call`: its guard and its send. */
    method BeginCall(ghost answers: Answers) returns (ok: bool)
      requires blocked.None?
      modifies this, channel
      ensures ok <==> old(pending) == {}
      ensures Now() == if ok then Apply(old(Now()), SyncSend, answers) else old(Now())
    {
      if pending != {} {
        return false;
      }
      nextId := nextId + 1;
      channel.Send(nextId);
      blocked := Some(nextId);
      ok := true;
    }

    /** The second half: the blocking receive and the check of its frame. */
    method EndCall(ghost answers: Answers) returns (outcome: SyncOutcome)
      requires Enabled(Now(), SyncReceive)
      modifies this, channel
      ensures Now() == Apply(old(Now()), SyncReceive, answers)
      ensures outcome == synced[old(blocked).value]
      ensures Inv(old(Now()), answers) ==> outcome == Returned(answers(old(blocked).value)) || outcome == Closed
    {
      var id := blocked.value;
      var frame := channel.Recv();
      if frame.None? {
        outcome := Closed;
      } else {
        outcome := if frame.value.id == id then Returned(frame.value.answer) else Desync;
      }
      blocked := None;
      synced := synced[id := outcome];
      if Inv(old(Now()), answers) {
        SyncReceiveKeepsInv(old(Now()), answers);
      }
    }

    /** `_fail_pending`, one future after the other. */
    method FailPending()
      requires pending <= futures.Keys
      modifies this`pending, this`futures
      ensures pending == {} && futures == FailAll(old(Now()))
    {
      var todo := pending;
      pending := {};
      while todo != {}
        invariant pending == {} && todo <= old(pending) && futures.Keys == old(futures).Keys
        invariant forall id | id in futures ::
                    futures[id] == if id in old(pending) - todo && old(futures)[id] == Unresolved then ChannelClosed else old(futures)[id]
        decreases |todo|
      {
        var id :| id in todo;
        if futures[id] == Unresolved {
          futures := futures[id := ChannelClosed];
        }
        todo := todo - {id};
      }
    }

    /** The body of the loop of `_read_returns` after a receive. */
    method HandleReceived(ghost answers: Answers)
      requires Enabled(Now(), Handle) && pending <= futures.Keys
      modifies this
      ensures Now() == Apply(old(Now()), Handle, answers)
    {
      var frame := reader.frame;
      if frame.None? {
        FailPending();
        reader := NoReader;
        return;
      }
      var id := frame.value.id;
      if id in pending {
        pending := pending - {id};
        if futures[id] != Unresolved {
          reader := NoReader;
          return;
        }
        futures := futures[id := Resolved(frame.value.answer)];
      }
      reader := if pending == {} then NoReader else Receiving;
    }
  }
}
