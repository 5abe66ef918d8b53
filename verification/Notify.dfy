/** Waking a blocked Kanban await (kanban_notify.py). Producers append an event
    to the durable log and then notify; consumers subscribe, read the log, and
    wait on a shared counter. Every interleaving of their steps is a run. */
module Notify {
  import opened Json
  import opened Kanban

  datatype Phase =
    | Reading                    // about to read the log
    | Deciding(upTo: nat)        // found nothing in the first `upTo` events
    | Asleep(upTo: nat)          // inside the condition's wait
    | Woken(upTo: nat)           // notified, the lock not yet taken again
    | Returned(version: nat)
    | TimedOut(upTo: nat)

  datatype Consumer = Consumer(afterVersion: nat, acceptBlocked: bool, seen: nat, phase: Phase)

  /** `notified` holds the events whose own `notify` has run. */
  datatype State = State(log: seq<Status>, counter: nat, notified: set<nat>, consumers: map<nat, Consumer>)

  const START: State := State([], 0, {}, map[])

  datatype Action =
    | Append(status: Status)
    | NotifyOf(version: nat)
    | Subscribe(c: nat, afterVersion: nat, acceptBlocked: bool)
    | Read(c: nat)
    | EnterWait(c: nat)
    | WakeUp(c: nat)          // a notified wait returns
    | WaitTimesOut(c: nat)
    | GiveUp(c: nat)          // the deadline passed after a read

  /** The event with this version is one an await may return on, as its caller
      knows it: completed, failed, or blocked when that was asked for. */
  predicate MayEnd(log: seq<Status>, version: nat, acceptBlocked: bool) {
    0 < version <= |log|
    && (log[version - 1] == Completed || log[version - 1] == Failed || (log[version - 1] == Blocked && acceptBlocked))
  }

  lemma GoodMayEnd(log: seq<Status>, acceptBlocked: bool)
    ensures forall v: nat :: Good(log, v, acceptBlocked) <==> MayEnd(log, v, acceptBlocked)
  {
  }

  /** The event with this version is in the log and would be accepted. */
  predicate Good(log: seq<Status>, version: nat, acceptBlocked: bool) {
    0 < version <= |log| && Accepted(log[version - 1], acceptBlocked)
  }

  /** `_latest_accepted`: the last accepted event past the version, or 0. */
  function Latest(log: seq<Status>, afterVersion: nat, acceptBlocked: bool): (v: nat)
    ensures v <= |log|
    ensures v > 0 ==> v > afterVersion && Good(log, v, acceptBlocked)
    ensures forall u: nat | v < u && u > afterVersion :: !Good(log, u, acceptBlocked)
  {
    if |log| <= afterVersion then 0
    else if Accepted(log[|log| - 1], acceptBlocked) then |log|
    else
      var front := log[..|log| - 1];
      assert forall u: nat | 0 < u <= |front| :: Good(log, u, acceptBlocked) <==> Good(front, u, acceptBlocked);
      Latest(front, afterVersion, acceptBlocked)
  }

  method LatestAccepted(log: seq<Status>, afterVersion: nat, acceptBlocked: bool) returns (latest: nat)
    ensures latest == Latest(log, afterVersion, acceptBlocked)
    ensures latest > 0 ==> afterVersion < latest && MayEnd(log, latest, acceptBlocked)
    ensures forall u: nat | latest < u && u > afterVersion :: !MayEnd(log, u, acceptBlocked)
  {
    latest := 0;
    var i := afterVersion;
    while i < |log|
      invariant afterVersion <= i && latest <= |log|
      invariant latest > 0 ==> afterVersion < latest <= i && Good(log, latest, acceptBlocked)
      invariant forall u: nat | latest < u <= i && u > afterVersion :: !Good(log, u, acceptBlocked)
    {
      if Accepted(log[i], acceptBlocked) {
        latest := i + 1;
      }
      i := i + 1;
    }
    assert Good(log, latest, acceptBlocked) || latest == 0;
    GoodMayEnd(log, acceptBlocked);
  }

  predicate Enabled(s: State, a: Action) {
    match a
    case Append(_) => true
    case NotifyOf(v) => 0 < v <= |s.log| && v !in s.notified
    case Subscribe(c, _, _) => c !in s.consumers
    case Read(c) => c in s.consumers && s.consumers[c].phase.Reading?
    case EnterWait(c) => c in s.consumers && s.consumers[c].phase.Deciding?
    case WakeUp(c) => c in s.consumers && s.consumers[c].phase.Woken?
    case WaitTimesOut(c) => c in s.consumers && s.consumers[c].phase.Asleep?
    case GiveUp(c) => c in s.consumers && s.consumers[c].phase.Deciding?
  }

  /** `notify_all` on one consumer. */
  function Rouse(k: Consumer): Consumer {
    if k.phase.Asleep? then k.(phase := Woken(k.phase.upTo)) else k
  }

  function Apply(s: State, a: Action): State
    requires Enabled(s, a)
  {
    match a
    case Append(status) => s.(log := s.log + [status])
    case NotifyOf(v) =>
      s.(counter := s.counter + 1, notified := s.notified + {v},
         consumers := map c | c in s.consumers :: Rouse(s.consumers[c]))
    case Subscribe(c, after, acceptBlocked) =>
      s.(consumers := s.consumers[c := Consumer(after, acceptBlocked, s.counter, Reading)])
    case Read(c) =>
      var k := s.consumers[c];
      var v := Latest(s.log, k.afterVersion, k.acceptBlocked);
      s.(consumers := s.consumers[c := k.(phase := if v > 0 then Returned(v) else Deciding(|s.log|))])
    case EnterWait(c) =>
      var k := s.consumers[c];
      s.(consumers := s.consumers[c := if s.counter != k.seen then k.(seen := s.counter, phase := Reading)
                                       else k.(phase := Asleep(k.phase.upTo))])
    case WakeUp(c) => s.(consumers := s.consumers[c := s.consumers[c].(seen := s.counter, phase := Reading)])
    case WaitTimesOut(c) => s.(consumers := s.consumers[c := s.consumers[c].(seen := s.counter, phase := Reading)])
    case GiveUp(c) => s.(consumers := s.consumers[c := s.consumers[c].(phase := TimedOut(s.consumers[c].phase.upTo))])
  }

  ghost predicate Runs(s: State, actions: seq<Action>)
    decreases actions
  {
    actions == [] || (Enabled(s, actions[0]) && Runs(Apply(s, actions[0]), actions[1..]))
  }

  function AfterAll(s: State, actions: seq<Action>): State
    requires Runs(s, actions)
    decreases actions
  {
    if actions == [] then s else AfterAll(Apply(s, actions[0]), actions[1..])
  }

  // ------------------------------------------------------------------------
  // The invariant.
  // ------------------------------------------------------------------------

  /** Nothing this consumer could return is among the first `upTo` events. */
  ghost predicate NothingUpTo(log: seq<Status>, k: Consumer, upTo: nat) {
    && upTo <= |log|
    && forall u | k.afterVersion < u <= upTo :: !Good(log, u, k.acceptBlocked)
  }

  ghost predicate ConsumerOk(s: State, k: Consumer) {
    && k.seen <= s.counter
    && match k.phase
       case Reading => true
       case Deciding(upTo) => NothingUpTo(s.log, k, upTo) && (s.counter == k.seen ==> forall v | v in s.notified :: v <= upTo)
       case Asleep(upTo) => NothingUpTo(s.log, k, upTo) && s.counter == k.seen && forall v | v in s.notified :: v <= upTo
       case Woken(upTo) => NothingUpTo(s.log, k, upTo)
       case Returned(v) => k.afterVersion < v && Good(s.log, v, k.acceptBlocked)
       case TimedOut(upTo) => NothingUpTo(s.log, k, upTo)
  }

  ghost predicate Inv(s: State) {
    && (forall v | v in s.notified :: 0 < v <= |s.log|)
    && (forall c | c in s.consumers :: ConsumerOk(s, s.consumers[c]))
  }

  lemma AppendKeepsOk(s: State, status: Status, k: Consumer)
    requires ConsumerOk(s, k)
    ensures ConsumerOk(s.(log := s.log + [status]), k)
  {
    assert forall u: nat, accept | u <= |s.log| :: Good(s.log + [status], u, accept) <==> Good(s.log, u, accept);
  }

  lemma NotifyKeepsOk(s: State, v: nat, k: Consumer)
    requires Enabled(s, NotifyOf(v)) && ConsumerOk(s, k)
    ensures ConsumerOk(Apply(s, NotifyOf(v)), Rouse(k))
  {
  }

  /** A step of one consumer. */
  lemma ConsumerKeepsOk(s: State, a: Action, c: nat)
    requires Inv(s) && Enabled(s, a) && !a.Append? && !a.NotifyOf? && a.c == c
    ensures var t := Apply(s, a);
            && t.log == s.log && t.notified == s.notified && t.counter == s.counter
            && c in t.consumers && t.consumers == s.consumers[c := t.consumers[c]] && ConsumerOk(t, t.consumers[c])
  {
    if !a.Subscribe? {
      assert ConsumerOk(s, s.consumers[c]);
    }
  }

  lemma OthersStayOk(s: State, t: State, k: Consumer)
    requires t.log == s.log && t.notified == s.notified && t.counter == s.counter && ConsumerOk(s, k)
    ensures ConsumerOk(t, k)
  {
  }

  lemma StepKeepsInv(s: State, a: Action)
    requires Inv(s) && Enabled(s, a)
    ensures Inv(Apply(s, a))
  {
    var t := Apply(s, a);
    match a
    case Append(status) =>
      forall c | c in t.consumers ensures ConsumerOk(t, t.consumers[c]) {
        AppendKeepsOk(s, status, s.consumers[c]);
      }
    case NotifyOf(v) =>
      forall c | c in t.consumers ensures ConsumerOk(t, t.consumers[c]) {
        NotifyKeepsOk(s, v, s.consumers[c]);
      }
    case _ =>
      ConsumerKeepsOk(s, a, a.c);
      forall c | c in t.consumers ensures ConsumerOk(t, t.consumers[c]) {
        if c != a.c {
          OthersStayOk(s, t, s.consumers[c]);
        }
      }
  }

  lemma {:induction false} RunsKeepInv(s: State, actions: seq<Action>)
    requires Inv(s) && Runs(s, actions)
    ensures Inv(AfterAll(s, actions))
    decreases actions
  {
    if actions != [] {
      StepKeepsInv(s, actions[0]);
      RunsKeepInv(Apply(s, actions[0]), actions[1..]);
    }
  }

  // ------------------------------------------------------------------------
  // No lost wakeup.
  // ------------------------------------------------------------------------

  /** Events in the log this consumer is waiting for. */
  ghost predicate Awaited(s: State, c: nat, v: nat)
    requires c in s.consumers
  {
    s.consumers[c].afterVersion < v && MayEnd(s.log, v, s.consumers[c].acceptBlocked)
  }

  /** If a consumer sleeps while an event it would accept is in the log, that
      event's notify has not run yet, and will wake it. */
  lemma NoLostWakeup(actions: seq<Action>, c: nat, v: nat)
    requires Runs(START, actions)
    requires var s := AfterAll(START, actions);
             c in s.consumers && s.consumers[c].phase.Asleep? && Awaited(s, c, v)
    ensures var s := AfterAll(START, actions);
            && Enabled(s, NotifyOf(v))
            && Apply(s, NotifyOf(v)).consumers[c].phase.Woken?
  {
    RunsKeepInv(START, actions);
    var s := AfterAll(START, actions);
    assert ConsumerOk(s, s.consumers[c]);
    GoodMayEnd(s.log, s.consumers[c].acceptBlocked);
  }

  /** An await returns only an accepted event newer than the version it was
      given, and gives up only when what it last read held none. */
  lemma AwaitsAreHonest(actions: seq<Action>, c: nat)
    requires Runs(START, actions) && c in AfterAll(START, actions).consumers
    ensures var s := AfterAll(START, actions);
            && (s.consumers[c].phase.Returned? ==> Awaited(s, c, s.consumers[c].phase.version))
            && (s.consumers[c].phase.TimedOut? ==> NothingUpTo(s.log, s.consumers[c], s.consumers[c].phase.upTo))
  {
    RunsKeepInv(START, actions);
    var s := AfterAll(START, actions);
    assert ConsumerOk(s, s.consumers[c]);
  }

  /** A consumer that reads while an awaited event is in the log returns, with
      the newest of them. */
  lemma ReadsReturnTheNewest(s: State, c: nat, v: nat)
    requires c in s.consumers && Enabled(s, Read(c)) && Awaited(s, c, v)
    ensures var p := Apply(s, Read(c)).consumers[c].phase;
            p.Returned? && Awaited(s, c, p.version) && v <= p.version
            && forall u | p.version < u <= |s.log| :: !Awaited(s, c, u)
  {
    var k := s.consumers[c];
    var latest := Latest(s.log, k.afterVersion, k.acceptBlocked);
    GoodMayEnd(s.log, k.acceptBlocked);
    assert v <= latest;
  }

  /** In any run, what an await returned on is newer than asked for, and blocked
      only if it was asked to return on blocked cards. */
  lemma AwaitsReturnAsAsked(actions: seq<Action>, c: nat)
    requires Runs(START, actions) && c in AfterAll(START, actions).consumers
    requires AfterAll(START, actions).consumers[c].phase.Returned?
    ensures var s := AfterAll(START, actions);
            var k := s.consumers[c];
            && k.afterVersion < k.phase.version <= |s.log|
            && var status := s.log[k.phase.version - 1];
               (status == Completed || status == Failed || status == Blocked) && (status == Blocked ==> k.acceptBlocked)
  {
    AwaitsAreHonest(actions, c);
  }

  /** A read ends the await exactly when past its version there is a completed or
      failed event, or a blocked one it was asked to return on. */
  lemma ReadsReturnExactlyWhen(s: State, c: nat)
    requires Enabled(s, Read(c))
    ensures var k := s.consumers[c];
            Apply(s, Read(c)).consumers[c].phase.Returned? <==>
              exists i: nat :: k.afterVersion <= i < |s.log|
                          && (s.log[i] == Completed || s.log[i] == Failed || (s.log[i] == Blocked && k.acceptBlocked))
  {
    var k := s.consumers[c];
    var v := Latest(s.log, k.afterVersion, k.acceptBlocked);
    if v > 0 {
      assert k.afterVersion <= v - 1 < |s.log|;
    }
    if i: nat :| k.afterVersion <= i < |s.log|
                 && (s.log[i] == Completed || s.log[i] == Failed || (s.log[i] == Blocked && k.acceptBlocked)) {
      assert Good(s.log, i + 1, k.acceptBlocked);
    }
  }

  // ------------------------------------------------------------------------
  // The subscription object.
  // ------------------------------------------------------------------------

  class Entry {
    var counter: nat

    constructor ()
      ensures counter == 0
    {
      counter := 0;
    }

    method Notify()
      modifies this
      ensures counter == old(counter) + 1
    {
      counter := counter + 1;
    }
  }

  /** `_ThreadSubscription`; its wait is split where the lock is given up. */
  class Subscription {
    const entry: Entry
    var seen: nat

    constructor (entry: Entry)
      ensures this.entry == entry && seen == entry.counter
    {
      this.entry := entry;
      seen := entry.counter;
    }

    /** Returns at once if a notify raced in; otherwise the caller sleeps. */
    method BeginWait(ghost s: State, ghost c: nat) returns (raced: bool)
      requires Enabled(s, EnterWait(c)) && s.counter == entry.counter && s.consumers[c].seen == seen
      modifies this
      ensures raced <==> Apply(s, EnterWait(c)).consumers[c].phase.Reading?
      ensures seen == Apply(s, EnterWait(c)).consumers[c].seen
    {
      raced := entry.counter != seen;
      if raced {
        seen := entry.counter;
      }
    }

    /** After being notified, or timing out, with the lock held again. */
    method EndWait(ghost s: State, ghost c: nat)
      requires (Enabled(s, WakeUp(c)) || Enabled(s, WaitTimesOut(c))) && s.counter == entry.counter
      modifies this
      ensures seen == Apply(s, if Enabled(s, WakeUp(c)) then WakeUp(c) else WaitTimesOut(c)).consumers[c].seen
    {
      seen := entry.counter;
    }
  }
}
