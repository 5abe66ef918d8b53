/** The durable await wrapper (kanban.py): it serves a card's recorded outcome
    once, then goes live, and re-stamps every resolution into a version space of
    its own, because the recorded and the live versions are incomparable. */
module DurableAwait {
  import opened Json
  import opened Kanban
  import Notify

  /** What the inner backend answers when asked for an event past a version. */
  datatype Reply = Answer(r: Resolution) | TimesOut

  datatype Call = Call(acceptBlocked: bool, afterVersion: int, reply: Reply)

  datatype Outcome =
    | Durable(r: Resolution)                      // served from the record
    | Live(r: Resolution, innerVersion: int)      // delivered by the inner backend
    | Stale                                       // the inner ignored its version
    | TimedOut

  /** What the wrapper remembers about one card. */
  datatype Memory = Memory(served: bool, innerAfter: int, next: nat)

  const FRESH: Memory := Memory(false, 0, 0)

  function Max(a: int, b: int): int {
    if a < b then b else a
  }

  function Stamp(r: Resolution, version: nat): Resolution {
    r.(version := version)
  }

  predicate Serves(m: Memory, durable: Option<Resolution>, call: Call) {
    call.afterVersion == 0 && !m.served && durable.Some? && Accepted(durable.value.status, call.acceptBlocked)
  }

  /** `await_resolution` on one card. */
  function Await(m: Memory, durable: Option<Resolution>, call: Call): (r: (Outcome, Memory))
    ensures r.1.next >= m.next && r.1.innerAfter >= m.innerAfter
  {
    if Serves(m, durable, call) then
      (Durable(Stamp(durable.value, m.next + 1)), m.(served := true, next := m.next + 1))
    else match call.reply
      case TimesOut => (TimedOut, m)
      case Answer(r) =>
        if m.innerAfter != 0 && r.version <= m.innerAfter then (Stale, m)
        else (Live(Stamp(r, m.next + 1), r.version), m.(innerAfter := Max(m.innerAfter, r.version), next := m.next + 1))
  }

  /** Awaits on one card, one after the other; the durable record may be
      different, or absent, each time. */
  function Outcomes(m: Memory, calls: seq<(Option<Resolution>, Call)>): (outs: seq<Outcome>)
    ensures |outs| == |calls|
    decreases calls
  {
    if calls == [] then []
    else
      var (out, m') := Await(m, calls[0].0, calls[0].1);
      [out] + Outcomes(m', calls[1..])
  }

  /** What an await may end on, as its caller knows it: completed, failed, or
      blocked when that was asked for. */
  predicate Ends(status: Status, acceptBlocked: bool) {
    status == Completed || status == Failed || (status == Blocked && acceptBlocked)
  }

  /** A status that says how a card came out. */
  predicate CameOut(status: Status) {
    status == Completed || status == Failed || status == Blocked
  }

  predicate Delivered(o: Outcome) {
    o.Durable? || o.Live?
  }

  // ------------------------------------------------------------------------
  // Laws over any sequence of awaits.
  // ------------------------------------------------------------------------

  /** Returned versions strictly increase, whatever versions were recorded or
      delivered underneath. */
  lemma {:induction false} VersionsStrictlyIncrease(m: Memory, calls: seq<(Option<Resolution>, Call)>, i: nat, j: nat)
    requires i < j < |calls|
    requires Delivered(Outcomes(m, calls)[i]) && Delivered(Outcomes(m, calls)[j])
    ensures m.next < Outcomes(m, calls)[i].r.version < Outcomes(m, calls)[j].r.version
    decreases calls
  {
    var (out, m') := Await(m, calls[0].0, calls[0].1);
    if i > 0 {
      VersionsStrictlyIncrease(m', calls[1..], i - 1, j - 1);
    } else {
      VersionsArePast(m', calls[1..], j - 1);
    }
  }

  lemma {:induction false} VersionsArePast(m: Memory, calls: seq<(Option<Resolution>, Call)>, i: nat)
    requires i < |calls| && Delivered(Outcomes(m, calls)[i])
    ensures Outcomes(m, calls)[i].r.version > m.next
    decreases calls
  {
    if i > 0 {
      VersionsArePast(Await(m, calls[0].0, calls[0].1).1, calls[1..], i - 1);
    }
  }

  /** The record is served at most once, and only to a first await. */
  lemma {:induction false} ServedAtMostOnce(m: Memory, calls: seq<(Option<Resolution>, Call)>, i: nat)
    requires i < |calls| && Outcomes(m, calls)[i].Durable?
    ensures !m.served && calls[i].1.afterVersion == 0
    ensures calls[i].0.Some? && Ends(calls[i].0.value.status, calls[i].1.acceptBlocked)
    ensures forall j | 0 <= j < |calls| && j != i :: !Outcomes(m, calls)[j].Durable?
    decreases calls
  {
    var (out, m') := Await(m, calls[0].0, calls[0].1);
    if i > 0 {
      ServedAtMostOnce(m', calls[1..], i - 1);
    } else {
      forall j | 0 < j < |calls| ensures !Outcomes(m, calls)[j].Durable? {
        if Outcomes(m', calls[1..])[j - 1].Durable? {
          ServedAtMostOnce(m', calls[1..], j - 1);
        }
      }
    }
  }

  /** Live deliveries of positive versions come in strictly increasing order, so
      no inner event with a positive version is returned twice. */
  lemma {:induction false} InnerEventsNotRepeated(m: Memory, calls: seq<(Option<Resolution>, Call)>, i: nat, j: nat)
    requires m.innerAfter >= 0 && i < j < |calls|
    requires Outcomes(m, calls)[i].Live? && Outcomes(m, calls)[j].Live?
    requires Outcomes(m, calls)[i].innerVersion > 0
    ensures Outcomes(m, calls)[i].innerVersion < Outcomes(m, calls)[j].innerVersion
    decreases calls
  {
    var (out, m') := Await(m, calls[0].0, calls[0].1);
    if i > 0 {
      InnerEventsNotRepeated(m', calls[1..], i - 1, j - 1);
    } else {
      LivePastConsumed(m', calls[1..], j - 1);
    }
  }

  lemma {:induction false} LivePastConsumed(m: Memory, calls: seq<(Option<Resolution>, Call)>, i: nat)
    requires m.innerAfter > 0 && i < |calls| && Outcomes(m, calls)[i].Live?
    ensures Outcomes(m, calls)[i].innerVersion > m.innerAfter
    decreases calls
  {
    if i > 0 {
      LivePastConsumed(Await(m, calls[0].0, calls[0].1).1, calls[1..], i - 1);
    }
  }

  /** An inner event just delivered and delivered again: unless the record answers
      instead, it is refused exactly once a positive version was consumed, and
      otherwise returned a second time. */
  lemma RedeliveryIsRefusedExactlyWhen(m: Memory, durable: Option<Resolution>, call: Call, later: Option<Resolution>, again: Call)
    requires m.innerAfter >= 0
    requires Await(m, durable, call).0.Live? && again.reply == call.reply
    ensures var m' := Await(m, durable, call).1;
            var out := Await(m', later, again).0;
            && (out == Stale <==> !Serves(m', later, again) && (m.innerAfter > 0 || call.reply.r.version > 0))
            && (out != Stale && !Serves(m', later, again) ==> out == Live(Stamp(call.reply.r, m.next + 2), call.reply.r.version))
  {
  }

  // ------------------------------------------------------------------------
  // An inner backend over the same log.
  // ------------------------------------------------------------------------

  /** `latest_kanban_resolution`: the position of the last outcome in the log, or 0. */
  function LatestOutcome(log: seq<Status>): (p: nat)
    ensures p <= |log| && (p > 0 ==> IsOutcome(log[p - 1]))
    ensures forall i | p <= i < |log| :: !IsOutcome(log[i])
  {
    if log == [] then 0
    else if IsOutcome(log[|log| - 1]) then |log|
    else LatestOutcome(log[..|log| - 1])
  }

  datatype Logged = Logged(status: Status, result: Value, reason: Option<string>, profile: string)

  function StatusesIn(log: seq<Logged>): (s: seq<Status>)
    ensures |s| == |log| && forall i | 0 <= i < |log| :: s[i] == log[i].status
  {
    seq(|log|, i requires 0 <= i < |log| => log[i].status)
  }

  /** An event read back as a resolution, its position as version. */
  function ResolutionAt(log: seq<Logged>, p: nat): Resolution
    requires 0 < p <= |log|
  {
    var e := log[p - 1];
    Resolution(e.status, AsDict(e.result), e.reason, e.profile, p)
  }

  function LoggedOutcome(log: seq<Logged>): Option<Resolution> {
    var p := LatestOutcome(StatusesIn(log));
    if p > 0 then Some(ResolutionAt(log, p)) else None
  }

  /** `_durable_resolution`: the log's last outcome, else the latest state's. */
  function DurableOf(log: seq<Logged>, state: Option<CardState>): Option<Resolution> {
    if LoggedOutcome(log).Some? then LoggedOutcome(log) else ToResolution(state)
  }

  /** What an event-log backend answers when asked for an event past a version. */
  function EventLogReply(log: seq<Logged>, afterVersion: nat, acceptBlocked: bool): Reply {
    var v := Notify.Latest(StatusesIn(log), afterVersion, acceptBlocked);
    if v > 0 then Answer(ResolutionAt(log, v)) else TimesOut
  }

  lemma LatestIsTheOutcomeUnless(log: seq<Status>, more: seq<Status>, acceptBlocked: bool)
    requires var p := LatestOutcome(log); p > 0 && Accepted(log[p - 1], acceptBlocked)
    ensures Notify.Latest(log + more, 0, acceptBlocked) > 0
    ensures Notify.Latest(log + more, 0, acceptBlocked) == LatestOutcome(log)
            <==> forall i | 0 <= i < |more| :: !Accepted(more[i], acceptBlocked)
  {
    var p := LatestOutcome(log);
    var all := log + more;
    var v := Notify.Latest(all, 0, acceptBlocked);
    assert Notify.Good(all, p, acceptBlocked);
    assert forall i | 0 <= i < |more| :: all[|log| + i] == more[i];
    if v > p {
      assert v > |log|;
      assert more[v - 1 - |log|] == all[v - 1];
    } else {
      assert v == p;
      forall i | 0 <= i < |more| ensures !Accepted(more[i], acceptBlocked) {
        assert !Notify.Good(all, |log| + i + 1, acceptBlocked);
      }
    }
  }

  lemma StatusesAppend(log: seq<Logged>, more: seq<Logged>)
    ensures StatusesIn(log + more) == StatusesIn(log) + StatusesIn(more)
    ensures forall p | 0 < p <= |log| :: ResolutionAt(log + more, p) == ResolutionAt(log, p)
  {
  }

  lemma SameAnswer(log: seq<Logged>, p: nat, v: nat)
    requires 0 < p <= |log| && 0 < v <= |log|
    ensures ResolutionAt(log, v) == ResolutionAt(log, p) <==> v == p
  {
  }

  /** Asked from 0, an event-log backend answers with the last outcome exactly when
      nothing acceptable was appended after it. */
  lemma LogAnswersItsOutcomeUnless(log: seq<Logged>, more: seq<Logged>, acceptBlocked: bool)
    requires LoggedOutcome(log).Some? && Accepted(LoggedOutcome(log).value.status, acceptBlocked)
    ensures var reply := EventLogReply(log + more, 0, acceptBlocked);
            && reply.Answer?
            && (reply.r == LoggedOutcome(log).value <==> forall i | 0 <= i < |more| :: !Ends(more[i].status, acceptBlocked))
  {
    var p := LatestOutcome(StatusesIn(log));
    StatusesAppend(log, more);
    LatestIsTheOutcomeUnless(StatusesIn(log), StatusesIn(more), acceptBlocked);
    SameAnswer(log + more, p, Notify.Latest(StatusesIn(log) + StatusesIn(more), 0, acceptBlocked));
  }

  /** With an event-log backend inside, which is asked from version 0 after the
      record was served, the next await returns the very event that was served,
      under a new version, exactly when nothing acceptable was appended since. */
  lemma ServedEventComesBackUnless(m: Memory, log: seq<Logged>, more: seq<Logged>, later: Option<Resolution>, first: Call, again: Call)
    requires m.innerAfter == 0 && Serves(m, LoggedOutcome(log), first)
    requires again.acceptBlocked == first.acceptBlocked && again.reply == EventLogReply(log + more, 0, again.acceptBlocked)
    ensures var event := LoggedOutcome(log).value;
            var (served, m') := Await(m, LoggedOutcome(log), first);
            var out := Await(m', later, again).0;
            && served == Durable(Stamp(event, m.next + 1)) && out.Live?
            && (out == Live(Stamp(event, m.next + 2), event.version)
                <==> forall i | 0 <= i < |more| :: !Ends(more[i].status, first.acceptBlocked))
  {
    LogAnswersItsOutcomeUnless(log, more, first.acceptBlocked);
  }

  lemma LatestOutcomeIs(log: seq<Status>, p: nat)
    requires 0 < p <= |log|
    ensures LatestOutcome(log) == p <==> IsOutcome(log[p - 1]) && forall i | p <= i < |log| :: !IsOutcome(log[i])
  {
    assert IsOutcome(log[p - 1]) ==> LatestOutcome(log) >= p;
  }

  /** The record answers with the event at a position exactly when that is the
      log's last outcome. */
  lemma RecordIsTheEventExactlyWhen(log: seq<Logged>, state: Option<CardState>, p: nat)
    requires 0 < p <= |log|
    ensures DurableOf(log, state) == Some(ResolutionAt(log, p))
       <==> CameOut(log[p - 1].status) && forall i | p <= i < |log| :: !CameOut(log[i].status)
  {
    LatestOutcomeIs(StatusesIn(log), p);
    if LoggedOutcome(log).None? {
      assert !IsOutcome(StatusesIn(log)[p - 1]);
    }
  }

  /** An event delivered live from the log is served once more, from the record, by
      the next await exactly when that asks from 0, was not served before, accepts
      the event, and the event is still the log's last outcome. */
  lemma DeliveredEventIsServedExactlyWhen(m: Memory, durable: Option<Resolution>, first: Call, log: seq<Logged>, p: nat,
                                          more: seq<Logged>, state: Option<CardState>, again: Call)
    requires 0 < p <= |log| && first.reply == Answer(ResolutionAt(log, p)) && Await(m, durable, first).0.Live?
    ensures var event, record := ResolutionAt(log, p), DurableOf(log + more, state);
            var (delivered, m') := Await(m, durable, first);
            && delivered == Live(Stamp(event, m.next + 1), p)
            && (Serves(m', record, again) && record == Some(event)
                <==> && again.afterVersion == 0 && !m.served
                     && CameOut(event.status) && Ends(event.status, again.acceptBlocked)
                     && forall i | p <= i < |log + more| :: !CameOut((log + more)[i].status))
            && (Serves(m', record, again) && record == Some(event) ==>
                  Await(m', record, again).0 == Durable(Stamp(event, m.next + 2)))
  {
    assert ResolutionAt(log + more, p) == ResolutionAt(log, p);
    RecordIsTheEventExactlyWhen(log + more, state, p);
  }

  /** With any inner backend, when the log holds no outcome: an event delivered
      live was written to the card's state, and the next await is served it from
      there exactly when that asks from 0, was not served before, accepts the event,
      and the event came through the state unharmed: an outcome with a dict for
      result, not kept out by a terminal state. */
  lemma MirroredEventIsServedExactlyWhen(m: Memory, durable: Option<Resolution>, first: Call, state: Option<CardState>,
                                         log: seq<Logged>, again: Call)
    requires Await(m, durable, first).0.Live? && LoggedOutcome(log).None?
    ensures var event := first.reply.r;
            var record := DurableOf(log, Some(Recorded(state, ToState(event))));
            var (delivered, m') := Await(m, durable, first);
            && delivered == Live(Stamp(event, m.next + 1), event.version)
            && (Serves(m', record, again) && record == Some(event)
                <==> && again.afterVersion == 0 && !m.served
                     && CameOut(event.status) && Ends(event.status, again.acceptBlocked) && event.result.Dict?
                     && (state.Some? && (state.value.status == Completed || state.value.status == Failed) ==> event.status != Blocked))
            && (Serves(m', record, again) && record == Some(event) ==>
                  Await(m', record, again).0 == Durable(Stamp(event, m.next + 2)))
  {
    var event := first.reply.r;
    assert ToResolution(Some(ToState(event))) == Some(event) <==> IsOutcome(event.status) && event.result.Dict?;
  }

  // ------------------------------------------------------------------------
  // What an await may end on.
  // ------------------------------------------------------------------------

  /** The record ends an await exactly when that is the first from 0 and the record
      says completed or failed, or blocked and the caller asked for that. */
  lemma RecordEndsTheAwaitExactlyWhen(m: Memory, durable: Option<Resolution>, call: Call)
    ensures Await(m, durable, call).0.Durable? <==>
              && call.afterVersion == 0 && !m.served && durable.Some?
              && (durable.value.status == Completed || durable.value.status == Failed
                  || (durable.value.status == Blocked && call.acceptBlocked))
  {
  }

  /** An event-log backend answers exactly when past the version there is such an
      event, and then with the newest. */
  lemma LogAnswersExactlyWhen(log: seq<Logged>, afterVersion: nat, acceptBlocked: bool)
    ensures var reply := EventLogReply(log, afterVersion, acceptBlocked);
            && (reply.Answer? <==> exists i: nat :: afterVersion <= i < |log| && Ends(log[i].status, acceptBlocked))
            && (reply.Answer? ==>
                  exists v: nat :: afterVersion < v <= |log| && reply.r == ResolutionAt(log, v) && Ends(log[v - 1].status, acceptBlocked)
                                && forall i: nat | v <= i < |log| :: !Ends(log[i].status, acceptBlocked))
  {
    var statuses := StatusesIn(log);
    var v := Notify.Latest(statuses, afterVersion, acceptBlocked);
    Notify.GoodMayEnd(statuses, acceptBlocked);
    forall i: nat | afterVersion <= i < |log| && Ends(log[i].status, acceptBlocked) ensures 0 < i + 1 <= v {
      assert Notify.MayEnd(statuses, i + 1, acceptBlocked);
    }
    if v > 0 {
      assert Notify.MayEnd(statuses, v, acceptBlocked);
      assert Ends(log[v - 1].status, acceptBlocked) && afterVersion <= v - 1;
    }
  }

  /** Over any awaits, whatever is served from the record, or delivered by an
      event-log backend, is completed, failed, or blocked; and blocked only to an
      await that asked for that. */
  lemma {:induction false} AwaitsReturnAsAsked(m: Memory, calls: seq<(Option<Resolution>, Call)>, i: nat, log: seq<Logged>, from: nat)
    requires i < |calls| && Delivered(Outcomes(m, calls)[i])
    requires Outcomes(m, calls)[i].Live? ==> calls[i].1.reply == EventLogReply(log, from, calls[i].1.acceptBlocked)
    ensures var status := Outcomes(m, calls)[i].r.status;
            (status == Completed || status == Failed || status == Blocked) && (status == Blocked ==> calls[i].1.acceptBlocked)
    decreases calls
  {
    if i > 0 {
      AwaitsReturnAsAsked(Await(m, calls[0].0, calls[0].1).1, calls[1..], i - 1, log, from);
    } else {
      RecordEndsTheAwaitExactlyWhen(m, calls[0].0, calls[0].1);
      LogAnswersExactlyWhen(log, from, calls[0].1.acceptBlocked);
    }
  }

  // ------------------------------------------------------------------------
  // The wrapper as an object.
  // ------------------------------------------------------------------------

  class WaitStore {
    var states: map<string, CardState>
    var logs: map<string, seq<Logged>>

    constructor ()
      ensures states == map[] && logs == map[]
    {
      states, logs := map[], map[];
    }

    function StateOf(card: string): Option<CardState>
      reads this
    {
      if card in states then Some(states[card]) else None
    }

    function LogOf(card: string): seq<Logged>
      reads this
    {
      if card in logs then logs[card] else []
    }

    function DurableResolution(card: string): Option<Resolution>
      reads this
    {
      DurableOf(LogOf(card), StateOf(card))
    }

    method RecordCardState(card: string, state: CardState)
      modifies this`states
      ensures states == old(states)[card := Recorded(old(StateOf(card)), state)]
    {
      states := states[card := Recorded(StateOf(card), state)];
    }
  }

  class DurableKanbanBackend {
    const store: WaitStore
    var served: set<string>
    var innerAfter: map<string, int>
    var next: map<string, nat>

    constructor (store: WaitStore)
      ensures this.store == store && forall card :: MemoryOf(card) == FRESH
    {
      this.store := store;
      served, innerAfter, next := {}, map[], map[];
    }

    ghost function MemoryOf(card: string): Memory
      reads this
    {
      Memory(card in served, if card in innerAfter then innerAfter[card] else 0, if card in next then next[card] else 0)
    }

    /** `_stamp`. */
    method StampNext(card: string, r: Resolution) returns (stamped: Resolution)
      modifies this`next
      ensures next == old(next)[card := old(MemoryOf(card)).next + 1] && stamped == Stamp(r, next[card])
    {
      var n := if card in next then next[card] else 0;
      next := next[card := n + 1];
      stamped := r.(version := n + 1);
    }

    /** The best-effort write of an outcome; `writeOk` is whether it reaches the disk. */
    method Mirror(card: string, r: Resolution, writeOk: bool)
      modifies store`states
      ensures store.states == if writeOk then old(store.states)[card := Recorded(old(store.StateOf(card)), ToState(r))] else old(store.states)
    {
      if writeOk {
        store.RecordCardState(card, ToState(r));
      }
    }

    /** The record, served and mirrored. */
    method ServeRecord(card: string, recorded: Resolution, writeOk: bool) returns (out: Outcome)
      requires card !in served
      modifies this`served, this`next, store`states
      ensures served == old(served) + {card} && out == Durable(Stamp(recorded, old(MemoryOf(card)).next + 1))
      ensures next == old(next)[card := old(MemoryOf(card)).next + 1]
      ensures store.states == if writeOk then old(store.states)[card := Recorded(old(store.StateOf(card)), ToState(recorded))] else old(store.states)
    {
      served := served + {card};
      Mirror(card, recorded, writeOk);
      var r := StampNext(card, recorded);
      out := Durable(r);
    }

    /** What the inner backend delivered, unless it ignored its version. */
    method GoLive(card: string, reply: Reply, writeOk: bool) returns (out: Outcome)
      modifies this`innerAfter, this`next, store`states
      ensures var m := old(MemoryOf(card));
              if reply.TimesOut? then out == TimedOut && innerAfter == old(innerAfter) && next == old(next)
              else if m.innerAfter != 0 && reply.r.version <= m.innerAfter then out == Stale && innerAfter == old(innerAfter) && next == old(next)
              else
                && out == Live(Stamp(reply.r, m.next + 1), reply.r.version)
                && innerAfter == old(innerAfter)[card := Max(m.innerAfter, reply.r.version)] && next == old(next)[card := m.next + 1]
      ensures store.states ==
                if writeOk && out.Live? then old(store.states)[card := Recorded(old(store.StateOf(card)), ToState(reply.r))] else old(store.states)
    {
      if reply.TimesOut? {
        return TimedOut;
      }
      var consumed := if card in innerAfter then innerAfter[card] else 0;
      var r := reply.r;
      if consumed != 0 && r.version <= consumed {
        return Stale;
      }
      innerAfter := innerAfter[card := Max(consumed, r.version)];
      Mirror(card, r, writeOk);
      var stamped := StampNext(card, r);
      out := Live(stamped, r.version);
    }

    /** `await_resolution`. */
    method AwaitResolution(card: string, call: Call, writeOk: bool) returns (out: Outcome)
      modifies this, store`states
      ensures (out, MemoryOf(card)) == Await(old(MemoryOf(card)), old(store.DurableResolution(card)), call)
      ensures var recorded := old(store.DurableResolution(card));
              out.Durable? <==> call.afterVersion == 0 && card !in old(served) && recorded.Some? && Ends(recorded.value.status, call.acceptBlocked)
      ensures forall other | other != card :: MemoryOf(other) == old(MemoryOf(other))
      ensures store.states ==
                if writeOk && out.Durable? then old(store.states)[card := Recorded(old(store.StateOf(card)), ToState(old(store.DurableResolution(card)).value))]
                else if writeOk && out.Live? then old(store.states)[card := Recorded(old(store.StateOf(card)), ToState(call.reply.r))]
                else old(store.states)
    {
      if call.afterVersion == 0 && card !in served {
        var recorded := store.DurableResolution(card);
        if recorded.Some? && Accepted(recorded.value.status, call.acceptBlocked) {
          out := ServeRecord(card, recorded.value, writeOk);
          return;
        }
      }
      out := GoLive(card, call.reply, writeOk);
    }
  }
}
