/** Kanban cards (kanban.py, script_store.py): outcomes, what an await accepts,
    and the latest-state record with its terminal precedence. */
module Kanban {
  import opened Json

  datatype Status = Waiting | Completed | Blocked | Failed | Alias | OtherStatus(name: string)

  predicate IsOutcome(s: Status) {
    s == Completed || s == Blocked || s == Failed
  }

  predicate IsTerminal(s: Status) {
    s == Completed || s == Failed
  }

  /** `is_accepted_resolution`. */
  predicate Accepted(s: Status, acceptBlocked: bool) {
    IsTerminal(s) || (s == Blocked && acceptBlocked)
  }

  datatype Resolution = Resolution(status: Status, result: Value, reason: Option<string>, profile: string, version: int)

  /** A card's latest-state record, as read from JSON. `realTask` names the board task opened for the
      card; a record kept under a board task's id names its `logicalCard`. */
  datatype CardState = CardState(
    status: Status,
    result: Value,
    reason: Option<string>,
    profile: string,
    version: Value,
    runId: Option<string>,
    realTask: Option<string>,
    logicalCard: Option<string>)

  /** `_resolution_to_state`: no run id and no real task. */
  function ToState(r: Resolution): CardState {
    CardState(r.status, r.result, r.reason, r.profile, Int(r.version), None, None, None)
  }

  function AsDict(v: Value): Value {
    if v.Dict? then v else Dict(map[])
  }

  function AsVersion(v: Value): int {
    if v.Int? then v.n else 0
  }

  /** `_state_to_resolution`: a result that is no dict reads as an empty one, a
      version that is no int (a bool is none) as 0. */
  function ToResolution(s: Option<CardState>): (r: Option<Resolution>)
    ensures r.Some? <==> s.Some? && IsOutcome(s.value.status)
    ensures r.Some? ==> r.value.status == s.value.status
  {
    if s.Some? && IsOutcome(s.value.status) then
      Some(Resolution(s.value.status, AsDict(s.value.result), s.value.reason, s.value.profile, AsVersion(s.value.version)))
    else None
  }

  /** `record_kanban_card_state`: a record without a run id keeps the stored one,
      and a terminal record is never replaced by one that is not. */
  function Recorded(existing: Option<CardState>, state: CardState): (after: CardState)
    ensures existing.Some? && IsTerminal(existing.value.status) ==> IsTerminal(after.status)
    ensures existing.Some? && IsTerminal(existing.value.status) && !IsTerminal(state.status) ==> after == existing.value
    ensures after.status == state.status || (existing.Some? && after == existing.value)
  {
    var record :=
      if state.runId.None? && existing.Some? && existing.value.runId.Some? && existing.value.runId != Some("") then
        state.(runId := existing.value.runId)
      else state;
    if existing.Some? && IsTerminal(existing.value.status) && !IsTerminal(record.status) then existing.value
    else record
  }

  /** A resolution comes back from its record unchanged exactly when it is an
      outcome whose result is a dict; and what comes back once stays as it is. */
  lemma {:induction false} RoundTrip(r: Resolution, s: Option<CardState>)
    ensures ToResolution(Some(ToState(r))) == Some(r)
       <==> (r.status == Completed || r.status == Blocked || r.status == Failed) && r.result.Dict?
    ensures ToResolution(s).Some? ==> ToResolution(Some(ToState(ToResolution(s).value))) == ToResolution(s)
  {
  }

  function RecordAll(existing: Option<CardState>, writes: seq<CardState>): Option<CardState> {
    if writes == [] then existing
    else Some(Recorded(RecordAll(existing, writes[..|writes| - 1]), writes[|writes| - 1]))
  }

  /** A stored terminal status never becomes non-terminal, whatever is written. */
  lemma {:induction false} TerminalIsFinal(existing: Option<CardState>, writes: seq<CardState>)
    requires existing.Some? && (existing.value.status == Completed || existing.value.status == Failed)
    ensures var after := RecordAll(existing, writes);
            after.Some? && (after.value.status == Completed || after.value.status == Failed)
  {
    if writes != [] {
      TerminalIsFinal(existing, writes[..|writes| - 1]);
    }
  }

  /** The two records say the same of their card, whatever runs they belong to. */
  predicate SameButRun(a: CardState, b: CardState) {
    a.(runId := b.runId) == b
  }

  predicate NotOver(s: Status) {
    s != Completed && s != Failed
  }

  /** The write that stands is the last completed or failed one. */
  lemma {:induction false} LastOutcomeStands(existing: Option<CardState>, writes: seq<CardState>, i: nat)
    requires i < |writes| && !NotOver(writes[i].status)
    requires forall j | i < j < |writes| :: NotOver(writes[j].status)
    ensures var after := RecordAll(existing, writes); after.Some? && SameButRun(after.value, writes[i])
    decreases |writes|
  {
    var front := writes[..|writes| - 1];
    if i < |front| {
      LastOutcomeStands(existing, front, i);
    }
  }

  /** And without any it is the last. */
  lemma {:induction false} OtherwiseTheLastStands(existing: Option<CardState>, writes: seq<CardState>)
    requires writes != [] && (existing.Some? ==> NotOver(existing.value.status))
    requires forall j | 0 <= j < |writes| :: NotOver(writes[j].status)
    ensures var after := RecordAll(existing, writes); after.Some? && SameButRun(after.value, writes[|writes| - 1])
    decreases |writes|
  {
    var front := writes[..|writes| - 1];
    if front != [] {
      OtherwiseTheLastStands(existing, front);
    }
  }

  /** A card's run id is never lost, and changes only to one that is written. */
  lemma {:induction false} RunIdStays(existing: Option<CardState>, writes: seq<CardState>, run: string)
    requires run != "" && existing.Some? && existing.value.runId == Some(run)
    requires forall j | 0 <= j < |writes| :: writes[j].runId == None || writes[j].runId == Some(run)
    ensures var after := RecordAll(existing, writes); after.Some? && after.value.runId == Some(run)
    decreases |writes|
  {
    if writes != [] {
      RunIdStays(existing, writes[..|writes| - 1], run);
    }
  }
}
