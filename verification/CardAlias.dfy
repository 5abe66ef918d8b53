/** Opening a real board task for a logical card (hermes_kanban.py), and finding
    the card again when the board reports on the task: what survives when the
    parent crashes, or a write fails, between any two of its store writes. */
module CardAlias {
  import opened Json
  import opened Kanban

  /** Everything durable, and a history: how often the board was asked to create
      a task for a card, which tasks it opened for it, which of them reached the
      card's record, and which cards some call has returned normally for since. */
  datatype World = World(
    states: map<string, CardState>,
    logs: map<string, seq<Status>>,
    creates: map<string, nat>,
    tasks: map<string, set<string>>,
    recorded: map<string, set<string>>,
    returned: set<string>)

  const EMPTY: World := World(map[], map[], map[], map[], map[], {})

  predicate IsAlnum(c: char) {
    'A' <= c <= 'Z' || 'a' <= c <= 'z' || '0' <= c <= '9'
  }

  /** The pattern of real task ids: `t_`, an alphanumeric, then word characters, dots and dashes. */
  predicate IsReal(id: string) {
    3 <= |id| <= 128 && "t_" <= id && IsAlnum(id[2]) && AllSafe(id[3..])
  }

  predicate AllSafe(s: string) {
    s == "" || ((IsAlnum(s[0]) || s[0] in "_.-") && AllSafe(s[1..]))
  }

  /** How far one call gets. */
  datatype Fate =
    | DiesFirst            // before any effect
    | DiesAfterCreate      // the board was asked, nothing is recorded
    | StateWriteFails
    | DiesAfterState       // the card's record is written, the alias is not
    | AliasWriteFails
    | Completes

  function StateOf(w: World, id: string): Option<CardState> {
    if id in w.states then Some(w.states[id]) else None
  }

  function LogOf(w: World, id: string): seq<Status> {
    if id in w.logs then w.logs[id] else []
  }

  function Ids(m: map<string, set<string>>, card: string): set<string> {
    if card in m then m[card] else {}
  }

  /** `has_kanban_history`. */
  predicate HasHistory(w: World, card: string) {
    card in w.states || LogOf(w, card) != []
  }

  /** The real task a card's record names. */
  function RealTask(w: World, card: string): Option<string> {
    if card in w.states && w.states[card].realTask.Some? && IsReal(w.states[card].realTask.value) then w.states[card].realTask
    else None
  }

  function Put(w: World, id: string, state: CardState): World {
    w.(states := w.states[id := Recorded(StateOf(w, id), state)])
  }

  /** `_record_real_task_alias`. */
  function PutAlias(w: World, task: string, card: string, profile: string): World {
    Put(w, task, CardState(Alias, Null, None, profile, Int(0), None, Some(task), Some(card)))
  }

  function WaitingState(profile: string, runId: string, task: Option<string>): CardState {
    CardState(Waiting, Null, None, profile, Int(0), Some(runId), task, None)
  }

  function Creates(w: World, card: string): nat {
    if card in w.creates then w.creates[card] else 0
  }

  /** One call of the client's `create`, whatever it answers. */
  function Ask(w: World, card: string): World {
    w.(creates := w.creates[card := Creates(w, card) + 1])
  }

  /** The board opens a task for the card, or names the one it already opened. */
  function Open(w: World, card: string, task: string): World {
    w.(tasks := w.tasks[card := Ids(w.tasks, card) + {task}])
  }

  function AskToOpen(w: World, card: string, task: Option<string>): World {
    if task.Some? then Open(Ask(w, card), card, task.value) else Ask(w, card)
  }

  function Return(w: World, card: string): World {
    w.(returned := w.returned + {card})
  }

  /** The card's first record, naming the task it was opened with, if any. */
  function RecordFirst(w: World, card: string, profile: string, runId: string, task: Option<string>): World {
    var s := Put(w, card, WaitingState(profile, runId, task));
    if task.Some? then
      s.(recorded := s.recorded[card := Ids(s.recorded, card) + {task.value}], returned := s.returned - {card})
    else s
  }

  /** A call for a card that has history: repair the alias the record calls for. */
  function Reattach(w: World, card: string, profile: string, fate: Fate): (World, bool) {
    var known := RealTask(w, card);
    if known.None? then (Return(w, card), true)
    else if fate.AliasWriteFails? then (w, false)
    else (Return(PutAlias(w, known.value, card, profile), card), true)
  }

  /** The rest of a call that has asked the board: the record, then the alias. */
  function AfterAsking(open: World, card: string, profile: string, runId: string, task: Option<string>, fate: Fate): (World, bool)
  {
    if fate.DiesAfterCreate? || (fate.StateWriteFails? && task.Some?) then (open, false)
    else
      var stored := if fate.StateWriteFails? then open else RecordFirst(open, card, profile, runId, task);
      if fate.DiesAfterState? || (fate.AliasWriteFails? && task.Some?) then (stored, false)
      else (Return(if task.Some? then PutAlias(stored, task.value, card, profile) else stored, card), true)
  }

  /** `create_or_reattach`; `task` is the id the board would answer with.
      The result says whether the call returned normally. */
  function CreateOrReattach(w: World, card: string, profile: string, runId: string, task: Option<string>, fate: Fate): (World, bool)
    requires task.Some? ==> IsReal(task.value)
  {
    if fate.DiesFirst? then (w, false)
    else if HasHistory(w, card) then Reattach(w, card, profile, fate)
    else AfterAsking(AskToOpen(w, card, task), card, profile, runId, task, fate)
  }

  /** `resolve_hermes_kanban_event_card_id`; `None` for an unmapped real task. */
  function Resolve(w: World, id: string): Option<string> {
    if id in w.states && w.states[id].logicalCard.Some? && w.states[id].logicalCard != Some("") then w.states[id].logicalCard
    else if IsReal(id) then None
    else Some(id)
  }

  /** `publish_hermes_kanban_event`. */
  function Publish(w: World, id: string, status: Status): World {
    var card := Resolve(w, id);
    if card.None? then w else w.(logs := w.logs[card.value := LogOf(w, card.value) + [status]])
  }

  /** An await that found an outcome mirrors it to the latest-state record. */
  function Mirror(w: World, card: string, r: Resolution): World {
    Put(w, card, ToState(r))
  }

  // ------------------------------------------------------------------------
  // Runs.
  // ------------------------------------------------------------------------

  datatype Op =
    | Create(card: string, profile: string, runId: string, task: Option<string>, fate: Fate)
    | Report(id: string, status: Status)
    | Await(card: string, r: Resolution)

  /** Logical cards are not task ids, the board never gives one id to two cards,
      and an await follows a normal return for its card. */
  ghost predicate Legal(w: World, op: Op) {
    match op
    case Create(card, _, _, task, _) =>
      && card != "" && !IsReal(card)
      && (task.Some? ==> IsReal(task.value) && forall other | other != card && other in w.tasks :: task.value !in w.tasks[other])
    case Report(_, _) => true
    case Await(card, _) => card in w.returned
  }

  function Apply(w: World, op: Op): World
    requires op.Create? && op.task.Some? ==> IsReal(op.task.value)
  {
    match op
    case Create(card, profile, runId, task, fate) => CreateOrReattach(w, card, profile, runId, task, fate).0
    case Report(id, status) => Publish(w, id, status)
    case Await(card, r) => Mirror(w, card, r)
  }

  ghost predicate LegalRun(w: World, ops: seq<Op>)
    decreases ops
  {
    ops == [] || (Legal(w, ops[0]) && LegalRun(Apply(w, ops[0]), ops[1..]))
  }

  function After(w: World, ops: seq<Op>): World
    requires LegalRun(w, ops)
    decreases ops
  {
    if ops == [] then w else After(Apply(w, ops[0]), ops[1..])
  }

  ghost predicate Aliased(w: World, task: string, card: string) {
    Resolve(w, task) == Some(card)
  }

  /** A recorded task is aliased, or its card's record still names it and no
      call has returned for the card since. */
  ghost predicate Tracked(w: World, card: string, task: string) {
    Aliased(w, task, card) || (card !in w.returned && RealTask(w, card) == Some(task))
  }

  ghost predicate TasksOk(w: World) {
    && (forall card, task | card in w.tasks && task in w.tasks[card] :: IsReal(task))
    && (forall card, other, task | card in w.tasks && other in w.tasks && task in w.tasks[card] && task in w.tasks[other] :: card == other)
  }

  ghost predicate StatesOk(w: World) {
    && (forall id | id in w.states && IsReal(id) :: w.states[id].status == Alias)
    && (forall id | id in w.states && !IsReal(id) :: w.states[id].logicalCard == None && id != "")
  }

  ghost predicate RecordsOk(w: World) {
    && (forall card | card in w.recorded && w.recorded[card] != {} :: card in w.states)
    && (forall card | RealTask(w, card).Some? && !IsReal(card) :: RealTask(w, card).value in Ids(w.recorded, card))
  }

  ghost predicate AllTracked(w: World) {
    forall card, task | card in w.recorded && task in w.recorded[card] ::
      card in w.tasks && task in w.tasks[card] && Tracked(w, card, task)
  }

  ghost predicate Inv(w: World) {
    && (forall card | card in w.returned || card in w.tasks || card in w.recorded :: card != "" && !IsReal(card))
    && TasksOk(w) && StatesOk(w) && RecordsOk(w) && AllTracked(w)
  }

  lemma AliasesLand(w: World, task: string, card: string, profile: string)
    requires IsReal(task) && card != "" && (task in w.states ==> w.states[task].status == Alias)
    ensures var t := PutAlias(w, task, card, profile);
            && Aliased(t, task, card)
            && task in t.states && t.states[task].status == Alias
            && (forall id | id != task :: StateOf(t, id) == StateOf(w, id) && Resolve(t, id) == Resolve(w, id))
  {
  }

  lemma AliasKeepsInv(w: World, task: string, card: string, profile: string)
    requires Inv(w) && IsReal(task) && card in w.recorded && task in w.recorded[card]
    ensures Inv(PutAlias(w, task, card, profile))
    ensures Aliased(PutAlias(w, task, card, profile), task, card)
  {
    AliasesLand(w, task, card, profile);
    var t := PutAlias(w, task, card, profile);
    assert forall id | !IsReal(id) :: RealTask(t, id) == RealTask(w, id);
    forall c, r | c in t.recorded && r in t.recorded[c] ensures c in t.tasks && r in t.tasks[c] && Tracked(t, c, r) {
      assert Tracked(w, c, r);
      assert r == task ==> c == card;
    }
  }

  /** Returning for a card whose recorded tasks are all aliased. */
  lemma ReturnKeepsInv(w: World, card: string)
    requires Inv(w) && card != "" && !IsReal(card)
    requires forall r | r in Ids(w.recorded, card) :: Aliased(w, r, card)
    ensures Inv(Return(w, card))
  {
    var t := Return(w, card);
    forall c, r | c in t.recorded && r in t.recorded[c] ensures Tracked(t, c, r) {
      assert Tracked(w, c, r);
      assert c == card ==> Aliased(w, r, card);
    }
  }

  /** Only what was asked and opened changes. */
  lemma OpenKeepsTracked(w: World, card: string, task: Option<string>)
    requires AllTracked(w)
    ensures AllTracked(AskToOpen(w, card, task))
  {
    var t := AskToOpen(w, card, task);
    forall c, r | c in t.recorded && r in t.recorded[c] ensures c in t.tasks && r in t.tasks[c] && Tracked(t, c, r) {
      assert Tracked(w, c, r);
    }
  }

  lemma OpenKeepsRecords(w: World, card: string, task: Option<string>)
    requires StatesOk(w) && RecordsOk(w)
    ensures StatesOk(AskToOpen(w, card, task)) && RecordsOk(AskToOpen(w, card, task))
  {
    var t := AskToOpen(w, card, task);
    assert forall c :: RealTask(t, c) == RealTask(w, c) && Ids(t.recorded, c) == Ids(w.recorded, c);
  }

  lemma OpenKeepsTasks(w: World, card: string, task: Option<string>)
    requires TasksOk(w) && (task.Some? ==> IsReal(task.value))
    requires task.Some? ==> forall other | other != card && other in w.tasks :: task.value !in w.tasks[other]
    ensures TasksOk(AskToOpen(w, card, task))
  {
  }

  lemma OpenKeepsInv(w: World, card: string, task: Option<string>)
    requires Inv(w) && card != "" && !IsReal(card) && (task.Some? ==> IsReal(task.value))
    requires task.Some? ==> forall other | other != card && other in w.tasks :: task.value !in w.tasks[other]
    ensures Inv(AskToOpen(w, card, task))
  {
    OpenKeepsTasks(w, card, task);
    OpenKeepsTracked(w, card, task);
    OpenKeepsRecords(w, card, task);
  }

  lemma RecordFirstChanges(w: World, card: string, profile: string, runId: string, task: Option<string>)
    requires card !in w.states && !IsReal(card) && (task.Some? ==> IsReal(task.value))
    ensures var t := RecordFirst(w, card, profile, runId, task);
            && (forall id | id != card :: StateOf(t, id) == StateOf(w, id))
            && card in t.states && t.states[card].logicalCard == None && RealTask(t, card) == task
            && t.tasks == w.tasks && t.logs == w.logs && t.returned <= w.returned
            && (forall c | c != card :: Ids(t.recorded, c) == Ids(w.recorded, c))
            && (task.Some? ==> Ids(t.recorded, card) == Ids(w.recorded, card) + {task.value} && card !in t.returned)
            && (task.None? ==> t.recorded == w.recorded)
  {
  }

  lemma RecordKeepsTracked(w: World, card: string, profile: string, runId: string, task: Option<string>, c: string, r: string)
    requires Inv(w) && card != "" && !IsReal(card) && card !in w.states
    requires task.Some? ==> IsReal(task.value) && card in w.tasks && task.value in w.tasks[card]
    requires var t := RecordFirst(w, card, profile, runId, task); c in t.recorded && r in t.recorded[c]
    ensures var t := RecordFirst(w, card, profile, runId, task); c in t.tasks && r in t.tasks[c] && Tracked(t, c, r)
  {
    RecordFirstChanges(w, card, profile, runId, task);
    var t := RecordFirst(w, card, profile, runId, task);
    assert Ids(w.recorded, card) == {};
    assert r in Ids(t.recorded, c);
    if c != card {
      assert r in Ids(w.recorded, c) && Tracked(w, c, r);
      assert IsReal(r) && r != card;
    }
  }

  lemma RecordKeepsAllTracked(w: World, card: string, profile: string, runId: string, task: Option<string>)
    requires Inv(w) && card != "" && !IsReal(card) && card !in w.states
    requires task.Some? ==> IsReal(task.value) && card in w.tasks && task.value in w.tasks[card]
    ensures AllTracked(RecordFirst(w, card, profile, runId, task))
  {
    var t := RecordFirst(w, card, profile, runId, task);
    forall c, r | c in t.recorded && r in t.recorded[c] ensures c in t.tasks && r in t.tasks[c] && Tracked(t, c, r) {
      RecordKeepsTracked(w, card, profile, runId, task, c, r);
    }
  }

  lemma RecordKeepsStates(w: World, card: string, profile: string, runId: string, task: Option<string>)
    requires StatesOk(w) && RecordsOk(w) && card != "" && !IsReal(card) && card !in w.states
    requires task.Some? ==> IsReal(task.value)
    ensures var t := RecordFirst(w, card, profile, runId, task); StatesOk(t) && RecordsOk(t)
  {
    RecordFirstChanges(w, card, profile, runId, task);
    var t := RecordFirst(w, card, profile, runId, task);
    assert forall id | id != card :: RealTask(t, id) == RealTask(w, id);
  }

  lemma RecordKeepsInv(w: World, card: string, profile: string, runId: string, task: Option<string>)
    requires Inv(w) && card != "" && !IsReal(card) && card !in w.states
    requires task.Some? ==> IsReal(task.value) && card in w.tasks && task.value in w.tasks[card]
    ensures Inv(RecordFirst(w, card, profile, runId, task))
  {
    RecordKeepsAllTracked(w, card, profile, runId, task);
    RecordKeepsStates(w, card, profile, runId, task);
  }

  lemma ReattachKeepsInv(w: World, op: Op)
    requires Inv(w) && op.Create? && Legal(w, op) && HasHistory(w, op.card)
    ensures Inv(Apply(w, op))
  {
    var card := op.card;
    var known := RealTask(w, card);
    if !op.fate.DiesFirst? && !(known.Some? && op.fate.AliasWriteFails?) {
      var repaired := w;
      if known.Some? {
        AliasKeepsInv(w, known.value, card, op.profile);
        repaired := PutAlias(w, known.value, card, op.profile);
        AliasesLand(w, known.value, card, op.profile);
      }
      forall r | r in Ids(w.recorded, card) ensures Aliased(repaired, r, card) {
        assert Tracked(w, card, r);
      }
      ReturnKeepsInv(repaired, card);
    }
  }

  lemma CreateKeepsInv(w: World, op: Op)
    requires Inv(w) && op.Create? && Legal(w, op) && !HasHistory(w, op.card)
    ensures Inv(Apply(w, op))
  {
    var card, task := op.card, op.task;
    if !op.fate.DiesFirst? {
      assert Ids(w.recorded, card) == {};
      OpenKeepsInv(w, card, task);
      var open := AskToOpen(w, card, task);
      if task.Some? {
        StoredKeepsInv(open, card, op.profile, op.runId, task.value);
        OpeningCreateEnds(w, op);
      } else {
        RecordKeepsInv(open, card, op.profile, op.runId, None);
        ReturnKeepsInv(RecordFirst(open, card, op.profile, op.runId, None), card);
        ReturnKeepsInv(open, card);
        UnopenedCreateEnds(w, op);
      }
    }
  }

  /** Where a call for which the board names no task can end. */
  lemma UnopenedCreateEnds(w: World, op: Op)
    requires op.Create? && Legal(w, op) && !HasHistory(w, op.card) && op.task.None? && !op.fate.DiesFirst?
    ensures var asked := Ask(w, op.card);
            var s := RecordFirst(asked, op.card, op.profile, op.runId, None);
            Apply(w, op) in [asked, Return(asked, op.card), s, Return(s, op.card)]
  {
  }

  /** Where a call that opens a task can end. */
  lemma OpeningCreateEnds(w: World, op: Op)
    requires op.Create? && Legal(w, op) && !HasHistory(w, op.card) && op.task.Some? && !op.fate.DiesFirst?
    ensures var open := AskToOpen(w, op.card, op.task);
            var stored := RecordFirst(open, op.card, op.profile, op.runId, op.task);
            Apply(w, op) in [open, stored, Return(PutAlias(stored, op.task.value, op.card, op.profile), op.card)]
  {
  }

  lemma StoredKeepsInv(open: World, card: string, profile: string, runId: string, task: string)
    requires Inv(open) && card != "" && !IsReal(card) && IsReal(task) && card !in open.states
    requires card in open.tasks && task in open.tasks[card]
    ensures var stored := RecordFirst(open, card, profile, runId, Some(task));
            Inv(stored) && Inv(Return(PutAlias(stored, task, card, profile), card))
  {
    RecordKeepsInv(open, card, profile, runId, Some(task));
    RecordFirstChanges(open, card, profile, runId, Some(task));
    var stored := RecordFirst(open, card, profile, runId, Some(task));
    assert task in Ids(stored.recorded, card);
    AliasKeepsInv(stored, task, card, profile);
    var aliased := PutAlias(stored, task, card, profile);
    assert Ids(open.recorded, card) == {};
    assert Ids(aliased.recorded, card) == {task};
    ReturnKeepsInv(aliased, card);
  }

  lemma MirrorChanges(w: World, card: string, r: Resolution)
    requires StatesOk(w) && !IsReal(card) && card != ""
    ensures var t := Mirror(w, card, r);
            && StatesOk(t)
            && (forall id | id != card :: StateOf(t, id) == StateOf(w, id))
            && (forall id :: Resolve(t, id) == Resolve(w, id))
            && (RealTask(t, card) == None || t == w)
  {
  }

  /** A mirror may drop the task a card's record names; once a call has returned
      for the card, its tasks are aliased and do not need the record. */
  lemma AwaitKeepsInv(w: World, op: Op)
    requires Inv(w) && op.Await? && Legal(w, op)
    ensures Inv(Apply(w, op))
  {
    var t := Apply(w, op);
    MirrorChanges(w, op.card, op.r);
    assert forall id | id != op.card :: RealTask(t, id) == RealTask(w, id);
    forall c, r | c in t.recorded && r in t.recorded[c] ensures c in t.tasks && r in t.tasks[c] && Tracked(t, c, r) {
      assert Tracked(w, c, r);
    }
  }

  lemma StepKeepsInv(w: World, op: Op)
    requires Inv(w) && Legal(w, op)
    ensures Inv(Apply(w, op))
  {
    match op
    case Create(card, _, _, _, _) =>
      if HasHistory(w, card) {
        ReattachKeepsInv(w, op);
      } else {
        CreateKeepsInv(w, op);
      }
    case Report(_, _) =>
    case Await(_, _) => AwaitKeepsInv(w, op);
  }

  lemma {:induction false} RunsKeepInv(w: World, ops: seq<Op>)
    requires Inv(w) && LegalRun(w, ops)
    ensures Inv(After(w, ops))
    decreases ops
  {
    if ops != [] {
      StepKeepsInv(w, ops[0]);
      RunsKeepInv(Apply(w, ops[0]), ops[1..]);
    }
  }

  // ------------------------------------------------------------------------
  // What a normal return promises.
  // ------------------------------------------------------------------------

  /** After any sequence of calls, crashes, reports and awaits: once a call has
      returned for a card, what the board reports on a task recorded for it goes
      to that card's log, and to no other. */
  lemma ReportsReachTheirCard(ops: seq<Op>, card: string, task: string, status: Status)
    requires LegalRun(EMPTY, ops)
    requires var w := After(EMPTY, ops);
             card in w.returned && card in w.recorded && task in w.recorded[card]
    ensures var w := After(EMPTY, ops);
            && LogOf(Publish(w, task, status), card) == LogOf(w, card) + [status]
            && forall other | other != card :: LogOf(Publish(w, task, status), other) == LogOf(w, other)
  {
    RunsKeepInv(EMPTY, ops);
    var w := After(EMPTY, ops);
    assert Tracked(w, card, task);
  }

  /** What a first call for a card leaves when it returns: a waiting record under
      the card, for its run and the task opened for it, and under that task a
      record that names the card. */
  lemma FirstCallRecords(w: World, card: string, profile: string, runId: string, task: string)
    requires !HasHistory(w, card) && card != "" && !IsReal(card) && IsReal(task) && task !in w.states
    ensures var (t, returned) := CreateOrReattach(w, card, profile, runId, Some(task), Completes);
            && returned && card in t.states && task in t.states && t.logs == w.logs
            && (forall id | id != card && id != task :: StateOf(t, id) == StateOf(w, id))
            && var s, a := t.states[card], t.states[task];
               && s.status == Waiting && s.profile == profile && s.version == Int(0) && s.result == Null
               && s.runId == Some(runId) && s.realTask == Some(task) && s.logicalCard == None
               && a.status == Alias && a.profile == profile && a.logicalCard == Some(card) && a.realTask == Some(task)
  {
  }

  /** A call that opens a task and returns normally has recorded and aliased it. */
  lemma NormalReturnsAreMapped(w: World, op: Op)
    requires Inv(w) && op.Create? && Legal(w, op) && !HasHistory(w, op.card) && op.task.Some?
    requires CreateOrReattach(w, op.card, op.profile, op.runId, op.task, op.fate).1
    ensures var t := Apply(w, op);
            op.task.value in Ids(t.recorded, op.card) && Aliased(t, op.task.value, op.card)
  {
    StepKeepsInv(w, op);
  }

  /** Nothing that was durable goes away. */
  ghost predicate Grows(w: World, t: World) {
    w.states.Keys <= t.states.Keys && forall c :: LogOf(w, c) != [] ==> LogOf(t, c) != []
  }

  lemma ReattachAsksNothing(w: World, op: Op)
    requires op.Create? && Legal(w, op) && HasHistory(w, op.card)
    ensures Grows(w, Apply(w, op)) && Apply(w, op).creates == w.creates
  {
  }

  lemma PutChanges(w: World, id: string, state: CardState)
    ensures var t := Put(w, id, state);
            t.states.Keys == w.states.Keys + {id} && t.creates == w.creates && t.logs == w.logs
  {
  }

  lemma AfterAskingRecords(open: World, card: string, profile: string, runId: string, task: Option<string>, fate: Fate)
    requires card !in open.states && (task.Some? ==> task.value != card)
    ensures var t := AfterAsking(open, card, profile, runId, task, fate).0;
            && t.creates == open.creates && t.logs == open.logs && open.states.Keys <= t.states.Keys
            && (card in t.states <==> !fate.DiesAfterCreate? && !fate.StateWriteFails?)
  {
    PutChanges(open, card, WaitingState(profile, runId, task));
    var stored := RecordFirst(open, card, profile, runId, task);
    if task.Some? {
      PutChanges(open, task.value, CardState(Alias, Null, None, profile, Int(0), None, task, Some(card)));
      PutChanges(stored, task.value, CardState(Alias, Null, None, profile, Int(0), None, task, Some(card)));
    }
  }

  lemma FirstCallAsksOnce(w: World, op: Op)
    requires op.Create? && Legal(w, op) && !HasHistory(w, op.card)
    ensures var t := Apply(w, op);
            && Grows(w, t)
            && t.creates == (if op.fate.DiesFirst? then w.creates else Ask(w, op.card).creates)
            && (HasHistory(t, op.card) <==> !op.fate.DiesFirst? && !Unrecorded(op, op.card))
  {
    if !op.fate.DiesFirst? {
      AfterAskingRecords(AskToOpen(w, op.card, op.task), op.card, op.profile, op.runId, op.task, op.fate);
    }
  }

  lemma OthersAskNothing(w: World, op: Op)
    requires !op.Create?
    ensures Grows(w, Apply(w, op)) && Apply(w, op).creates == w.creates
  {
  }

  lemma HistoryStays(w: World, op: Op, card: string)
    requires Legal(w, op) && HasHistory(w, card)
    ensures HasHistory(Apply(w, op), card) && Creates(Apply(w, op), card) == Creates(w, card)
  {
    if !op.Create? {
      OthersAskNothing(w, op);
    } else if HasHistory(w, op.card) {
      ReattachAsksNothing(w, op);
    } else {
      FirstCallAsksOnce(w, op);
    }
  }

  /** Once anything durable is known about a card, the board is never again asked
      to create a task for it. */
  lemma {:induction false} NoSecondCreate(w: World, ops: seq<Op>, card: string)
    requires LegalRun(w, ops) && HasHistory(w, card)
    ensures HasHistory(After(w, ops), card) && Creates(After(w, ops), card) == Creates(w, card)
    decreases ops
  {
    if ops != [] {
      HistoryStays(w, ops[0], card);
      NoSecondCreate(Apply(w, ops[0]), ops[1..], card);
    }
  }

  /** A call has returned for the card, whose record and log it found or wrote,
      and the task is among those recorded for it. */
  ghost predicate Settled(w: World, card: string, task: string) {
    HasHistory(w, card) && card in w.returned && task in Ids(w.recorded, card)
  }

  lemma AskingLeavesOthers(open: World, op: Op, card: string)
    requires op.Create? && op.card != card
    ensures var t := AfterAsking(open, op.card, op.profile, op.runId, op.task, op.fate).0;
            (card in t.returned <==> card in open.returned) && Ids(t.recorded, card) == Ids(open.recorded, card)
  {
    RecordingLeavesOthers(open, op.card, op.profile, op.runId, op.task, card);
    hide RecordFirst;
  }

  lemma RecordingLeavesOthers(w: World, card: string, profile: string, runId: string, task: Option<string>, other: string)
    requires other != card
    ensures var t := RecordFirst(w, card, profile, runId, task);
            (other in t.returned <==> other in w.returned) && Ids(t.recorded, other) == Ids(w.recorded, other)
  {
  }

  lemma ReattachSettles(w: World, op: Op, card: string)
    requires op.Create?
    ensures var t := Reattach(w, op.card, op.profile, op.fate).0;
            (card in w.returned ==> card in t.returned) && t.recorded == w.recorded
  {
  }

  lemma SettledStays(w: World, op: Op, card: string, task: string)
    requires Legal(w, op) && Settled(w, card, task)
    ensures Settled(Apply(w, op), card, task)
  {
    HistoryStays(w, op, card);
    if op.Create? && HasHistory(w, op.card) {
      ReattachSettles(w, op, card);
    } else if op.Create? {
      AskingLeavesOthers(AskToOpen(w, op.card, op.task), op, card);
    }
  }

  lemma {:induction false} SettledForGood(w: World, ops: seq<Op>, card: string, task: string)
    requires LegalRun(w, ops) && Settled(w, card, task)
    ensures Settled(After(w, ops), card, task)
    decreases ops
  {
    if ops != [] {
      SettledStays(w, ops[0], card, task);
      SettledForGood(Apply(w, ops[0]), ops[1..], card, task);
    }
  }

  lemma NormalReturnsSettle(w: World, op: Op)
    requires op.Create? && Legal(w, op) && !HasHistory(w, op.card) && op.task.Some?
    requires CreateOrReattach(w, op.card, op.profile, op.runId, op.task, op.fate).1
    ensures Settled(Apply(w, op), op.card, op.task.value)
  {
    assert op.fate.Completes?;
    var stored := RecordFirst(AskToOpen(w, op.card, op.task), op.card, op.profile, op.runId, op.task);
    assert op.card in stored.states;
  }

  lemma PublishLands(w: World, card: string, task: string, status: Status)
    requires Inv(w) && Settled(w, card, task)
    ensures LogOf(Publish(w, task, status), card) == LogOf(w, card) + [status]
    ensures forall other | other != card :: LogOf(Publish(w, task, status), other) == LogOf(w, other)
  {
    assert card in w.recorded && task in w.recorded[card];
    assert Tracked(w, card, task);
  }

  /** From a call that opened a task and returned normally on: whatever is called,
      crashes or is reported in between, a report on that task goes to the card's
      log, and to no other. */
  lemma ReturnedTasksStayReported(ops: seq<Op>, op: Op, more: seq<Op>, status: Status)
    requires LegalRun(EMPTY, ops) && Legal(After(EMPTY, ops), op) && LegalRun(Apply(After(EMPTY, ops), op), more)
    requires op.Create? && op.task.Some? && !HasHistory(After(EMPTY, ops), op.card)
    requires CreateOrReattach(After(EMPTY, ops), op.card, op.profile, op.runId, op.task, op.fate).1
    ensures var w := After(Apply(After(EMPTY, ops), op), more);
            && LogOf(Publish(w, op.task.value, status), op.card) == LogOf(w, op.card) + [status]
            && forall other | other != op.card :: LogOf(Publish(w, op.task.value, status), other) == LogOf(w, other)
  {
    var before := After(EMPTY, ops);
    var returned := Apply(before, op);
    RunsKeepInv(EMPTY, ops);
    StepKeepsInv(before, op);
    RunsKeepInv(returned, more);
    NormalReturnsSettle(before, op);
    SettledForGood(returned, more, op.card, op.task.value);
    PublishLands(After(returned, more), op.card, op.task.value, status);
  }

  /** A call that ends before anything is recorded. */
  predicate Unrecorded(op: Op, card: string) {
    op.Create? && op.card == card && (op.fate.DiesAfterCreate? || op.fate.StateWriteFails?)
  }

  function UnrecordedIn(ops: seq<Op>, card: string): nat {
    if ops == [] then 0 else (if Unrecorded(ops[0], card) then 1 else 0) + UnrecordedIn(ops[1..], card)
  }

  lemma CreateIsCounted(w: World, op: Op, card: string)
    requires Legal(w, op) && !HasHistory(w, card)
    ensures Creates(Apply(w, op), card) + (if HasHistory(Apply(w, op), card) then 0 else 1)
            <= Creates(w, card) + 1 + if Unrecorded(op, card) then 1 else 0
  {
    if !op.Create? {
      OthersAskNothing(w, op);
    } else if HasHistory(w, op.card) {
      ReattachAsksNothing(w, op);
    } else {
      FirstCallAsksOnce(w, op);
    }
  }

  /** The board is asked for a card at most once more than calls for it failed
      before anything was recorded. */
  lemma {:induction false} CreatesAreCounted(w: World, ops: seq<Op>, card: string)
    requires LegalRun(w, ops)
    ensures Creates(After(w, ops), card) <= Creates(w, card) + (if HasHistory(w, card) then 0 else 1) + UnrecordedIn(ops, card)
    decreases ops
  {
    if HasHistory(w, card) {
      NoSecondCreate(w, ops, card);
    } else if ops != [] {
      CreateIsCounted(w, ops[0], card);
      CreatesAreCounted(Apply(w, ops[0]), ops[1..], card);
    }
  }

  // ------------------------------------------------------------------------
  // Where the repair ends.
  // ------------------------------------------------------------------------

  /** A reattaching call leaves a task mapped to the card exactly when it was
      mapped already or the card's record still names it. */
  lemma ReattachMapsExactlyWhen(w: World, card: string, profile: string, runId: string, task: string)
    requires Inv(w) && card != "" && !IsReal(card) && IsReal(task) && HasHistory(w, card)
    ensures var (t, ok) := CreateOrReattach(w, card, profile, runId, None, Completes);
            ok && (Aliased(t, task, card) <==> Aliased(w, task, card) || RealTask(w, card) == Some(task))
  {
    var known := RealTask(w, card);
    if known.Some? {
      AliasesLand(w, known.value, card, profile);
    }
  }

  // ------------------------------------------------------------------------
  // Why an await must follow a normal return.
  // ------------------------------------------------------------------------

  /** A task nothing leads back from to the card it was opened for. */
  ghost predicate Lost(w: World, card: string, task: string) {
    && HasHistory(w, card) && card in w.tasks && task in w.tasks[card]
    && Resolve(w, task) == None && task !in w.returned
    && forall c :: RealTask(w, c) != Some(task)
  }

  lemma AliasKeepsLost(w: World, other: string, to: string, profile: string, card: string, task: string)
    requires Lost(w, card, task) && IsReal(other) && other != task
    ensures Lost(PutAlias(w, other, to, profile), card, task)
  {
    var t := PutAlias(w, other, to, profile);
    assert forall c :: StateOf(t, c) == StateOf(w, c) || (c == other && RealTask(t, c) in [None, Some(other)]);
    assert forall c | StateOf(t, c) == StateOf(w, c) :: RealTask(t, c) == RealTask(w, c);
  }

  lemma ReattachKeepsLost(w: World, op: Op, card: string, task: string)
    requires op.Create? && Legal(w, op) && HasHistory(w, op.card) && IsReal(task) && Lost(w, card, task)
    ensures Lost(Apply(w, op), card, task)
  {
    var known := RealTask(w, op.card);
    if known.Some? {
      AliasKeepsLost(w, known.value, op.card, op.profile, card, task);
      var t := PutAlias(w, known.value, op.card, op.profile);
      assert forall c :: RealTask(Return(t, op.card), c) == RealTask(t, c);
    }
    assert forall c :: RealTask(Return(w, op.card), c) == RealTask(w, c);
  }

  lemma RecordKeepsLost(w: World, other: string, profile: string, runId: string, to: Option<string>, card: string, task: string)
    requires Lost(w, card, task) && other !in w.states && !IsReal(other) && IsReal(task) && to != Some(task)
    requires to.Some? ==> IsReal(to.value)
    ensures Lost(RecordFirst(w, other, profile, runId, to), card, task)
  {
    RecordFirstChanges(w, other, profile, runId, to);
    var t := RecordFirst(w, other, profile, runId, to);
    assert forall c | c != other :: RealTask(t, c) == RealTask(w, c);
  }

  lemma OpeningKeepsLost(w: World, op: Op, card: string, task: string)
    requires op.Create? && Legal(w, op) && !HasHistory(w, op.card) && IsReal(task) && Lost(w, card, task)
    ensures Lost(Apply(w, op), card, task)
  {
    if !op.fate.DiesFirst? {
      assert op.card != card && op.task != Some(task);
      var open := AskToOpen(w, op.card, op.task);
      assert forall c :: RealTask(open, c) == RealTask(w, c);
      var stored := RecordFirst(open, op.card, op.profile, op.runId, op.task);
      RecordKeepsLost(open, op.card, op.profile, op.runId, op.task, card, task);
      ReturnKeepsLost(open, op.card, card, task);
      ReturnKeepsLost(stored, op.card, card, task);
      if op.task.Some? {
        AliasKeepsLost(stored, op.task.value, op.card, op.profile, card, task);
        ReturnKeepsLost(PutAlias(stored, op.task.value, op.card, op.profile), op.card, card, task);
        OpeningCreateEnds(w, op);
      } else {
        UnopenedCreateEnds(w, op);
      }
    }
  }

  lemma ReturnKeepsLost(w: World, other: string, card: string, task: string)
    requires Lost(w, card, task) && IsReal(task) && !IsReal(other)
    ensures Lost(Return(w, other), card, task)
  {
    assert forall c :: RealTask(Return(w, other), c) == RealTask(w, c);
  }

  lemma LostStays(w: World, op: Op, card: string, task: string)
    requires Legal(w, op) && IsReal(task) && Lost(w, card, task)
    ensures Lost(Apply(w, op), card, task)
  {
    match op
    case Create(other, _, _, _, _) =>
      if HasHistory(w, other) {
        ReattachKeepsLost(w, op, card, task);
      } else {
        OpeningKeepsLost(w, op, card, task);
      }
    case Report(_, _) =>
      assert forall c :: RealTask(Apply(w, op), c) == RealTask(w, c);
    case Await(other, r) =>
      assert forall c | c != other :: StateOf(Apply(w, op), c) == StateOf(w, c);
      assert forall c :: RealTask(Apply(w, op), c) in [None, RealTask(w, c)];
  }

  lemma {:induction false} LostForGood(w: World, ops: seq<Op>, card: string, task: string)
    requires LegalRun(w, ops) && IsReal(task) && Lost(w, card, task)
    ensures Lost(After(w, ops), card, task)
    decreases ops
  {
    if ops != [] {
      LostStays(w, ops[0], card, task);
      LostForGood(Apply(w, ops[0]), ops[1..], card, task);
    }
  }

  /** The mirror keeps the run id of a record but not its task. So were an outcome
      mirrored for a card between its record and its alias, the repair would have
      nothing to read: whatever is called afterwards, the board's reports on the
      task never reach a card. */
  lemma EarlyMirrorWouldLoseTheTask(card: string, profile: string, runId: string, task: string, r: Resolution, ops: seq<Op>)
    requires card != "" && !IsReal(card) && IsReal(task)
    requires var w := Mirror(CreateOrReattach(EMPTY, card, profile, runId, Some(task), DiesAfterState).0, card, r); LegalRun(w, ops)
    ensures var w := Mirror(CreateOrReattach(EMPTY, card, profile, runId, Some(task), DiesAfterState).0, card, r);
            Resolve(After(w, ops), task) == None
  {
    var w := Mirror(CreateOrReattach(EMPTY, card, profile, runId, Some(task), DiesAfterState).0, card, r);
    assert Lost(w, card, task);
    LostForGood(w, ops, card, task);
  }

  // ------------------------------------------------------------------------
  // The backend as an object.
  // ------------------------------------------------------------------------

  class HermesKanbanBackend {
    var world: World

    constructor ()
      ensures world == EMPTY
    {
      world := EMPTY;
    }

    method RecordState(id: string, state: CardState)
      modifies this
      ensures world == Put(old(world), id, state)
    {
      world := world.(states := world.states[id := Recorded(StateOf(world, id), state)]);
    }

    method RecordAlias(task: string, card: string, profile: string)
      modifies this
      ensures world == PutAlias(old(world), task, card, profile)
    {
      RecordState(task, CardState(Alias, Null, None, profile, Int(0), None, Some(task), Some(card)));
    }

    /** `create_or_reattach`, one store write at a time. */
    method Create(card: string, profile: string, runId: string, task: Option<string>, fate: Fate) returns (ok: bool)
      requires task.Some? ==> IsReal(task.value)
      modifies this
      ensures (world, ok) == CreateOrReattach(old(world), card, profile, runId, task, fate)
    {
      if fate.DiesFirst? {
        return false;
      }
      if HasHistory(world, card) {
        var known := RealTask(world, card);
        if known.Some? {
          if fate.AliasWriteFails? {
            return false;
          }
          RecordAlias(known.value, card, profile);
        }
        world := Return(world, card);
        return true;
      }
      world := AskToOpen(world, card, task);
      if fate.DiesAfterCreate? {
        return false;
      }
      if fate.StateWriteFails? {
        if task.Some? {
          return false;
        }
      } else {
        RecordState(card, WaitingState(profile, runId, task));
        if task.Some? {
          world := world.(recorded := world.recorded[card := Ids(world.recorded, card) + {task.value}],
                          returned := world.returned - {card});
        }
      }
      if fate.DiesAfterState? {
        return false;
      }
      if task.Some? {
        if fate.AliasWriteFails? {
          return false;
        }
        RecordAlias(task.value, card, profile);
      }
      world := Return(world, card);
      ok := true;
    }
  }
}
