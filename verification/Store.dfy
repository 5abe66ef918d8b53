/** One contract, two backends (script_store.py, script_store_sqlite.py): what a
    run store holds, as both are meant to. Ids, hashes and fingerprints are
    opaque; timestamps and transcripts are left out. */
module Store {
  import EventLog
  import opened Json
  import opened Kanban

  datatype Durability = Sync | Async | Exit

  /** `codec` is how an event is written as text, where it is kept as text. */
  datatype Config = Config(mode: Durability, flushEvery: nat, codec: EventLog.Codec<CardEvent>)

  datatype JEvent = JEvent(kind: string, data: Value)

  /** A run's journal: what readers see, and what is still in memory. */
  datatype Journal = Journal(stored: seq<JEvent>, pending: seq<JEvent>)

  datatype Meta = Meta(
    script: string, args: string, limits: Value, deterministic: bool, replayOf: Option<string>,
    status: string, meta: Value, value: Value, error: Value)

  datatype Entry = Entry(name: string, argsHash: string, value: Value, ok: bool, code: string, retryable: bool)

  datatype Prompt = Prompt(name: string, argsHash: string, value: Value)

  datatype Cache = Cache(calls: map<int, Entry>, prompts: map<string, Prompt>)

  datatype CardEvent = CardEvent(status: Status, result: Value, reason: Option<string>, profile: string)

  datatype Store = Store(
    runs: map<string, Meta>,
    journals: map<string, Journal>,
    caches: map<string, Cache>,
    cards: map<string, CardState>,
    events: map<string, seq<CardEvent>>)

  const EMPTY: Store := Store(map[], map[], map[], map[], map[])

  datatype Op =
    | Begin(run: string, record: Meta, boot: JEvent)
    | NoteCall(run: string, event: JEvent)
    | RecordCall(run: string, callId: int, entry: Entry)
    | RecordPrompt(run: string, fingerprint: string, prompt: Prompt)
    | Finish(run: string, status: string, meta: Value, value: Value, error: Value, done: JEvent)
    | RecordCard(card: string, state: CardState)
    | AppendEvent(card: string, cardEvent: CardEvent)

  // ------------------------------------------------------------------------
  // Journals.
  // ------------------------------------------------------------------------

  const NO_JOURNAL: Journal := Journal([], [])

  function JournalOf(s: Store, run: string): Journal {
    if run in s.journals then s.journals[run] else NO_JOURNAL
  }

  function Flush(j: Journal): Journal {
    Journal(j.stored + j.pending, [])
  }

  /** The append policy of the three durability modes. */
  function Append(j: Journal, e: JEvent, cfg: Config): Journal {
    match cfg.mode
    case Sync => Journal(j.stored + [e], j.pending)
    case Async =>
      var grown := Journal(j.stored, j.pending + [e]);
      if |grown.pending| >= cfg.flushEvery then Flush(grown) else grown
    case Exit => Journal(j.stored, j.pending + [e])
  }

  function CacheOf(s: Store, run: string): Cache {
    if run in s.caches then s.caches[run] else Cache(map[], map[])
  }

  function EventsOf(s: Store, card: string): seq<CardEvent> {
    if card in s.events then s.events[card] else []
  }

  function CardOf(cards: map<string, CardState>, card: string): Option<CardState> {
    if card in cards then Some(cards[card]) else None
  }

  // ------------------------------------------------------------------------
  // Steps.
  // ------------------------------------------------------------------------

  /** What `record` and `record_failure` can write: a value, or a coded failure. */
  predicate EntryOk(e: Entry) {
    if e.ok then e.code == "" && !e.retryable else e.code != "" && e.value == Null
  }

  /** Begun runs only, distinct cached ids, fingerprints of the current format,
      and card events whose text has no line separator. */
  ghost predicate Legal(s: Store, op: Op, cfg: Config) {
    match op
    case Begin(_, _, _) => true
    case NoteCall(run, _) => run in s.runs
    case RecordCall(run, id, e) => run in s.runs && id !in CacheOf(s, run).calls && EntryOk(e)
    case RecordPrompt(run, fp, _) => run in s.runs && fp !in CacheOf(s, run).prompts && "v2:" <= fp
    case Finish(run, _, _, _, _, _) => run in s.runs
    case RecordCard(_, _) => true
    case AppendEvent(_, e) => EventLog.LineOk(cfg.codec, e)
  }

  function Terminal(m: Meta, op: Op): Meta
    requires op.Finish?
  {
    m.(status := op.status, meta := op.meta, value := op.value, error := op.error)
  }

  /** One call, without crashes; a second `begin` of a run is refused. */
  function Step(s: Store, op: Op, cfg: Config): Store
    requires op.Finish? ==> op.run in s.runs
  {
    match op
    case Begin(run, meta, boot) =>
      if run in s.runs then s
      else s.(runs := s.runs[run := meta], journals := s.journals[run := Append(JournalOf(s, run), boot, cfg)])
    case NoteCall(run, e) => s.(journals := s.journals[run := Append(JournalOf(s, run), e, cfg)])
    case RecordCall(run, id, e) =>
      var c := CacheOf(s, run);
      s.(caches := s.caches[run := c.(calls := c.calls[id := e])])
    case RecordPrompt(run, fp, p) =>
      var c := CacheOf(s, run);
      s.(caches := s.caches[run := c.(prompts := c.prompts[fp := p])])
    case Finish(run, _, _, _, _, done) =>
      s.(runs := s.runs[run := Terminal(s.runs[run], op)],
         journals := s.journals[run := Flush(Append(JournalOf(s, run), done, cfg))])
    case RecordCard(card, state) => s.(cards := s.cards[card := Recorded(CardOf(s.cards, card), state)])
    case AppendEvent(card, e) => s.(events := s.events[card := EventsOf(s, card) + [e]])
  }

  ghost predicate LegalRun(s: Store, ops: seq<Op>, cfg: Config)
    decreases ops
  {
    ops == [] || (Legal(s, ops[0], cfg) && LegalRun(Step(s, ops[0], cfg), ops[1..], cfg))
  }

  ghost function After(s: Store, ops: seq<Op>, cfg: Config): Store
    requires LegalRun(s, ops, cfg)
    decreases ops
  {
    if ops == [] then s else After(Step(s, ops[0], cfg), ops[1..], cfg)
  }

  // ------------------------------------------------------------------------
  // What readers get.
  // ------------------------------------------------------------------------

  function LastN<T>(s: seq<T>, n: nat): seq<T> {
    if |s| <= n then s else s[|s| - n..]
  }

  /** `journal(limit)`; at least one event is always asked for. */
  function ReadJournal(s: Store, run: string, limit: int): seq<JEvent> {
    LastN(JournalOf(s, run).stored, if limit < 1 then 1 else limit)
  }

  /** `read_kanban_events(after_seq)`: positions are one-based. */
  function NumberedFrom(events: seq<CardEvent>, first: nat, afterSeq: int): seq<(nat, CardEvent)>
    decreases events
  {
    if events == [] then []
    else (if first > afterSeq then [(first, events[0])] else []) + NumberedFrom(events[1..], first + 1, afterSeq)
  }

  lemma {:induction false} NumberedOneMore(events: seq<CardEvent>, e: CardEvent, first: nat, afterSeq: int)
    ensures NumberedFrom(events + [e], first, afterSeq) ==
            NumberedFrom(events, first, afterSeq) + if first + |events| > afterSeq then [(first + |events|, e)] else []
    decreases events
  {
    if events == [] {
      assert ([] + [e])[1..] == [];
    } else {
      NumberedOneMore(events[1..], e, first + 1, afterSeq);
      assert (events + [e])[1..] == events[1..] + [e];
      NumberedIs(events + [e], first, afterSeq);
      NumberedIs(events, first, afterSeq);
    }
  }

  lemma NumberedIs(events: seq<CardEvent>, first: nat, afterSeq: int)
    requires events != []
    ensures NumberedFrom(events, first, afterSeq) ==
            (if first > afterSeq then [(first, events[0])] else []) + NumberedFrom(events[1..], first + 1, afterSeq)
  {
  }

  lemma NumberedLast(events: seq<CardEvent>, e: CardEvent)
    ensures (|events| + 1, e) in NumberedFrom(events + [e], 1, 0)
  {
    NumberedOneMore(events, e, 1, 0);
    var read := NumberedFrom(events, 1, 0);
    assert (read + [(|events| + 1, e)])[|read|] == (|events| + 1, e);
  }

  predicate IsWait(s: CardState) {
    !IsTerminal(s.status) && s.status != Alias
  }

  /** `kanban_waits`, as a set: the two backends list it in different orders. */
  function Waits(cards: map<string, CardState>): set<(string, CardState)> {
    set card | card in cards && IsWait(cards[card]) :: (card, cards[card])
  }

  predicate Less(a: string, b: string)
    decreases a
  {
    if b == "" then false
    else if a == "" then true
    else a[0] < b[0] || (a[0] == b[0] && Less(a[1..], b[1..]))
  }

  lemma {:induction false} LessAfterPrefix(p: string, a: string, b: string)
    ensures Less(p + a, p + b) == Less(a, b)
  {
    if p == "" {
      assert p + a == a && p + b == b;
    } else {
      LessAfterPrefix(p[1..], a, b);
      assert (p + a)[1..] == p[1..] + a && (p + b)[1..] == p[1..] + b;
    }
  }

  const SUFFIX := ".json"

  /** `b` continues `a` with something that, as part of a file name, sorts before
      the suffix: at the first place where the rest of `b` and a dot departs
      from the suffix, it has the smaller character. */
  ghost predicate ContinuesBelow(a: string, b: string) {
    a < b && exists i | 0 <= i < |SUFFIX| :: BelowAt(b[|a|..] + ".", i)
  }

  ghost predicate BelowAt(rest: string, i: nat) {
    i < |rest| && i < |SUFFIX| && rest[..i] == SUFFIX[..i] && rest[i] < SUFFIX[i]
  }

  /** The first difference decides. */
  lemma {:induction false} LessAtDifference(a: string, b: string, i: nat)
    requires i < |a| && i < |b| && a[..i] == b[..i] && a[i] != b[i]
    ensures Less(a, b) <==> a[i] < b[i]
  {
    if i > 0 {
      assert a[0] == a[..i][0] == b[..i][0] == b[0];
      assert a[1..][..i - 1] == a[..i][1..] && b[1..][..i - 1] == b[..i][1..];
      LessAtDifference(a[1..], b[1..], i - 1);
    }
  }

  /** A string that is no prefix differs somewhere, or goes on. */
  lemma {:induction false} FirstDifference(a: string, b: string) returns (i: nat)
    ensures i <= |a| && i <= |b| && a[..i] == b[..i]
    ensures i < |a| && i < |b| ==> a[i] != b[i]
  {
    i := 0;
    while i < |a| && i < |b| && a[i] == b[i]
      invariant i <= |a| && i <= |b| && a[..i] == b[..i]
    {
      assert a[..i + 1] == a[..i] + [a[i]] && b[..i + 1] == b[..i] + [b[i]];
      i := i + 1;
    }
  }

  lemma {:induction false} PrefixIsLess(a: string, rest: string)
    ensures Less(a, a + rest) <==> rest != ""
    ensures !Less(a + rest, a)
  {
    LessAfterPrefix(a, "", rest);
    LessAfterPrefix(a, rest, "");
    assert a + "" == a;
  }

  /** What a rest with its suffix does against the bare suffix. */
  lemma RestAgainstSuffix(rest: string)
    requires rest != ""
    ensures Less(rest + SUFFIX, SUFFIX) <==> exists i | 0 <= i < |SUFFIX| :: BelowAt(rest + ".", i)
    ensures Less(SUFFIX, rest + SUFFIX) <==> !Less(rest + SUFFIX, SUFFIX)
  {
    var long := rest + SUFFIX;
    var i := FirstDifference(long, SUFFIX);
    DotIsOnlyFirst(rest, i);
    if i < |SUFFIX| {
      DepartsFromSuffix(rest, i);
      LessAtDifference(long, SUFFIX, i);
      LessAtDifference(SUFFIX, long, i);
    } else {
      ContinuesSuffix(rest);
    }
  }

  /** Past the rest and its dot nothing agrees with the suffix, which has no second dot. */
  lemma DotIsOnlyFirst(rest: string, i: nat)
    requires rest != "" && i <= |SUFFIX|
    ensures i > |rest| ==> (rest + SUFFIX)[..i] != SUFFIX[..i]
  {
    if i > |rest| {
      assert (rest + SUFFIX)[..i][|rest|] == SUFFIX[0];
      assert SUFFIX[..i][|rest|] == SUFFIX[|rest|];
    }
  }

  lemma DepartsFromSuffix(rest: string, i: nat)
    requires i < |SUFFIX| && i <= |rest|
    requires (rest + SUFFIX)[..i] == SUFFIX[..i] && (rest + SUFFIX)[i] != SUFFIX[i]
    ensures (rest + SUFFIX)[i] < SUFFIX[i] <==> exists j | 0 <= j < |SUFFIX| :: BelowAt(rest + ".", j)
  {
    var long, dotted := rest + SUFFIX, rest + ".";
    assert dotted[..i] == long[..i] && dotted[i] == long[i];
    if dotted[i] < SUFFIX[i] {
      assert BelowAt(dotted, i);
    }
    forall j | 0 <= j < |SUFFIX| && BelowAt(dotted, j) ensures j == i {
      SameDifference(dotted, i, j);
    }
  }

  lemma ContinuesSuffix(rest: string)
    requires |rest| >= |SUFFIX| && (rest + SUFFIX)[..|SUFFIX|] == SUFFIX
    ensures forall j | 0 <= j < |SUFFIX| :: !BelowAt(rest + ".", j)
    ensures !Less(rest + SUFFIX, SUFFIX) && Less(SUFFIX, rest + SUFFIX)
  {
    var long := rest + SUFFIX;
    assert long == SUFFIX + long[|SUFFIX|..];
    PrefixIsLess(SUFFIX, long[|SUFFIX|..]);
    forall j | 0 <= j < |SUFFIX| ensures !BelowAt(rest + ".", j) {
      assert (rest + ".")[j] == long[j] == long[..|SUFFIX|][j];
    }
  }

  lemma SameDifference(s: string, i: nat, j: nat)
    requires i < |s| && i < |SUFFIX| && s[..i] == SUFFIX[..i] && s[i] != SUFFIX[i]
    ensures BelowAt(s, j) ==> j == i
  {
    assert forall k | 0 <= k < i :: s[..i][k] == s[k] && SUFFIX[..i][k] == SUFFIX[k];
    assert i < j < |s| && j < |SUFFIX| ==> s[..j][i] == s[i] && SUFFIX[..j][i] == SUFFIX[i];
  }

  /** Files are listed by name with their suffix, rows by card id: the two orders
      disagree on a pair of cards exactly when one id continues the other below
      the suffix. */
  lemma WaitOrdersDifferExactlyWhen(a: string, b: string)
    ensures Less(a, b) != Less(a + SUFFIX, b + SUFFIX) <==> ContinuesBelow(a, b) || ContinuesBelow(b, a)
  {
    var i := FirstDifference(a, b);
    if i < |a| && i < |b| {
      assert (a + SUFFIX)[..i] == a[..i] && (b + SUFFIX)[..i] == b[..i];
      LessAtDifference(a, b, i);
      LessAtDifference(a + SUFFIX, b + SUFFIX, i);
    } else if i == |a| {
      OrdersOfContinued(a, b[i..]);
      assert b == a + b[i..];
    } else {
      OrdersOfContinued(b, a[i..]);
      assert a == b + a[i..];
    }
  }

  lemma OrdersOfContinued(a: string, rest: string)
    ensures var b := a + rest;
            && (Less(a, b) != Less(a + SUFFIX, b + SUFFIX) <==> ContinuesBelow(a, b))
            && (Less(b, a) != Less(b + SUFFIX, a + SUFFIX) <==> ContinuesBelow(a, b))
            && !ContinuesBelow(b, a)
  {
    var b := a + rest;
    PrefixIsLess(a, rest);
    LessAfterPrefix(a, SUFFIX, rest + SUFFIX);
    LessAfterPrefix(a, rest + SUFFIX, SUFFIX);
    assert b + SUFFIX == a + (rest + SUFFIX);
    assert b[|a|..] == rest;
    if rest == "" {
      PrefixIsLess(SUFFIX, "");
      assert SUFFIX + "" == SUFFIX == "" + SUFFIX && a == b;
    } else {
      RestAgainstSuffix(rest);
      assert a < b;
    }
  }

  // ------------------------------------------------------------------------
  // Durability.
  // ------------------------------------------------------------------------

  /** What one call adds to a run's journal. */
  function Told(s: Store, op: Op, run: string): seq<JEvent> {
    match op
    case Begin(r, _, boot) => if r == run && r !in s.runs then [boot] else []
    case NoteCall(r, e) => if r == run then [e] else []
    case Finish(r, _, _, _, _, done) => if r == run then [done] else []
    case _ => []
  }

  /** Every event a run was ever told to journal, in order. */
  ghost function Journaled(s: Store, ops: seq<Op>, cfg: Config, run: string): seq<JEvent>
    requires LegalRun(s, ops, cfg)
    decreases ops
  {
    if ops == [] then [] else Told(s, ops[0], run) + Journaled(Step(s, ops[0], cfg), ops[1..], cfg, run)
  }

  function Whole(j: Journal): seq<JEvent> {
    j.stored + j.pending
  }

  ghost predicate NoSyncBuffer(s: Store, cfg: Config) {
    cfg.mode == Sync ==> forall r | r in s.journals :: s.journals[r].pending == []
  }

  lemma AppendKeepsAll(j: Journal, e: JEvent, cfg: Config)
    requires cfg.mode == Sync ==> j.pending == []
    ensures Whole(Append(j, e, cfg)) == Whole(j) + [e]
    ensures cfg.mode == Sync ==> Append(j, e, cfg).pending == []
  {
  }

  lemma StepTells(s: Store, op: Op, cfg: Config, run: string)
    requires NoSyncBuffer(s, cfg) && Legal(s, op, cfg)
    ensures NoSyncBuffer(Step(s, op, cfg), cfg)
    ensures Whole(JournalOf(Step(s, op, cfg), run)) == Whole(JournalOf(s, run)) + Told(s, op, run)
  {
    match op
    case Begin(r, _, boot) => AppendKeepsAll(JournalOf(s, r), boot, cfg);
    case NoteCall(r, e) => AppendKeepsAll(JournalOf(s, r), e, cfg);
    case Finish(r, _, _, _, _, done) => AppendKeepsAll(JournalOf(s, r), done, cfg);
    case _ =>
  }

  /** In every mode nothing is dropped or reordered: the stored journal followed
      by the buffer is the full sequence of events. */
  lemma {:induction false} NothingIsDropped(s: Store, ops: seq<Op>, cfg: Config, run: string)
    requires LegalRun(s, ops, cfg) && NoSyncBuffer(s, cfg)
    ensures Whole(JournalOf(After(s, ops, cfg), run)) == Whole(JournalOf(s, run)) + Journaled(s, ops, cfg, run)
    decreases ops
  {
    if ops == [] {
      assert Whole(JournalOf(s, run)) + [] == Whole(JournalOf(s, run));
    } else {
      var t := Step(s, ops[0], cfg);
      StepTells(s, ops[0], cfg, run);
      NothingIsDropped(t, ops[1..], cfg, run);
      Regroup(Whole(JournalOf(s, run)), Told(s, ops[0], run), Journaled(t, ops[1..], cfg, run));
    }
  }

  lemma Regroup(a: seq<JEvent>, b: seq<JEvent>, c: seq<JEvent>)
    ensures a + b + c == a + (b + c)
  {
  }

  /** The two stores differ at most in how much of each journal is in memory. */
  ghost predicate SameButBuffers(a: Store, b: Store) {
    && a.runs == b.runs && a.caches == b.caches && a.cards == b.cards && a.events == b.events
    && forall run: string :: Whole(JournalOf(a, run)) == Whole(JournalOf(b, run))
  }

  lemma StepsAgree(a: Store, b: Store, op: Op, x: Config, y: Config)
    requires SameButBuffers(a, b) && NoSyncBuffer(a, x) && NoSyncBuffer(b, y) && Legal(a, op, x) && x.codec == y.codec
    ensures Legal(b, op, y) && SameButBuffers(Step(a, op, x), Step(b, op, y))
    ensures NoSyncBuffer(Step(a, op, x), x) && NoSyncBuffer(Step(b, op, y), y)
  {
    StepTells(a, op, x, "");
    StepTells(b, op, y, "");
    forall run: string ensures Whole(JournalOf(Step(a, op, x), run)) == Whole(JournalOf(Step(b, op, y), run)) {
      StepTells(a, op, x, run);
      StepTells(b, op, y, run);
    }
    RestAgrees(a, b, op, x, y);
  }

  lemma RestAgrees(a: Store, b: Store, op: Op, x: Config, y: Config)
    requires a.runs == b.runs && a.caches == b.caches && a.cards == b.cards && a.events == b.events
    requires op.Finish? ==> op.run in a.runs
    ensures var s, t := Step(a, op, x), Step(b, op, y);
            s.runs == t.runs && s.caches == t.caches && s.cards == t.cards && s.events == t.events
  {
  }

  /** The durability modes agree on everything but what is buffered. */
  lemma {:induction false} ModesAgree(a: Store, b: Store, ops: seq<Op>, x: Config, y: Config)
    requires SameButBuffers(a, b) && NoSyncBuffer(a, x) && NoSyncBuffer(b, y) && LegalRun(a, ops, x) && x.codec == y.codec
    ensures LegalRun(b, ops, y) && SameButBuffers(After(a, ops, x), After(b, ops, y))
    decreases ops
  {
    if ops != [] {
      StepsAgree(a, b, ops[0], x, y);
      ModesAgree(Step(a, ops[0], x), Step(b, ops[0], y), ops[1..], x, y);
    }
  }

  /** Calls that write to a run's journal; a second `begin` is refused and writes nothing. */
  predicate Journals(op: Op, run: string) {
    (op.NoteCall? || op.Finish?) && op.run == run
  }

  /** The run was finished by call `i`, and nothing journals to it after that. */
  predicate FinishedAt(ops: seq<Op>, run: string, i: nat) {
    && i < |ops| && ops[i].Finish? && ops[i].run == run
    && forall j | i < j < |ops| :: !Journals(ops[j], run)
  }

  lemma OtherStepsLeaveTheJournal(s: Store, op: Op, cfg: Config, run: string)
    requires Legal(s, op, cfg) && run in s.runs && !Journals(op, run)
    ensures run in Step(s, op, cfg).runs && JournalOf(Step(s, op, cfg), run) == JournalOf(s, run)
  {
  }

  lemma {:induction false} UntouchedJournalsStay(s: Store, ops: seq<Op>, cfg: Config, run: string)
    requires LegalRun(s, ops, cfg) && run in s.runs && forall j | 0 <= j < |ops| :: !Journals(ops[j], run)
    ensures JournalOf(After(s, ops, cfg), run) == JournalOf(s, run)
    decreases ops
  {
    if ops != [] {
      OtherStepsLeaveTheJournal(s, ops[0], cfg, run);
      UntouchedJournalsStay(Step(s, ops[0], cfg), ops[1..], cfg, run);
    }
  }

  /** Once a run is finished, all of its journal is stored, whatever goes on in
      the store around it. */
  lemma {:induction false} FinishedJournalsAreStored(s: Store, ops: seq<Op>, cfg: Config, run: string, i: nat)
    requires LegalRun(s, ops, cfg) && FinishedAt(ops, run, i)
    ensures JournalOf(After(s, ops, cfg), run).pending == []
    decreases ops
  {
    var t := Step(s, ops[0], cfg);
    if i == 0 {
      assert forall j | 0 <= j < |ops| - 1 :: ops[1..][j] == ops[j + 1];
      UntouchedJournalsStay(t, ops[1..], cfg, run);
    } else {
      FinishedJournalsAreStored(t, ops[1..], cfg, run, i - 1);
    }
  }

  // ------------------------------------------------------------------------
  // What a run's record says.
  // ------------------------------------------------------------------------

  predicate Begins(op: Op, run: string) {
    op.Begin? && op.run == run
  }

  predicate Finishes(op: Op, run: string) {
    op.Finish? && op.run == run
  }

  /** What a run was begun with. */
  predicate BegunWith(m: Meta, record: Meta) {
    && m.script == record.script && m.args == record.args && m.limits == record.limits
    && m.deterministic == record.deterministic && m.replayOf == record.replayOf
  }

  /** How it ended, field by field. */
  predicate EndedWith(m: Meta, op: Op)
    requires op.Finish?
  {
    m.status == op.status && m.meta == op.meta && m.value == op.value && m.error == op.error
  }

  lemma StepOnRecord(s: Store, op: Op, cfg: Config, run: string)
    requires Legal(s, op, cfg) && run in s.runs
    ensures var t := Step(s, op, cfg);
            && run in t.runs && BegunWith(t.runs[run], s.runs[run])
            && (if Finishes(op, run) then EndedWith(t.runs[run], op) else t.runs[run] == s.runs[run])
  {
  }

  /** No later call changes what a run was begun with, or how it ended without finishing it again. */
  lemma {:induction false} RecordStays(s: Store, ops: seq<Op>, cfg: Config, run: string)
    requires LegalRun(s, ops, cfg) && run in s.runs
    ensures var t := After(s, ops, cfg);
            && run in t.runs && BegunWith(t.runs[run], s.runs[run])
            && ((forall j | 0 <= j < |ops| :: !Finishes(ops[j], run)) ==> t.runs[run] == s.runs[run])
    decreases ops
  {
    if ops != [] {
      StepOnRecord(s, ops[0], cfg, run);
      RecordStays(Step(s, ops[0], cfg), ops[1..], cfg, run);
      assert forall j | 0 <= j < |ops| - 1 :: ops[1..][j] == ops[j + 1];
    }
  }

  lemma {:induction false} LastFinishStands(s: Store, ops: seq<Op>, cfg: Config, run: string, f: nat)
    requires LegalRun(s, ops, cfg) && f < |ops| && Finishes(ops[f], run)
    requires forall j | f < j < |ops| :: !Finishes(ops[j], run)
    ensures var t := After(s, ops, cfg); run in t.runs && EndedWith(t.runs[run], ops[f])
    decreases ops
  {
    assert forall j | 0 <= j < |ops| - 1 :: ops[1..][j] == ops[j + 1];
    if f == 0 {
      RecordStays(Step(s, ops[0], cfg), ops[1..], cfg, run);
    } else {
      LastFinishStands(Step(s, ops[0], cfg), ops[1..], cfg, run, f - 1);
    }
  }

  lemma {:induction false} FirstBeginStands(s: Store, ops: seq<Op>, cfg: Config, run: string, b: nat)
    requires LegalRun(s, ops, cfg) && run !in s.runs && b < |ops| && Begins(ops[b], run)
    requires forall j | 0 <= j < b :: !Begins(ops[j], run)
    ensures var t := After(s, ops, cfg);
            && run in t.runs && BegunWith(t.runs[run], ops[b].record)
            && ((forall j | 0 <= j < |ops| :: !Finishes(ops[j], run)) ==> t.runs[run] == ops[b].record)
    decreases ops
  {
    assert forall j | 0 <= j < |ops| - 1 :: ops[1..][j] == ops[j + 1];
    if b == 0 {
      RecordStays(Step(s, ops[0], cfg), ops[1..], cfg, run);
    } else {
      FirstBeginStands(Step(s, ops[0], cfg), ops[1..], cfg, run, b - 1);
    }
  }

  /** Every recorded card that has not completed or failed, and is no alias, is a
      wait; a blocked one is. */
  lemma WaitsAreTheOpenCards(cards: map<string, CardState>, card: string)
    ensures (exists state :: (card, state) in Waits(cards)) <==>
              card in cards && cards[card].status != Completed && cards[card].status != Failed && cards[card].status != Alias
    ensures forall state | (card, state) in Waits(cards) :: card in cards && state == cards[card]
  {
    if card in cards && IsWait(cards[card]) {
      assert (card, cards[card]) in Waits(cards);
    }
  }

  // ------------------------------------------------------------------------
  // What readers of a card or a cache find.
  // ------------------------------------------------------------------------

  function CardWrites(ops: seq<Op>, card: string): seq<CardState> {
    if ops == [] then []
    else
      var op := ops[|ops| - 1];
      CardWrites(ops[..|ops| - 1], card) + if op.RecordCard? && op.card == card then [op.state] else []
  }

  function CardEvents(ops: seq<Op>, card: string): seq<CardEvent> {
    if ops == [] then []
    else
      var op := ops[|ops| - 1];
      CardEvents(ops[..|ops| - 1], card) + if op.AppendEvent? && op.card == card then [op.cardEvent] else []
  }

  lemma {:induction false} RunOneMore(s: Store, ops: seq<Op>, cfg: Config)
    requires ops != [] && LegalRun(s, ops, cfg)
    ensures var front := ops[..|ops| - 1];
            && LegalRun(s, front, cfg) && Legal(After(s, front, cfg), ops[|ops| - 1], cfg)
            && After(s, ops, cfg) == Step(After(s, front, cfg), ops[|ops| - 1], cfg)
    decreases ops
  {
    var front := ops[..|ops| - 1];
    if front != [] {
      RunOneMore(Step(s, ops[0], cfg), ops[1..], cfg);
      assert ops[1..][..|ops| - 2] == front[1..];
    } else {
      assert ops == [ops[0]] && ops[1..] == [];
    }
  }

  lemma StepOnCard(s: Store, op: Op, cfg: Config, card: string)
    requires Legal(s, op, cfg)
    ensures var t := Step(s, op, cfg);
            && CardOf(t.cards, card) == (if op.RecordCard? && op.card == card then Some(Recorded(CardOf(s.cards, card), op.state))
                                         else CardOf(s.cards, card))
            && EventsOf(t, card) == EventsOf(s, card) + if op.AppendEvent? && op.card == card then [op.cardEvent] else []
  {
    assert EventsOf(s, card) + [] == EventsOf(s, card);
  }

  lemma RecordOneMore(writes: seq<CardState>, state: CardState)
    ensures RecordAll(None, writes + [state]) == Some(Recorded(RecordAll(None, writes), state))
    ensures RecordAll(None, writes + []) == RecordAll(None, writes)
  {
    assert (writes + [state])[..|writes|] == writes && writes + [] == writes;
  }

  /** A card's record is what its writes leave, one after the other, and its events
      are those appended to it, in order. */
  lemma {:induction false} CardsHoldTheirWrites(ops: seq<Op>, cfg: Config, card: string)
    requires LegalRun(EMPTY, ops, cfg)
    ensures CardOf(After(EMPTY, ops, cfg).cards, card) == RecordAll(None, CardWrites(ops, card))
    ensures EventsOf(After(EMPTY, ops, cfg), card) == CardEvents(ops, card)
    decreases |ops|
  {
    if ops != [] {
      var front, op := ops[..|ops| - 1], ops[|ops| - 1];
      RunOneMore(EMPTY, ops, cfg);
      CardsHoldTheirWrites(front, cfg, card);
      StepOnCard(After(EMPTY, front, cfg), op, cfg, card);
      if op.RecordCard? {
        RecordOneMore(CardWrites(front, card), op.state);
      } else {
        assert CardWrites(front, card) + [] == CardWrites(front, card);
      }
    }
  }

  lemma StepOnCache(s: Store, op: Op, cfg: Config, run: string)
    requires Legal(s, op, cfg)
    ensures var c, d := CacheOf(s, run), CacheOf(Step(s, op, cfg), run);
            && (forall id | id in c.calls :: id in d.calls && d.calls[id] == c.calls[id])
            && (forall fp | fp in c.prompts :: fp in d.prompts && d.prompts[fp] == c.prompts[fp])
  {
  }

  /** What was recorded for a call is what the cache answers, whatever follows. */
  lemma {:induction false} RecordedCallsStay(s: Store, ops: seq<Op>, cfg: Config, i: nat)
    requires LegalRun(s, ops, cfg) && i < |ops| && ops[i].RecordCall?
    ensures var calls := CacheOf(After(s, ops, cfg), ops[i].run).calls; ops[i].callId in calls && calls[ops[i].callId] == ops[i].entry
    decreases ops
  {
    var t := Step(s, ops[0], cfg);
    if i == 0 {
      CachedCallStays(t, ops[1..], cfg, ops[0].run, ops[0].callId);
    } else {
      RecordedCallsStay(t, ops[1..], cfg, i - 1);
    }
  }

  lemma {:induction false} CachedCallStays(s: Store, ops: seq<Op>, cfg: Config, run: string, id: int)
    requires LegalRun(s, ops, cfg) && id in CacheOf(s, run).calls
    ensures var calls := CacheOf(After(s, ops, cfg), run).calls; id in calls && calls[id] == CacheOf(s, run).calls[id]
    decreases ops
  {
    if ops != [] {
      StepOnCache(s, ops[0], cfg, run);
      CachedCallStays(Step(s, ops[0], cfg), ops[1..], cfg, run, id);
    }
  }

  lemma {:induction false} RecordedPromptsStay(s: Store, ops: seq<Op>, cfg: Config, i: nat)
    requires LegalRun(s, ops, cfg) && i < |ops| && ops[i].RecordPrompt?
    ensures var prompts := CacheOf(After(s, ops, cfg), ops[i].run).prompts;
            ops[i].fingerprint in prompts && prompts[ops[i].fingerprint] == ops[i].prompt
    decreases ops
  {
    var t := Step(s, ops[0], cfg);
    if i == 0 {
      CachedPromptStays(t, ops[1..], cfg, ops[0].run, ops[0].fingerprint);
    } else {
      RecordedPromptsStay(t, ops[1..], cfg, i - 1);
    }
  }

  lemma {:induction false} CachedPromptStays(s: Store, ops: seq<Op>, cfg: Config, run: string, fp: string)
    requires LegalRun(s, ops, cfg) && fp in CacheOf(s, run).prompts
    ensures var prompts := CacheOf(After(s, ops, cfg), run).prompts; fp in prompts && prompts[fp] == CacheOf(s, run).prompts[fp]
    decreases ops
  {
    if ops != [] {
      StepOnCache(s, ops[0], cfg, run);
      CachedPromptStays(Step(s, ops[0], cfg), ops[1..], cfg, run, fp);
    }
  }
}
