/** The file backend (script_store.py): one directory per run with a metadata
    file, journal lines and cache lines, and for each card a record and a log,
    which is text. */
module FileStore {
  import EventLog
  import opened Json
  import opened Kanban
  import opened Store

  /** One line of `cache.jsonl`; keys that a writer leaves out are `None`. A
      malformed line is not JSON, not an entry, or has a field of a wrong type. */
  datatype Line =
    | BlankLine
    | Malformed
    | CallLine(id: int, name: string, argsHash: string, value: Option<Value>, ok: Option<bool>, code: Option<string>, retryable: Option<bool>)
    | PromptLine(fingerprint: string, prompt: Prompt)

  /** The directory, and the journal lines not yet written to it. */
  datatype Disk = Disk(
    metas: map<string, Meta>,
    lines: map<string, seq<JEvent>>,
    buffers: map<string, seq<JEvent>>,
    cacheLines: map<string, seq<Line>>,
    cards: map<string, CardState>,
    logs: map<string, string>)

  const BLANK: Disk := Disk(map[], map[], map[], map[], map[], map[])

  function Of<T>(m: map<string, seq<T>>, key: string): seq<T> {
    if key in m then m[key] else []
  }

  /** What one append adds to the text of a card's log. */
  function Appended(text: string, e: CardEvent, cfg: Config): string {
    text + EventLog.Chunk(text, cfg.codec.encode(e))
  }

  // ------------------------------------------------------------------------
  // Writes.
  // ------------------------------------------------------------------------

  function WriteLines(d: Disk, run: string, more: seq<JEvent>): Disk {
    d.(lines := d.lines[run := Of(d.lines, run) + more])
  }

  /** `_flush_journal_locked`. */
  function FlushJournal(d: Disk, run: string): Disk {
    if Of(d.buffers, run) == [] then d
    else WriteLines(d, run, d.buffers[run]).(buffers := d.buffers - {run})
  }

  /** `_append_journal`. */
  function AppendJournal(d: Disk, run: string, e: JEvent, cfg: Config): Disk {
    if cfg.mode == Sync then WriteLines(d, run, [e])
    else
      var buffered := d.(buffers := d.buffers[run := Of(d.buffers, run) + [e]]);
      if cfg.mode == Async && |buffered.buffers[run]| >= cfg.flushEvery then FlushJournal(buffered, run) else buffered
  }

  /** `record` and `record_failure`. */
  function LineOf(id: int, e: Entry): Line {
    if e.ok then CallLine(id, e.name, e.argsHash, Some(e.value), None, None, None)
    else CallLine(id, e.name, e.argsHash, None, Some(false), Some(e.code), Some(e.retryable))
  }

  function AddLine(d: Disk, run: string, line: Line): Disk {
    d.(cacheLines := d.cacheLines[run := Of(d.cacheLines, run) + [line]])
  }

  function FileStep(d: Disk, op: Op, cfg: Config): Disk {
    match op
    case Begin(run, record, boot) =>
      if run in d.metas then d else AppendJournal(d.(metas := d.metas[run := record]), run, boot, cfg)
    case NoteCall(run, e) => AppendJournal(d, run, e, cfg)
    case RecordCall(run, id, e) => AddLine(d, run, LineOf(id, e))
    case RecordPrompt(run, fp, p) => AddLine(d, run, PromptLine(fp, p))
    case Finish(run, _, _, _, _, done) =>
      var record := if run in d.metas then d.metas[run] else Meta("", "", Null, false, None, "running", Null, Null, Null);
      FlushJournal(AppendJournal(d.(metas := d.metas[run := Terminal(record, op)]), run, done, cfg), run)
    case RecordCard(card, state) => d.(cards := d.cards[card := Recorded(CardOf(d.cards, card), state)])
    case AppendEvent(card, e) => d.(logs := d.logs[card := Appended(Of(d.logs, card), e, cfg)])
  }

  // ------------------------------------------------------------------------
  // Reads.
  // ------------------------------------------------------------------------

  /** One line of the `load_cache` loop; `None` is the corrupt-cache error. */
  function ReadLine(c: Cache, line: Line): Option<Cache> {
    match line
    case BlankLine => Some(c)
    case Malformed => None
    case CallLine(id, name, args, value, ok, code, retryable) =>
      if id in c.calls then None
      else if ok.GetOr(true) then Some(c.(calls := c.calls[id := Entry(name, args, value.GetOr(Null), true, "", false)]))
      else if code.GetOr("") == "" then None
      else Some(c.(calls := c.calls[id := Entry(name, args, value.GetOr(Null), false, code.value, retryable.GetOr(false))]))
    case PromptLine(fp, p) =>
      if !("v2:" <= fp) || fp in c.prompts then None else Some(c.(prompts := c.prompts[fp := p]))
  }

  function ReadLines(lines: seq<Line>): Option<Cache> {
    if lines == [] then Some(Cache(map[], map[]))
    else
      var before := ReadLines(lines[..|lines| - 1]);
      if before.None? then None else ReadLine(before.value, lines[|lines| - 1])
  }

  // ------------------------------------------------------------------------
  // The directory represents the store.
  // ------------------------------------------------------------------------

  /** A log whose lines are the events, numbered from 1. */
  ghost predicate LogHolds(text: string, events: seq<CardEvent>, cfg: Config) {
    && EventLog.Aligned(text) && EventLog.LineCount(text) == |events|
    && EventLog.Read(cfg.codec, text) == NumberedFrom(events, 1, 0)
  }

  ghost predicate Represents(d: Disk, s: Store, cfg: Config) {
    && d.metas == s.runs && d.cards == s.cards
    && (forall run: string :: JournalOf(s, run) == Journal(Of(d.lines, run), Of(d.buffers, run)))
    && (forall run: string :: ReadLines(Of(d.cacheLines, run)) == Some(CacheOf(s, run)))
    && (forall card: string :: LogHolds(Of(d.logs, card), EventsOf(s, card), cfg))
  }

  lemma BlankIsEmpty(cfg: Config)
    ensures Represents(BLANK, EMPTY, cfg)
  {
    assert EventLog.Lines("") == [];
  }

  /** An appended event is the next one read, under the next number. */
  lemma AppendedReadsBack(text: string, events: seq<CardEvent>, e: CardEvent, cfg: Config)
    requires EventLog.LineOk(cfg.codec, e) && LogHolds(text, events, cfg)
    ensures LogHolds(Appended(text, e, cfg), events + [e], cfg)
  {
    EventLog.CompletedOperation(cfg.codec, text, e);
    NumberedOneMore(events, e, 1, 0);
    AppendCountsOne(text, cfg.codec.encode(e));
  }

  lemma AppendCountsOne(text: string, line: string)
    requires EventLog.Aligned(text) && line != "" && EventLog.SeparatorFree(line)
    ensures EventLog.LineCount(text + EventLog.Chunk(text, line)) == EventLog.LineCount(text) + 1
  {
    EventLog.PrefixClosesLine(text);
    EventLog.PartCounts(text + EventLog.Prefix(text), line);
    EventLog.ChunkSplits(text, line);
  }

  /** Reading past a position drops the events up to it. */
  lemma {:induction false} PastOfNumbered(events: seq<CardEvent>, first: nat, afterSeq: int)
    requires first > 0
    ensures EventLog.Past(NumberedFrom(events, first, 0), afterSeq) == NumberedFrom(events, first, afterSeq)
    decreases |events|
  {
    if events != [] {
      var front, last := events[..|events| - 1], events[|events| - 1];
      PastOfNumbered(front, first, afterSeq);
      NumberedOneMore(front, last, first, 0);
      NumberedOneMore(front, last, first, afterSeq);
      EventLog.PastOneMore(NumberedFrom(front, first, 0), afterSeq);
      assert events == front + [last];
    }
  }

  lemma FlushSimulates(d: Disk, run: string)
    ensures var t := FlushJournal(d, run);
            && Journal(Of(t.lines, run), Of(t.buffers, run)) == Flush(Journal(Of(d.lines, run), Of(d.buffers, run)))
            && (forall r: string | r != run :: Of(t.lines, r) == Of(d.lines, r) && Of(t.buffers, r) == Of(d.buffers, r))
            && t.metas == d.metas && t.cards == d.cards && t.cacheLines == d.cacheLines && t.logs == d.logs
  {
  }

  lemma AppendSimulates(d: Disk, run: string, e: JEvent, cfg: Config)
    ensures var t := AppendJournal(d, run, e, cfg);
            && Journal(Of(t.lines, run), Of(t.buffers, run)) == Append(Journal(Of(d.lines, run), Of(d.buffers, run)), e, cfg)
            && (forall r: string | r != run :: Of(t.lines, r) == Of(d.lines, r) && Of(t.buffers, r) == Of(d.buffers, r))
            && t.metas == d.metas && t.cards == d.cards && t.cacheLines == d.cacheLines && t.logs == d.logs
  {
    if cfg.mode != Sync {
      FlushSimulates(d.(buffers := d.buffers[run := Of(d.buffers, run) + [e]]), run);
    }
  }

  lemma RecordSimulates(d: Disk, run: string, c: Cache, line: Line)
    requires ReadLines(Of(d.cacheLines, run)) == Some(c)
    ensures ReadLines(Of(AddLine(d, run, line).cacheLines, run)) == ReadLine(c, line)
    ensures forall r: string | r != run :: Of(AddLine(d, run, line).cacheLines, r) == Of(d.cacheLines, r)
  {
    var lines := Of(d.cacheLines, run);
    assert (lines + [line])[..|lines|] == lines;
  }

  lemma LineIsPoisonExactlyWhen(c: Cache, id: int, e: Entry)
    ensures ReadLine(c, LineOf(id, e)).None? <==> id in c.calls || (!e.ok && e.code == "")
  {
  }

  /** What a journal step may leave. */
  lemma JournalsMayChange(d: Disk, s: Store, t: Disk, u: Store, run: string, cfg: Config)
    requires Represents(d, s, cfg) && t.metas == u.runs
    requires t == d.(metas := t.metas, lines := t.lines, buffers := t.buffers) && u == s.(runs := u.runs, journals := u.journals)
    requires JournalOf(u, run) == Journal(Of(t.lines, run), Of(t.buffers, run))
    requires forall r: string | r != run ::
               JournalOf(u, r) == JournalOf(s, r) && Of(t.lines, r) == Of(d.lines, r) && Of(t.buffers, r) == Of(d.buffers, r)
    ensures Represents(t, u, cfg)
  {
    forall r: string ensures ReadLines(Of(t.cacheLines, r)) == Some(CacheOf(u, r)) {
      assert ReadLines(Of(d.cacheLines, r)) == Some(CacheOf(s, r));
    }
    forall card: string ensures LogHolds(Of(t.logs, card), EventsOf(u, card), cfg) {
      assert LogHolds(Of(d.logs, card), EventsOf(s, card), cfg);
    }
  }

  lemma JournalStepSimulates(d: Disk, s: Store, op: Op, cfg: Config)
    requires Represents(d, s, cfg) && Legal(s, op, cfg) && (op.Begin? || op.NoteCall? || op.Finish?)
    ensures Represents(FileStep(d, op, cfg), Step(s, op, cfg), cfg)
  {
    assert JournalOf(s, op.run) == Journal(Of(d.lines, op.run), Of(d.buffers, op.run));
    match op
    case Begin(run, record, boot) =>
      if run !in s.runs {
        AppendSimulates(d.(metas := d.metas[run := record]), run, boot, cfg);
        JournalsMayChange(d, s, FileStep(d, op, cfg), Step(s, op, cfg), run, cfg);
      }
    case NoteCall(run, e) =>
      AppendSimulates(d, run, e, cfg);
      JournalsMayChange(d, s, FileStep(d, op, cfg), Step(s, op, cfg), run, cfg);
    case Finish(run, _, _, _, _, done) =>
      var t := d.(metas := d.metas[run := Terminal(d.metas[run], op)]);
      AppendSimulates(t, run, done, cfg);
      FlushSimulates(AppendJournal(t, run, done, cfg), run);
      JournalsMayChange(d, s, FileStep(d, op, cfg), Step(s, op, cfg), run, cfg);
  }

  /** A line just written reads back as the entry it was written for. */
  lemma LinesReadBack(c: Cache, op: Op)
    requires op.RecordCall? ==> op.callId !in c.calls && EntryOk(op.entry)
    requires op.RecordPrompt? ==> op.fingerprint !in c.prompts && "v2:" <= op.fingerprint
    ensures op.RecordCall? ==> ReadLine(c, LineOf(op.callId, op.entry)) == Some(c.(calls := c.calls[op.callId := op.entry]))
    ensures op.RecordPrompt? ==>
              ReadLine(c, PromptLine(op.fingerprint, op.prompt)) == Some(c.(prompts := c.prompts[op.fingerprint := op.prompt]))
  {
  }

  lemma AddLineSimulates(d: Disk, s: Store, run: string, line: Line, c: Cache, cfg: Config)
    requires Represents(d, s, cfg) && ReadLine(CacheOf(s, run), line) == Some(c)
    ensures Represents(AddLine(d, run, line), s.(caches := s.caches[run := c]), cfg)
  {
    var t, u := AddLine(d, run, line), s.(caches := s.caches[run := c]);
    assert ReadLines(Of(d.cacheLines, run)) == Some(CacheOf(s, run));
    RecordSimulates(d, run, CacheOf(s, run), line);
    forall r: string ensures ReadLines(Of(t.cacheLines, r)) == Some(CacheOf(u, r)) {
      if r == run {
        assert CacheOf(u, r) == c;
      } else {
        assert ReadLines(Of(d.cacheLines, r)) == Some(CacheOf(s, r)) && CacheOf(u, r) == CacheOf(s, r);
      }
    }
    CachesMayChange(d, s, t.cacheLines, u.caches, cfg);
  }

  lemma CachesMayChange(d: Disk, s: Store, cacheLines: map<string, seq<Line>>, caches: map<string, Cache>, cfg: Config)
    requires Represents(d, s, cfg)
    requires forall r: string :: ReadLines(Of(cacheLines, r)) == Some(CacheOf(s.(caches := caches), r))
    ensures Represents(d.(cacheLines := cacheLines), s.(caches := caches), cfg)
  {
    var u := s.(caches := caches);
    forall r: string ensures JournalOf(u, r) == Journal(Of(d.lines, r), Of(d.buffers, r)) {
      assert JournalOf(s, r) == Journal(Of(d.lines, r), Of(d.buffers, r));
    }
    forall card: string ensures LogHolds(Of(d.logs, card), EventsOf(u, card), cfg) {
      assert LogHolds(Of(d.logs, card), EventsOf(s, card), cfg);
    }
  }

  lemma CacheStepSimulates(d: Disk, s: Store, op: Op, cfg: Config)
    requires Represents(d, s, cfg) && Legal(s, op, cfg) && (op.RecordCall? || op.RecordPrompt?)
    ensures Represents(FileStep(d, op, cfg), Step(s, op, cfg), cfg)
  {
    var c := CacheOf(s, op.run);
    LinesReadBack(c, op);
    if op.RecordCall? {
      AddLineSimulates(d, s, op.run, LineOf(op.callId, op.entry), c.(calls := c.calls[op.callId := op.entry]), cfg);
    } else {
      AddLineSimulates(d, s, op.run, PromptLine(op.fingerprint, op.prompt), c.(prompts := c.prompts[op.fingerprint := op.prompt]), cfg);
    }
  }

  /** Every call on the directory does what the store it represents does. */
  lemma FileSimulates(d: Disk, s: Store, op: Op, cfg: Config)
    requires Represents(d, s, cfg) && Legal(s, op, cfg)
    ensures Represents(FileStep(d, op, cfg), Step(s, op, cfg), cfg)
  {
    match op
    case RecordCall(_, _, _) => CacheStepSimulates(d, s, op, cfg);
    case RecordPrompt(_, _, _) => CacheStepSimulates(d, s, op, cfg);
    case RecordCard(_, _) => CardStepSimulates(d, s, op, cfg);
    case AppendEvent(_, _) => EventStepSimulates(d, s, op, cfg);
    case _ => JournalStepSimulates(d, s, op, cfg);
  }

  lemma CardStepSimulates(d: Disk, s: Store, op: Op, cfg: Config)
    requires Represents(d, s, cfg) && op.RecordCard?
    ensures Represents(FileStep(d, op, cfg), Step(s, op, cfg), cfg)
  {
    var t, u := FileStep(d, op, cfg), Step(s, op, cfg);
    assert forall r: string :: JournalOf(u, r) == JournalOf(s, r) && CacheOf(u, r) == CacheOf(s, r);
    forall card: string ensures LogHolds(Of(t.logs, card), EventsOf(u, card), cfg) {
      assert LogHolds(Of(d.logs, card), EventsOf(s, card), cfg);
    }
  }

  lemma EventStepSimulates(d: Disk, s: Store, op: Op, cfg: Config)
    requires Represents(d, s, cfg) && op.AppendEvent? && Legal(s, op, cfg)
    ensures Represents(FileStep(d, op, cfg), Step(s, op, cfg), cfg)
  {
    var t, u := FileStep(d, op, cfg), Step(s, op, cfg);
    assert forall r: string :: JournalOf(u, r) == JournalOf(s, r) && CacheOf(u, r) == CacheOf(s, r);
    forall card: string ensures LogHolds(Of(t.logs, card), EventsOf(u, card), cfg) {
      assert LogHolds(Of(d.logs, card), EventsOf(s, card), cfg);
      if card == op.card {
        AppendedReadsBack(Of(d.logs, card), EventsOf(s, card), op.cardEvent, cfg);
      }
    }
  }

  // ------------------------------------------------------------------------
  // The store object.
  // ------------------------------------------------------------------------

  class ScriptRunStore {
    const cfg: Config
    var metas: map<string, Meta>
    var lines: map<string, seq<JEvent>>
    var buffers: map<string, seq<JEvent>>
    var cacheLines: map<string, seq<Line>>
    var cards: map<string, CardState>
    var logs: map<string, string>

    constructor (cfg: Config)
      ensures this.cfg == cfg && Now() == BLANK
    {
      this.cfg := cfg;
      metas, lines, buffers, cacheLines, cards, logs := map[], map[], map[], map[], map[], map[];
    }

    ghost function Now(): Disk
      reads this
    {
      Disk(metas, lines, buffers, cacheLines, cards, logs)
    }

    method WriteJournalLines(run: string, pending: seq<JEvent>)
      modifies this`lines
      ensures Now() == WriteLines(old(Now()), run, pending)
    {
      lines := lines[run := Of(lines, run) + pending];
    }

    method FlushJournalLocked(run: string)
      modifies this`lines, this`buffers
      ensures Now() == FlushJournal(old(Now()), run)
    {
      var pending := Of(buffers, run);
      if pending != [] {
        WriteJournalLines(run, pending);
        buffers := buffers - {run};
      }
    }

    method AppendToJournal(run: string, e: JEvent)
      modifies this`lines, this`buffers
      ensures Now() == AppendJournal(old(Now()), run, e, cfg)
    {
      if cfg.mode == Sync {
        WriteJournalLines(run, [e]);
        return;
      }
      buffers := buffers[run := Of(buffers, run) + [e]];
      if cfg.mode == Async && |buffers[run]| >= cfg.flushEvery {
        FlushJournalLocked(run);
      }
    }

    /** `append_kanban_event`: the returned position is the new line's. */
    method AppendKanbanEvent(card: string, e: CardEvent) returns (seqno: nat)
      modifies this`logs
      ensures Now() == FileStep(old(Now()), AppendEvent(card, e), cfg)
      ensures seqno == EventLog.LineCount(Of(old(logs), card)) + 1
    {
      var text := Of(logs, card);
      var lineCount, prefix := EventLog.Shape(text);
      logs := logs[card := text + (prefix + cfg.codec.encode(e) + "\n")];
      seqno := lineCount + 1;
    }

    /** Any of the calls, dispatched. */
    method Do(op: Op) returns (ok: bool)
      modifies this
      ensures Now() == FileStep(old(Now()), op, cfg)
      ensures ok <==> !(op.Begin? && op.run in old(metas))
    {
      ok := true;
      match op {
        case Begin(run, record, boot) =>
          if run in metas {
            return false;
          }
          metas := metas[run := record];
          AppendToJournal(run, boot);
        case NoteCall(run, e) => AppendToJournal(run, e);
        case RecordCall(run, id, e) => cacheLines := cacheLines[run := Of(cacheLines, run) + [LineOf(id, e)]];
        case RecordPrompt(run, fp, p) => cacheLines := cacheLines[run := Of(cacheLines, run) + [PromptLine(fp, p)]];
        case Finish(run, _, _, _, _, done) =>
          var record := if run in metas then metas[run] else Meta("", "", Null, false, None, "running", Null, Null, Null);
          metas := metas[run := Terminal(record, op)];
          AppendToJournal(run, done);
          FlushJournalLocked(run);
        case RecordCard(card, state) => cards := cards[card := Recorded(CardOf(cards, card), state)];
        case AppendEvent(card, e) =>
          var seqno := AppendKanbanEvent(card, e);
      }
    }

    /** `load_cache`, one line at a time. */
    method LoadCache(run: string) returns (cache: Option<Cache>)
      ensures cache == ReadLines(Of(cacheLines, run))
    {
      var all := Of(cacheLines, run);
      var c := Cache(map[], map[]);
      var i := 0;
      while i < |all|
        invariant 0 <= i <= |all|
        invariant ReadLines(all[..i]) == Some(c)
      {
        assert all[..i + 1][..i] == all[..i];
        var next := ReadLine(c, all[i]);
        if next.None? {
          CorruptStays(all, i + 1);
          return None;
        }
        c := next.value;
        i := i + 1;
      }
      assert all[..|all|] == all;
      cache := Some(c);
    }

    /** `journal(limit)`: a bounded queue over the stored lines. */
    method RecentJournal(run: string, limit: int) returns (recent: seq<JEvent>)
      ensures recent == LastN(Of(lines, run), if limit < 1 then 1 else limit)
    {
      var all := Of(lines, run);
      var size := if limit < 1 then 1 else limit;
      recent := [];
      var i := 0;
      while i < |all|
        invariant 0 <= i <= |all|
        invariant recent == LastN(all[..i], size)
      {
        assert all[..i + 1] == all[..i] + [all[i]];
        LastNPush(all[..i], all[i], size);
        recent := recent + [all[i]];
        if |recent| > size {
          recent := recent[1..];
        }
        i := i + 1;
      }
      assert all[..|all|] == all;
    }

    /** `read_kanban_events`. */
    method ReadKanbanEvents(card: string, afterSeq: int) returns (found: seq<(nat, CardEvent)>)
      ensures found == EventLog.Past(EventLog.Read(cfg.codec, Of(logs, card)), afterSeq)
    {
      found := EventLog.ReadPast(cfg.codec, Of(logs, card), afterSeq);
    }
  }

  /** Of the represented store, that is its events past the position. */
  lemma FileReadsEvents(d: Disk, s: Store, card: string, afterSeq: int, cfg: Config)
    requires Represents(d, s, cfg)
    ensures EventLog.Past(EventLog.Read(cfg.codec, Of(d.logs, card)), afterSeq) == NumberedFrom(EventsOf(s, card), 1, afterSeq)
  {
    assert LogHolds(Of(d.logs, card), EventsOf(s, card), cfg);
    PastOfNumbered(EventsOf(s, card), 1, afterSeq);
  }

  /** An appended event is read back under the next number exactly when its text
      has no line separator. */
  lemma AppendedEventReadsBackExactlyWhen(d: Disk, s: Store, card: string, e: CardEvent, cfg: Config)
    requires EventLog.CodesOk(cfg.codec, e) && Represents(d, s, cfg)
    ensures var log := Of(FileStep(d, AppendEvent(card, e), cfg).logs, card);
            (|EventsOf(s, card)| + 1, e) in EventLog.Past(EventLog.Read(cfg.codec, log), 0)
            <==> EventLog.SeparatorFree(cfg.codec.encode(e))
  {
    assert LogHolds(Of(d.logs, card), EventsOf(s, card), cfg);
    EventLog.ReadBackExactlyWhen(cfg.codec, Of(d.logs, card), e);
    PastZero(EventLog.Read(cfg.codec, Appended(Of(d.logs, card), e, cfg)), (|EventsOf(s, card)| + 1, e));
  }

  lemma {:induction false} PastZero(read: seq<(nat, CardEvent)>, item: (nat, CardEvent))
    requires item.0 > 0
    ensures item in EventLog.Past(read, 0) <==> item in read
  {
    if read != [] {
      PastZero(read[..|read| - 1], item);
    }
  }

  lemma LastNPush<T>(s: seq<T>, x: T, n: nat)
    requires n >= 1
    ensures var queued := LastN(s, n) + [x]; LastN(s + [x], n) == if |queued| > n then queued[1..] else queued
  {
  }

  lemma {:induction false} CorruptStays(lines: seq<Line>, n: nat)
    requires n <= |lines| && ReadLines(lines[..n]) == None
    ensures ReadLines(lines) == None
    decreases |lines|
  {
    if n == |lines| {
      assert lines[..n] == lines;
    } else {
      assert lines[..|lines| - 1][..n] == lines[..n];
      CorruptStays(lines[..|lines| - 1], n);
    }
  }
}
