/** The SQLite backend (script_store_sqlite.py): the same contract over tables,
    with journal and event positions assigned from the largest one stored. */
module SqliteStore {
  import opened Json
  import opened Kanban
  import opened Store

  /** A run's or a card's rows of a table with a `seq` column. */
  type Table<T> = map<nat, T>

  datatype CallRow = CallRow(name: string, argsHash: string, valueJson: Option<Value>, ok: int, code: Option<string>, retryable: int)

  /** The database, and what the store object keeps in memory beside it. */
  datatype Db = Db(
    runs: map<string, Meta>,
    journal: map<string, Table<JEvent>>,
    calls: map<string, map<int, CallRow>>,
    prompts: map<string, map<string, Prompt>>,
    cards: map<string, CardState>,
    events: map<string, Table<CardEvent>>,
    buffers: map<string, seq<(nat, JEvent)>>,
    nextSeq: map<string, nat>)

  const BLANK: Db := Db(map[], map[], map[], map[], map[], map[], map[], map[])

  // ------------------------------------------------------------------------
  // Tables.
  // ------------------------------------------------------------------------

  function Rows<K, T>(m: map<string, map<K, T>>, key: string): map<K, T> {
    if key in m then m[key] else map[]
  }

  ghost predicate IsMax<T>(table: Table<T>, n: nat) {
    n in table && forall k | k in table :: k <= n
  }

  lemma {:induction false} SomeMax<T>(table: Table<T>)
    requires table != map[]
    ensures exists n :: IsMax(table, n)
    decreases |table|
  {
    var k :| k in table;
    var rest := table - {k};
    assert rest.Keys == table.Keys - {k};
    assert forall j | j in table :: j == k || j in rest;
    if rest == map[] {
      assert IsMax(table, k);
    } else {
      assert |rest| < |table|;
      SomeMax(rest);
      var m :| IsMax(rest, m);
      var top := if m < k then k else m;
      forall j | j in table ensures j <= top {
        if j != k {
          assert j in rest;
        }
      }
      assert IsMax(table, top);
    }
  }

  /** `SELECT MAX(seq)`. */
  ghost function Max<T>(table: Table<T>): (n: nat)
    requires table != map[]
    ensures IsMax(table, n)
  {
    SomeMax(table);
    var n :| IsMax(table, n);
    n
  }

  /** `SELECT COALESCE(MAX(seq), 0)`. */
  ghost function LastSeq<T>(table: Table<T>): nat {
    if table == map[] then 0 else Max(table)
  }

  /** `ORDER BY seq DESC LIMIT n`. */
  ghost function TopDesc<T>(table: Table<T>, n: nat): seq<T>
    decreases n
  {
    if n == 0 || table == map[] then []
    else
      var k := Max(table);
      [table[k]] + TopDesc(table - {k}, n - 1)
  }

  function Reverse<T>(s: seq<T>): seq<T> {
    if s == [] then [] else Reverse(s[1..]) + [s[0]]
  }

  /** The rows are exactly those of the sequence, numbered from 1. */
  ghost predicate Holds<T(!new)>(table: Table<T>, s: seq<T>) {
    && (forall k: nat :: k in table <==> 1 <= k <= |s|)
    && (forall k: nat | 1 <= k <= |s| :: table[k] == s[k - 1])
  }

  lemma LastSeqIsLength<T(!new)>(table: Table<T>, s: seq<T>)
    requires Holds(table, s)
    ensures LastSeq(table) == |s|
  {
    if s == [] {
      assert table == map[];
    } else {
      assert |s| in table;
    }
  }

  lemma InsertHolds<T(!new)>(table: Table<T>, s: seq<T>, e: T)
    requires Holds(table, s)
    ensures |s| + 1 !in table && Holds(table[|s| + 1 := e], s + [e])
  {
  }

  lemma WithoutLast<T(!new)>(table: Table<T>, s: seq<T>)
    requires Holds(table, s) && s != []
    ensures Max(table) == |s| && table[|s|] == s[|s| - 1] && Holds(table - {|s|}, s[..|s| - 1])
  {
    LastSeqIsLength(table, s);
    assert |s| in table;
  }

  lemma LastNOneMore<T>(s: seq<T>, n: nat)
    requires s != [] && n > 0
    ensures LastN(s, n) == LastN(s[..|s| - 1], n - 1) + [s[|s| - 1]]
  {
  }

  /** The newest `n` rows, turned around, are the last `n` of the sequence. */
  lemma {:induction false} TopIsLastN<T(!new)>(table: Table<T>, s: seq<T>, n: nat)
    requires Holds(table, s)
    ensures Reverse(TopDesc(table, n)) == LastN(s, n)
    decreases n
  {
    if s == [] {
      assert table == map[];
    } else if n > 0 {
      WithoutLast(table, s);
      TopIsLastN(table - {|s|}, s[..|s| - 1], n - 1);
      LastNOneMore(s, n);
      TopOneMore(table, n);
    }
  }

  lemma TopOneMore<T>(table: Table<T>, n: nat)
    requires table != map[] && n > 0
    ensures Reverse(TopDesc(table, n)) == Reverse(TopDesc(table - {Max(table)}, n - 1)) + [table[Max(table)]]
  {
    var rest := TopDesc(table - {Max(table)}, n - 1);
    assert ([table[Max(table)]] + rest)[1..] == rest;
  }

  // ------------------------------------------------------------------------
  // Writes.
  // ------------------------------------------------------------------------

  ghost function InsertAll(table: Table<JEvent>, rows: seq<(nat, JEvent)>): Table<JEvent> {
    if rows == [] then table
    else InsertAll(table, rows[..|rows| - 1])[rows[|rows| - 1].0 := rows[|rows| - 1].1]
  }

  function BufferOf(d: Db, run: string): seq<(nat, JEvent)> {
    if run in d.buffers then d.buffers[run] else []
  }

  ghost function WriteRows(d: Db, run: string, rows: seq<(nat, JEvent)>): Db {
    d.(journal := d.journal[run := InsertAll(Rows(d.journal, run), rows)])
  }

  /** `_flush_journal_locked`. */
  ghost function FlushJournal(d: Db, run: string): Db {
    if BufferOf(d, run) == [] then d else WriteRows(d, run, BufferOf(d, run)).(buffers := d.buffers - {run})
  }

  /** `_next_journal_seq_locked`: seeded from the table on first use. */
  ghost function NextSeq(d: Db, run: string): nat {
    (if run in d.nextSeq then d.nextSeq[run] else LastSeq(Rows(d.journal, run))) + 1
  }

  /** `_append_journal_locked`. */
  ghost function AppendJournal(d: Db, run: string, e: JEvent, cfg: Config): Db {
    var n := NextSeq(d, run);
    var t := d.(nextSeq := d.nextSeq[run := n]);
    if cfg.mode == Sync then WriteRows(t, run, [(n, e)])
    else
      var buffered := t.(buffers := t.buffers[run := BufferOf(t, run) + [(n, e)]]);
      if cfg.mode == Async && |buffered.buffers[run]| >= cfg.flushEvery then FlushJournal(buffered, run) else buffered
  }

  /** `record` and `record_failure`. */
  function RowOf(e: Entry): CallRow {
    if e.ok then CallRow(e.name, e.argsHash, Some(e.value), 1, None, 0)
    else CallRow(e.name, e.argsHash, None, 0, Some(e.code), if e.retryable then 1 else 0)
  }

  ghost function SqlStep(d: Db, op: Op, cfg: Config): Db {
    match op
    case Begin(run, record, boot) =>
      if run in d.runs then d else AppendJournal(d.(runs := d.runs[run := record]), run, boot, cfg)
    case NoteCall(run, e) => AppendJournal(d, run, e, cfg)
    case RecordCall(run, id, e) => d.(calls := d.calls[run := Rows(d.calls, run)[id := RowOf(e)]])
    case RecordPrompt(run, fp, p) => d.(prompts := d.prompts[run := Rows(d.prompts, run)[fp := p]])
    case Finish(run, _, _, _, _, done) =>
      var record := if run in d.runs then d.runs[run] else Meta("", "", Null, false, None, "running", Null, Null, Null);
      FlushJournal(AppendJournal(d.(runs := d.runs[run := Terminal(record, op)]), run, done, cfg), run)
    case RecordCard(card, state) => d.(cards := d.cards[card := Recorded(CardOf(d.cards, card), state)])
    case AppendEvent(card, e) =>
      var table := Rows(d.events, card);
      d.(events := d.events[card := table[LastSeq(table) + 1 := e]])
  }

  // ------------------------------------------------------------------------
  // Reads.
  // ------------------------------------------------------------------------

  /** One row of the `load_cache` loop; `None` is the corrupt-cache error. */
  function ReadRow(row: CallRow): Option<Entry> {
    if row.ok != 0 then Some(Entry(row.name, row.argsHash, row.valueJson.GetOr(Null), true, "", false))
    else if row.code.GetOr("") == "" then None
    else Some(Entry(row.name, row.argsHash, row.valueJson.GetOr(Null), false, row.code.value, row.retryable != 0))
  }

  /** `load_cache`. */
  function LoadCache(d: Db, run: string): Option<Cache> {
    var rows, prompts := Rows(d.calls, run), Rows(d.prompts, run);
    if (exists id | id in rows :: ReadRow(rows[id]).None?) || (exists fp | fp in prompts :: !("v2:" <= fp)) then None
    else Some(Cache(map id | id in rows :: ReadRow(rows[id]).GetOr(Entry("", "", Null, true, "", false)), prompts))
  }

  /** `journal(limit)`. */
  ghost function RecentJournal(d: Db, run: string, limit: int): seq<JEvent> {
    Reverse(TopDesc(Rows(d.journal, run), if limit < 1 then 1 else limit))
  }

  /** `read_kanban_events`: `WHERE seq > after ORDER BY seq`, up to the last row. */
  ghost function EventsFrom(table: Table<CardEvent>, n: nat, afterSeq: int): seq<(nat, CardEvent)> {
    if n == 0 then []
    else EventsFrom(table, n - 1, afterSeq) + if n in table && n > afterSeq then [(n, table[n])] else []
  }

  ghost function ReadEvents(d: Db, card: string, afterSeq: int): seq<(nat, CardEvent)> {
    EventsFrom(Rows(d.events, card), LastSeq(Rows(d.events, card)), afterSeq)
  }

  // ------------------------------------------------------------------------
  // The database represents the store.
  // ------------------------------------------------------------------------

  /** Buffered rows follow the stored ones without a gap. */
  ghost predicate Follows(rows: seq<(nat, JEvent)>, after: nat, events: seq<JEvent>) {
    |rows| == |events| && forall i | 0 <= i < |rows| :: rows[i] == (after + i + 1, events[i])
  }

  ghost predicate JournalHolds(d: Db, run: string, j: Journal) {
    && Holds(Rows(d.journal, run), j.stored)
    && Follows(BufferOf(d, run), |j.stored|, j.pending)
    && (if run in d.nextSeq then d.nextSeq[run] == |j.stored| + |j.pending| else j.pending == [])
  }

  ghost predicate CacheHolds(d: Db, run: string, c: Cache) {
    && Rows(d.prompts, run) == c.prompts && (forall fp | fp in c.prompts :: "v2:" <= fp)
    && Rows(d.calls, run).Keys == c.calls.Keys
    && (forall id | id in c.calls :: EntryOk(c.calls[id]) && Rows(d.calls, run)[id] == RowOf(c.calls[id]))
  }

  ghost predicate Represents(d: Db, s: Store) {
    && d.runs == s.runs && d.cards == s.cards
    && (forall run: string :: JournalHolds(d, run, JournalOf(s, run)))
    && (forall run: string :: CacheHolds(d, run, CacheOf(s, run)))
    && (forall card: string :: Holds(Rows(d.events, card), EventsOf(s, card)))
  }

  lemma BlankIsEmpty()
    ensures Represents(BLANK, EMPTY)
  {
  }

  lemma {:induction false} InsertAllHolds(table: Table<JEvent>, stored: seq<JEvent>, rows: seq<(nat, JEvent)>, events: seq<JEvent>)
    requires Holds(table, stored) && Follows(rows, |stored|, events)
    ensures Holds(InsertAll(table, rows), stored + events)
  {
    if rows == [] {
      assert stored + events == stored;
    } else {
      var n := |rows| - 1;
      InsertAllHolds(table, stored, rows[..n], events[..n]);
      InsertHolds(InsertAll(table, rows[..n]), stored + events[..n], events[n]);
      assert stored + events[..n] + [events[n]] == stored + events;
    }
  }

  /** Only the run's own journal moves. */
  ghost predicate OnlyJournal(d: Db, t: Db, run: string) {
    && t.runs == d.runs && t.cards == d.cards && t.calls == d.calls && t.prompts == d.prompts && t.events == d.events
    && forall r: string, j | r != run && JournalHolds(d, r, j) :: JournalHolds(t, r, j)
  }

  lemma FlushSimulates(d: Db, run: string, j: Journal)
    requires JournalHolds(d, run, j)
    ensures JournalHolds(FlushJournal(d, run), run, Flush(j)) && OnlyJournal(d, FlushJournal(d, run), run)
  {
    if BufferOf(d, run) == [] {
      assert j.pending == [] && j.stored + j.pending == j.stored;
    } else {
      InsertAllHolds(Rows(d.journal, run), j.stored, BufferOf(d, run), j.pending);
    }
  }

  lemma SyncAppendSimulates(d: Db, run: string, j: Journal, e: JEvent)
    requires JournalHolds(d, run, j) && j.pending == []
    ensures var t := WriteRows(d.(nextSeq := d.nextSeq[run := |j.stored| + 1]), run, [(|j.stored| + 1, e)]);
            JournalHolds(t, run, Journal(j.stored + [e], [])) && OnlyJournal(d, t, run)
  {
    InsertHolds(Rows(d.journal, run), j.stored, e);
    var rows := [(|j.stored| + 1, e)];
    assert rows[..0] == [];
    assert InsertAll(Rows(d.journal, run), []) == Rows(d.journal, run);
  }

  lemma BufferSimulates(d: Db, run: string, j: Journal, e: JEvent)
    requires JournalHolds(d, run, j)
    ensures var n := |j.stored| + |j.pending| + 1;
            var t := d.(nextSeq := d.nextSeq[run := n], buffers := d.buffers[run := BufferOf(d, run) + [(n, e)]]);
            JournalHolds(t, run, Journal(j.stored, j.pending + [e])) && OnlyJournal(d, t, run)
  {
  }

  lemma SeqIsNext(d: Db, run: string, j: Journal)
    requires JournalHolds(d, run, j)
    ensures NextSeq(d, run) == |j.stored| + |j.pending| + 1
  {
    LastSeqIsLength(Rows(d.journal, run), j.stored);
  }

  lemma AppendSimulates(d: Db, run: string, j: Journal, e: JEvent, cfg: Config)
    requires JournalHolds(d, run, j) && (cfg.mode == Sync ==> j.pending == [])
    ensures JournalHolds(AppendJournal(d, run, e, cfg), run, Append(j, e, cfg)) && OnlyJournal(d, AppendJournal(d, run, e, cfg), run)
  {
    SeqIsNext(d, run, j);
    if cfg.mode == Sync {
      SyncAppendSimulates(d, run, j, e);
    } else {
      BufferSimulates(d, run, j, e);
      var n := NextSeq(d, run);
      var buffered := d.(nextSeq := d.nextSeq[run := n], buffers := d.buffers[run := BufferOf(d, run) + [(n, e)]]);
      FlushSimulates(buffered, run, Journal(j.stored, j.pending + [e]));
    }
  }

  lemma JournalStepSimulates(d: Db, s: Store, run: string, t: Db, j: Journal)
    requires Represents(d, s) && OnlyJournal(d, t, run) && JournalHolds(t, run, j)
    ensures Represents(t, s.(journals := s.journals[run := j]))
  {
    var u := s.(journals := s.journals[run := j]);
    forall r: string ensures JournalHolds(t, r, JournalOf(u, r)) {
      if r != run {
        assert JournalHolds(d, r, JournalOf(s, r));
      }
    }
    forall r: string ensures CacheHolds(t, r, CacheOf(u, r)) {
      assert CacheHolds(d, r, CacheOf(s, r));
    }
  }

  lemma RunsMayChange(d: Db, s: Store, runs: map<string, Meta>)
    requires Represents(d, s)
    ensures Represents(d.(runs := runs), s.(runs := runs))
  {
    forall r: string ensures JournalHolds(d.(runs := runs), r, JournalOf(s.(runs := runs), r)) {
      assert JournalHolds(d, r, JournalOf(s, r));
    }
    forall r: string ensures CacheHolds(d.(runs := runs), r, CacheOf(s.(runs := runs), r)) {
      assert CacheHolds(d, r, CacheOf(s, r));
    }
  }

  lemma AppendStepSimulates(d: Db, s: Store, run: string, e: JEvent, cfg: Config)
    requires Represents(d, s) && NoSyncBuffer(s, cfg)
    ensures Represents(AppendJournal(d, run, e, cfg), s.(journals := s.journals[run := Append(JournalOf(s, run), e, cfg)]))
  {
    AppendSimulates(d, run, JournalOf(s, run), e, cfg);
    JournalStepSimulates(d, s, run, AppendJournal(d, run, e, cfg), Append(JournalOf(s, run), e, cfg));
  }

  lemma FinishSimulates(d: Db, s: Store, op: Op, cfg: Config)
    requires Represents(d, s) && NoSyncBuffer(s, cfg) && Legal(s, op, cfg) && op.Finish?
    ensures Represents(SqlStep(d, op, cfg), Step(s, op, cfg))
  {
    var runs := d.runs[op.run := Terminal(d.runs[op.run], op)];
    var named := s.(runs := runs);
    RunsMayChange(d, s, runs);
    var j := Append(JournalOf(s, op.run), op.done, cfg);
    var appended := AppendJournal(d.(runs := runs), op.run, op.done, cfg);
    AppendStepSimulates(d.(runs := runs), named, op.run, op.done, cfg);
    FlushAfterAppend(appended, named, op.run, j);
    assert Step(s, op, cfg) == s.(runs := runs, journals := s.journals[op.run := Flush(j)]);
  }

  /** Flushing what an append left. */
  lemma FlushAfterAppend(d: Db, s: Store, run: string, j: Journal)
    requires Represents(d, s.(journals := s.journals[run := j]))
    ensures Represents(FlushJournal(d, run), s.(journals := s.journals[run := Flush(j)]))
  {
    var t := s.(journals := s.journals[run := j]);
    FlushStepSimulates(d, t, run);
    OverwrittenJournal(s.journals, run, j, Flush(j));
  }

  lemma OverwrittenJournal(journals: map<string, Journal>, run: string, j: Journal, k: Journal)
    ensures journals[run := j][run := k] == journals[run := k]
  {
  }

  lemma FlushStepSimulates(d: Db, s: Store, run: string)
    requires Represents(d, s)
    ensures Represents(FlushJournal(d, run), s.(journals := s.journals[run := Flush(JournalOf(s, run))]))
  {
    assert JournalHolds(d, run, JournalOf(s, run));
    FlushSimulates(d, run, JournalOf(s, run));
    JournalStepSimulates(d, s, run, FlushJournal(d, run), Flush(JournalOf(s, run)));
  }

  lemma CachesMayChange(d: Db, s: Store, calls: map<string, map<int, CallRow>>, prompts: map<string, map<string, Prompt>>, caches: map<string, Cache>)
    requires Represents(d, s)
    requires forall r: string :: CacheHolds(d.(calls := calls, prompts := prompts), r, CacheOf(s.(caches := caches), r))
    ensures Represents(d.(calls := calls, prompts := prompts), s.(caches := caches))
  {
    var t, u := d.(calls := calls, prompts := prompts), s.(caches := caches);
    forall r: string ensures JournalHolds(t, r, JournalOf(u, r)) {
      assert JournalHolds(d, r, JournalOf(s, r));
    }
    forall card: string ensures Holds(Rows(t.events, card), EventsOf(u, card)) {
      assert Holds(Rows(d.events, card), EventsOf(s, card));
    }
  }

  lemma CallRowHolds(d: Db, run: string, c: Cache, id: int, e: Entry)
    requires CacheHolds(d, run, c) && EntryOk(e)
    ensures CacheHolds(d.(calls := d.calls[run := Rows(d.calls, run)[id := RowOf(e)]]), run, c.(calls := c.calls[id := e]))
  {
  }

  lemma PromptRowHolds(d: Db, run: string, c: Cache, fp: string, p: Prompt)
    requires CacheHolds(d, run, c) && "v2:" <= fp
    ensures CacheHolds(d.(prompts := d.prompts[run := Rows(d.prompts, run)[fp := p]]), run, c.(prompts := c.prompts[fp := p]))
  {
  }

  /** The rows of one run change, and its cache with them. */
  lemma OneCacheChanges(d: Db, t: Db, s: Store, run: string, c: Cache)
    requires Represents(d, s) && t == d.(calls := t.calls, prompts := t.prompts) && CacheHolds(t, run, c)
    requires forall r: string | r != run :: Rows(t.calls, r) == Rows(d.calls, r) && Rows(t.prompts, r) == Rows(d.prompts, r)
    ensures Represents(t, s.(caches := s.caches[run := c]))
  {
    var caches := s.caches[run := c];
    forall r: string ensures CacheHolds(t, r, CacheOf(s.(caches := caches), r)) {
      assert CacheHolds(d, r, CacheOf(s, r));
    }
    CachesMayChange(d, s, t.calls, t.prompts, caches);
  }

  lemma CallStepSimulates(d: Db, s: Store, run: string, id: int, e: Entry)
    requires Represents(d, s) && EntryOk(e)
    ensures var c := CacheOf(s, run);
            Represents(d.(calls := d.calls[run := Rows(d.calls, run)[id := RowOf(e)]]),
                       s.(caches := s.caches[run := c.(calls := c.calls[id := e])]))
  {
    var c := CacheOf(s, run);
    CallRowHolds(d, run, c, id, e);
    OneCacheChanges(d, d.(calls := d.calls[run := Rows(d.calls, run)[id := RowOf(e)]]), s, run, c.(calls := c.calls[id := e]));
  }

  lemma PromptStepSimulates(d: Db, s: Store, run: string, fp: string, p: Prompt)
    requires Represents(d, s) && "v2:" <= fp
    ensures var c := CacheOf(s, run);
            Represents(d.(prompts := d.prompts[run := Rows(d.prompts, run)[fp := p]]),
                       s.(caches := s.caches[run := c.(prompts := c.prompts[fp := p])]))
  {
    var c := CacheOf(s, run);
    PromptRowHolds(d, run, c, fp, p);
    OneCacheChanges(d, d.(prompts := d.prompts[run := Rows(d.prompts, run)[fp := p]]), s, run, c.(prompts := c.prompts[fp := p]));
  }

  lemma CardsMayChange(d: Db, s: Store, cards: map<string, CardState>)
    requires Represents(d, s)
    ensures Represents(d.(cards := cards), s.(cards := cards))
  {
    forall r: string ensures CacheHolds(d.(cards := cards), r, CacheOf(s.(cards := cards), r)) {
      assert CacheHolds(d, r, CacheOf(s, r));
    }
    forall r: string ensures JournalHolds(d.(cards := cards), r, JournalOf(s.(cards := cards), r)) {
      assert JournalHolds(d, r, JournalOf(s, r));
    }
    forall c: string ensures Holds(Rows(d.events, c), EventsOf(s.(cards := cards), c)) {
      assert Holds(Rows(d.events, c), EventsOf(s, c));
    }
  }

  lemma EventsMayChange(d: Db, s: Store, table: map<string, Table<CardEvent>>, events: map<string, seq<CardEvent>>)
    requires Represents(d, s)
    requires forall c: string :: Holds(Rows(table, c), EventsOf(s.(events := events), c))
    ensures Represents(d.(events := table), s.(events := events))
  {
    forall r: string ensures CacheHolds(d.(events := table), r, CacheOf(s.(events := events), r)) {
      assert CacheHolds(d, r, CacheOf(s, r));
    }
    forall r: string ensures JournalHolds(d.(events := table), r, JournalOf(s.(events := events), r)) {
      assert JournalHolds(d, r, JournalOf(s, r));
    }
  }

  lemma AppendEventSimulates(d: Db, s: Store, card: string, e: CardEvent)
    requires Represents(d, s)
    ensures var table := Rows(d.events, card);
            Represents(d.(events := d.events[card := table[LastSeq(table) + 1 := e]]),
                       s.(events := s.events[card := EventsOf(s, card) + [e]]))
  {
    var table := Rows(d.events, card);
    assert Holds(table, EventsOf(s, card));
    LastSeqIsLength(table, EventsOf(s, card));
    InsertHolds(table, EventsOf(s, card), e);
    var n: nat := LastSeq(table) + 1;
    var after, events := d.events[card := table[n := e]], s.events[card := EventsOf(s, card) + [e]];
    forall c: string ensures Holds(Rows(after, c), EventsOf(s.(events := events), c)) {
      assert Holds(Rows(d.events, c), EventsOf(s, c));
    }
    EventsMayChange(d, s, after, events);
  }

  /** Every call on the database does what the store it represents does. */
  lemma SqliteSimulates(d: Db, s: Store, op: Op, cfg: Config)
    requires Represents(d, s) && NoSyncBuffer(s, cfg) && Legal(s, op, cfg)
    ensures Represents(SqlStep(d, op, cfg), Step(s, op, cfg))
  {
    match op
    case Begin(run, record, boot) =>
      if run !in s.runs {
        RunsMayChange(d, s, d.runs[run := record]);
        AppendStepSimulates(d.(runs := d.runs[run := record]), s.(runs := d.runs[run := record]), run, boot, cfg);
      }
    case NoteCall(run, e) => AppendStepSimulates(d, s, run, e, cfg);
    case RecordCall(run, id, e) => CallStepSimulates(d, s, run, id, e);
    case RecordPrompt(run, fp, p) => PromptStepSimulates(d, s, run, fp, p);
    case Finish(_, _, _, _, _, _) => FinishSimulates(d, s, op, cfg);
    case RecordCard(card, state) => CardsMayChange(d, s, s.cards[card := Recorded(CardOf(s.cards, card), state)]);
    case AppendEvent(card, e) => AppendEventSimulates(d, s, card, e);
  }

  // ------------------------------------------------------------------------
  // Reads agree with the store's.
  // ------------------------------------------------------------------------

  lemma CacheReads(d: Db, run: string, c: Cache)
    requires CacheHolds(d, run, c)
    ensures LoadCache(d, run) == Some(c)
  {
    forall id | id in c.calls ensures ReadRow(Rows(d.calls, run)[id]) == Some(c.calls[id]) {
    }
    var rows := Rows(d.calls, run);
    assert (map id | id in rows :: ReadRow(rows[id]).GetOr(Entry("", "", Null, true, "", false))) == c.calls;
  }

  lemma {:induction false} EventsAreNumbered(table: Table<CardEvent>, events: seq<CardEvent>, n: nat, afterSeq: int)
    requires Holds(table, events) && n <= |events|
    ensures EventsFrom(table, n, afterSeq) == NumberedFrom(events[..n], 1, afterSeq)
    decreases n
  {
    if n > 0 {
      EventsAreNumbered(table, events, n - 1, afterSeq);
      assert events[..n] == events[..n - 1] + [events[n - 1]];
      NumberedOneMore(events[..n - 1], events[n - 1], 1, afterSeq);
    } else {
      assert events[..0] == [];
    }
  }

  /** Whatever is asked of the database, the answer is the represented store's. */
  lemma SqliteReads(d: Db, s: Store, run: string, limit: int, card: string, afterSeq: int)
    requires Represents(d, s)
    ensures LoadCache(d, run) == Some(CacheOf(s, run))
    ensures RecentJournal(d, run, limit) == ReadJournal(s, run, limit)
    ensures ReadEvents(d, card, afterSeq) == NumberedFrom(EventsOf(s, card), 1, afterSeq)
  {
    assert CacheHolds(d, run, CacheOf(s, run)) && JournalHolds(d, run, JournalOf(s, run));
    CacheReads(d, run, CacheOf(s, run));
    TopIsLastN(Rows(d.journal, run), JournalOf(s, run).stored, if limit < 1 then 1 else limit);
    var table, events := Rows(d.events, card), EventsOf(s, card);
    assert Holds(table, events);
    LastSeqIsLength(table, events);
    EventsAreNumbered(table, events, |events|, afterSeq);
    assert events[..|events|] == events;
  }

  /** An appended event is read back under the next number. */
  lemma AppendedEventReadsBack(d: Db, s: Store, card: string, e: CardEvent, cfg: Config)
    requires Represents(d, s)
    ensures (|EventsOf(s, card)| + 1, e) in ReadEvents(SqlStep(d, AppendEvent(card, e), cfg), card, 0)
  {
    var events := EventsOf(s, card);
    AppendEventSimulates(d, s, card, e);
    SqliteReads(SqlStep(d, AppendEvent(card, e), cfg), s.(events := s.events[card := events + [e]]), "", 1, card, 0);
    NumberedLast(events, e);
  }

  // ------------------------------------------------------------------------
  // Reopening.
  // ------------------------------------------------------------------------

  /** A new process has the tables and nothing else. */
  function Reopened(d: Db): Db {
    d.(buffers := map[], nextSeq := map[])
  }

  function WithoutBuffers(s: Store): Store {
    s.(journals := map run | run in s.journals :: Journal(s.journals[run].stored, []))
  }

  lemma ReopenedJournal(d: Db, s: Store, run: string)
    requires JournalHolds(d, run, JournalOf(s, run))
    ensures JournalHolds(Reopened(d), run, JournalOf(WithoutBuffers(s), run))
  {
  }

  /** It carries on numbering where the stored rows end. */
  lemma ReopeningKeepsTheNumbering(d: Db, s: Store)
    requires Represents(d, s)
    ensures Represents(Reopened(d), WithoutBuffers(s))
  {
    forall run: string ensures JournalHolds(Reopened(d), run, JournalOf(WithoutBuffers(s), run)) {
      ReopenedJournal(d, s, run);
    }
    forall run: string ensures CacheHolds(Reopened(d), run, CacheOf(WithoutBuffers(s), run)) {
      assert CacheHolds(d, run, CacheOf(s, run));
    }
  }

  // ------------------------------------------------------------------------
  // The store object.
  // ------------------------------------------------------------------------

  method QueryLastSeq<T(!new)>(table: Table<T>) returns (n: nat)
    ensures n == LastSeq(table)
  {
    n := 0;
    var keys := table.Keys;
    while keys != {}
      invariant keys <= table.Keys
      invariant forall k | k in table && k !in keys :: k <= n
      invariant n == 0 || n in table
      decreases |keys|
    {
      var k :| k in keys;
      if k > n {
        n := k;
      }
      keys := keys - {k};
    }
    if table != map[] {
      var top := Max(table);
      assert top <= n;
      if n > 0 {
        assert n <= top;
      }
    }
  }

  class SqliteScriptRunStore {
    const cfg: Config
    var runs: map<string, Meta>
    var journal: map<string, Table<JEvent>>
    var calls: map<string, map<int, CallRow>>
    var prompts: map<string, map<string, Prompt>>
    var cards: map<string, CardState>
    var events: map<string, Table<CardEvent>>
    var buffers: map<string, seq<(nat, JEvent)>>
    var nextSeq: map<string, nat>

    constructor (cfg: Config)
      ensures this.cfg == cfg && Now() == BLANK
    {
      this.cfg := cfg;
      runs, journal, calls, prompts, cards, events, buffers, nextSeq := map[], map[], map[], map[], map[], map[], map[], map[];
    }

    ghost function Now(): Db
      reads this
    {
      Db(runs, journal, calls, prompts, cards, events, buffers, nextSeq)
    }

    /** `_next_journal_seq_locked`: one past every row stored and buffered. */
    method NextJournalSeq(run: string) returns (n: nat)
      modifies this`nextSeq
      ensures n == NextSeq(old(Now()), run) && Now() == old(Now()).(nextSeq := old(nextSeq)[run := n])
      ensures forall j | JournalHolds(old(Now()), run, j) :: n == |j.stored| + |j.pending| + 1
    {
      if run !in nextSeq {
        var last := QueryLastSeq(Rows(journal, run));
        nextSeq := nextSeq[run := last];
      }
      n := nextSeq[run] + 1;
      nextSeq := nextSeq[run := n];
      assert nextSeq == old(nextSeq)[run := n];
      forall j | JournalHolds(old(Now()), run, j) ensures n == |j.stored| + |j.pending| + 1 {
        SeqIsNext(old(Now()), run, j);
      }
    }

    method WriteJournalRows(run: string, rows: seq<(nat, JEvent)>)
      modifies this`journal
      ensures Now() == WriteRows(old(Now()), run, rows)
    {
      var table := Rows(journal, run);
      var i := 0;
      while i < |rows|
        invariant 0 <= i <= |rows|
        invariant table == InsertAll(Rows(journal, run), rows[..i])
      {
        assert rows[..i + 1][..i] == rows[..i];
        table := table[rows[i].0 := rows[i].1];
        i := i + 1;
      }
      assert rows[..|rows|] == rows;
      journal := journal[run := table];
    }

    method FlushJournalLocked(run: string)
      modifies this`journal, this`buffers
      ensures Now() == FlushJournal(old(Now()), run)
    {
      var pending := BufferIn(run);
      if pending != [] {
        WriteJournalRows(run, pending);
        buffers := buffers - {run};
      }
    }

    function BufferIn(run: string): (b: seq<(nat, JEvent)>)
      reads this
      ensures b == BufferOf(Now(), run)
    {
      if run in buffers then buffers[run] else []
    }

    method AppendJournalLocked(run: string, e: JEvent)
      modifies this`journal, this`buffers, this`nextSeq
      ensures Now() == AppendJournal(old(Now()), run, e, cfg)
    {
      var n := NextJournalSeq(run);
      if cfg.mode == Sync {
        WriteJournalRows(run, [(n, e)]);
        return;
      }
      buffers := buffers[run := BufferIn(run) + [(n, e)]];
      if cfg.mode == Async && |buffers[run]| >= cfg.flushEvery {
        FlushJournalLocked(run);
      }
    }

    method FinishRun(op: Op)
      requires op.Finish?
      modifies this`runs, this`journal, this`buffers, this`nextSeq
      ensures Now() == SqlStep(old(Now()), op, cfg)
    {
      var record := if op.run in runs then runs[op.run] else Meta("", "", Null, false, None, "running", Null, Null, Null);
      runs := runs[op.run := Terminal(record, op)];
      AppendJournalLocked(op.run, op.done);
      FlushJournalLocked(op.run);
    }

    /** `append_kanban_event`: the position is assigned inside the transaction. */
    method AppendKanbanEvent(card: string, e: CardEvent) returns (seqno: nat)
      modifies this`events
      ensures Now() == SqlStep(old(Now()), AppendEvent(card, e), cfg)
      ensures seqno == LastSeq(Rows(old(events), card)) + 1
    {
      var table := Rows(events, card);
      var last := QueryLastSeq(table);
      seqno := last + 1;
      events := events[card := table[seqno := e]];
    }

    /** The cache writes refuse a key that is already there. */
    method Record(run: string, id: int, e: Entry) returns (ok: bool)
      modifies this`calls
      ensures ok <==> id !in Rows(old(calls), run)
      ensures Now() == if ok then SqlStep(old(Now()), RecordCall(run, id, e), cfg) else old(Now())
    {
      var rows := Rows(calls, run);
      ok := id !in rows;
      if ok {
        calls := calls[run := rows[id := RowOf(e)]];
      }
    }
  }
}
