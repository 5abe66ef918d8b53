/** The two backends give the same answers: over any crash-free sequence of calls
    that both accept, each represents the same store. */
module Backends {
  import EventLog
  import FileStore
  import opened Json
  import opened Store
  import SqliteStore

  ghost function FileAfter(d: FileStore.Disk, ops: seq<Op>, cfg: Config): FileStore.Disk
    decreases ops
  {
    if ops == [] then d else FileAfter(FileStore.FileStep(d, ops[0], cfg), ops[1..], cfg)
  }

  ghost function SqlAfter(d: SqliteStore.Db, ops: seq<Op>, cfg: Config): SqliteStore.Db
    decreases ops
  {
    if ops == [] then d else SqlAfter(SqliteStore.SqlStep(d, ops[0], cfg), ops[1..], cfg)
  }

  lemma {:induction false} RunsSimulate(f: FileStore.Disk, q: SqliteStore.Db, s: Store, ops: seq<Op>, cfg: Config)
    requires FileStore.Represents(f, s, cfg) && SqliteStore.Represents(q, s) && NoSyncBuffer(s, cfg)
    requires LegalRun(s, ops, cfg)
    ensures FileStore.Represents(FileAfter(f, ops, cfg), After(s, ops, cfg), cfg)
    ensures SqliteStore.Represents(SqlAfter(q, ops, cfg), After(s, ops, cfg))
    decreases ops
  {
    if ops != [] {
      FileStore.FileSimulates(f, s, ops[0], cfg);
      SqliteStore.SqliteSimulates(q, s, ops[0], cfg);
      StepTells(s, ops[0], cfg, "");
      RunsSimulate(FileStore.FileStep(f, ops[0], cfg), SqliteStore.SqlStep(q, ops[0], cfg), Step(s, ops[0], cfg), ops[1..], cfg);
    }
  }

  function FileJournal(f: FileStore.Disk, run: string, limit: int): seq<JEvent> {
    LastN(FileStore.Of(f.lines, run), if limit < 1 then 1 else limit)
  }

  ghost function FileEvents(f: FileStore.Disk, card: string, afterSeq: int, cfg: Config): seq<(nat, CardEvent)> {
    EventLog.Past(EventLog.Read(cfg.codec, FileStore.Of(f.logs, card)), afterSeq)
  }

  /** Runs, caches, journals, cards, waits and card events: whatever is read after
      the same calls, both backends give the same answer, and it is the store's. */
  lemma BackendsAgree(ops: seq<Op>, cfg: Config, run: string, limit: int, card: string, afterSeq: int)
    requires LegalRun(EMPTY, ops, cfg)
    ensures var f, q, s := FileAfter(FileStore.BLANK, ops, cfg), SqlAfter(SqliteStore.BLANK, ops, cfg), After(EMPTY, ops, cfg);
            && f.metas == q.runs == s.runs
            && f.cards == q.cards == s.cards && Waits(f.cards) == Waits(q.cards)
            && FileStore.ReadLines(FileStore.Of(f.cacheLines, run)) == SqliteStore.LoadCache(q, run) == Some(CacheOf(s, run))
            && FileJournal(f, run, limit) == SqliteStore.RecentJournal(q, run, limit) == ReadJournal(s, run, limit)
            && FileEvents(f, card, afterSeq, cfg) == SqliteStore.ReadEvents(q, card, afterSeq) == NumberedFrom(EventsOf(s, card), 1, afterSeq)
  {
    FileStore.BlankIsEmpty(cfg);
    SqliteStore.BlankIsEmpty();
    RunsSimulate(FileStore.BLANK, SqliteStore.BLANK, EMPTY, ops, cfg);
    var f, q, s := FileAfter(FileStore.BLANK, ops, cfg), SqlAfter(SqliteStore.BLANK, ops, cfg), After(EMPTY, ops, cfg);
    SqliteStore.SqliteReads(q, s, run, limit, card, afterSeq);
    FileStore.FileReadsEvents(f, s, card, afterSeq, cfg);
    assert JournalOf(s, run) == Journal(FileStore.Of(f.lines, run), FileStore.Of(f.buffers, run));
    assert FileStore.ReadLines(FileStore.Of(f.cacheLines, run)) == Some(CacheOf(s, run));
  }

  lemma JournalsAgree(ops: seq<Op>, cfg: Config, run: string, limit: int)
    requires LegalRun(EMPTY, ops, cfg)
    ensures FileJournal(FileAfter(FileStore.BLANK, ops, cfg), run, limit)
            == SqliteStore.RecentJournal(SqlAfter(SqliteStore.BLANK, ops, cfg), run, limit)
            == ReadJournal(After(EMPTY, ops, cfg), run, limit)
  {
    BackendsAgree(ops, cfg, run, limit, "", 0);
  }

  lemma FinishedJournalIsWhole(ops: seq<Op>, cfg: Config, run: string, i: nat)
    requires LegalRun(EMPTY, ops, cfg) && FinishedAt(ops, run, i)
    ensures JournalOf(After(EMPTY, ops, cfg), run).stored == Journaled(EMPTY, ops, cfg, run)
  {
    NothingIsDropped(EMPTY, ops, cfg, run);
    FinishedJournalsAreStored(EMPTY, ops, cfg, run, i);
    assert [] + Journaled(EMPTY, ops, cfg, run) == Journaled(EMPTY, ops, cfg, run);
    var j := JournalOf(After(EMPTY, ops, cfg), run);
    assert Whole(j) == j.stored;
  }

  /** What a finished run's journal is, in one mode and from either backend: all
      it was told, once it was finished and nothing journals to it any more. */
  lemma FinishedRunsReadBackWhole(ops: seq<Op>, cfg: Config, run: string, i: nat, limit: int)
    requires LegalRun(EMPTY, ops, cfg) && FinishedAt(ops, run, i)
    ensures FileJournal(FileAfter(FileStore.BLANK, ops, cfg), run, limit)
            == SqliteStore.RecentJournal(SqlAfter(SqliteStore.BLANK, ops, cfg), run, limit)
            == LastN(Journaled(EMPTY, ops, cfg, run), if limit < 1 then 1 else limit)
  {
    JournalsAgree(ops, cfg, run, limit);
    FinishedJournalIsWhole(ops, cfg, run, i);
  }

  /** On either backend, the record of a run says what its first `begin` and its last
      `finish` said, field by field, whatever other calls there were. */
  lemma FinishedRunsLoadAsFinished(ops: seq<Op>, cfg: Config, run: string, b: nat, f: nat)
    requires LegalRun(EMPTY, ops, cfg) && b < |ops| && f < |ops|
    requires Begins(ops[b], run) && forall j | 0 <= j < b :: !Begins(ops[j], run)
    requires Finishes(ops[f], run) && forall j | f < j < |ops| :: !Finishes(ops[j], run)
    ensures var onFile, inDb := FileAfter(FileStore.BLANK, ops, cfg).metas, SqlAfter(SqliteStore.BLANK, ops, cfg).runs;
            && run in onFile && run in inDb && onFile[run] == inDb[run]
            && var m, begun, ended := onFile[run], ops[b].record, ops[f];
               && m.status == ended.status && m.meta == ended.meta && m.value == ended.value && m.error == ended.error
               && m.script == begun.script && m.args == begun.args && m.limits == begun.limits
               && m.deterministic == begun.deterministic && m.replayOf == begun.replayOf
  {
    BackendsAgree(ops, cfg, run, 1, "", 0);
    FirstBeginStands(EMPTY, ops, cfg, run, b);
    LastFinishStands(EMPTY, ops, cfg, run, f);
  }

  /** And the record of a run that was not finished is the one it was begun with. */
  lemma UnfinishedRunsLoadAsBegun(ops: seq<Op>, cfg: Config, run: string, b: nat)
    requires LegalRun(EMPTY, ops, cfg) && b < |ops| && Begins(ops[b], run)
    requires forall j | 0 <= j < b :: !Begins(ops[j], run)
    requires forall j | 0 <= j < |ops| :: !Finishes(ops[j], run)
    ensures var onFile, inDb := FileAfter(FileStore.BLANK, ops, cfg).metas, SqlAfter(SqliteStore.BLANK, ops, cfg).runs;
            run in onFile && run in inDb && onFile[run] == inDb[run] == ops[b].record
  {
    BackendsAgree(ops, cfg, run, 1, "", 0);
    FirstBeginStands(EMPTY, ops, cfg, run, b);
  }

  /** The durability modes agree on every run that was finished and is not
      journaled to any more, wherever in the calls its `finish` was. */
  lemma ModesAgreeOnFinishedRuns(ops: seq<Op>, x: Config, y: Config, run: string, i: nat, limit: int)
    requires x.codec == y.codec && LegalRun(EMPTY, ops, x) && FinishedAt(ops, run, i)
    ensures LegalRun(EMPTY, ops, y)
    ensures SqliteStore.RecentJournal(SqlAfter(SqliteStore.BLANK, ops, x), run, limit)
            == SqliteStore.RecentJournal(SqlAfter(SqliteStore.BLANK, ops, y), run, limit)
    ensures FileJournal(FileAfter(FileStore.BLANK, ops, x), run, limit) == FileJournal(FileAfter(FileStore.BLANK, ops, y), run, limit)
  {
    ModesAgree(EMPTY, EMPTY, ops, x, y);
    FinishedRunsReadBackWhole(ops, x, run, i, limit);
    FinishedRunsReadBackWhole(ops, y, run, i, limit);
    JournaledAlike(EMPTY, EMPTY, ops, x, y, run);
  }

  /** What a run is told does not depend on the mode. */
  lemma {:induction false} JournaledAlike(a: Store, b: Store, ops: seq<Op>, x: Config, y: Config, run: string)
    requires SameButBuffers(a, b) && NoSyncBuffer(a, x) && NoSyncBuffer(b, y) && x.codec == y.codec
    requires LegalRun(a, ops, x) && LegalRun(b, ops, y)
    ensures Journaled(a, ops, x, run) == Journaled(b, ops, y, run)
    decreases ops
  {
    if ops != [] {
      StepsAgree(a, b, ops[0], x, y);
      JournaledAlike(Step(a, ops[0], x), Step(b, ops[0], y), ops[1..], x, y, run);
    }
  }

  /** Outside distinct call ids they part ways: the file backend writes the second
      record and its cache can no longer be loaded, the database refuses it. */
  lemma DuplicateIdsPoisonTheFileCache(d: FileStore.Disk, s: Store, run: string, id: int, e: Entry, cfg: Config)
    requires FileStore.Represents(d, s, cfg)
    ensures FileStore.ReadLines(FileStore.Of(FileStore.AddLine(d, run, FileStore.LineOf(id, e)).cacheLines, run)).None?
            <==> id in CacheOf(s, run).calls || (!e.ok && e.code == "")
  {
    assert FileStore.ReadLines(FileStore.Of(d.cacheLines, run)) == Some(CacheOf(s, run));
    FileStore.RecordSimulates(d, run, CacheOf(s, run), FileStore.LineOf(id, e));
    FileStore.LineIsPoisonExactlyWhen(CacheOf(s, run), id, e);
  }

  /** And outside separator-free text: the database gives the event back under
      its number, the text log exactly when the text has no separator. */
  lemma SeparatorsHideEventsFromTheFileStore(d: FileStore.Disk, q: SqliteStore.Db, s: Store, card: string, e: CardEvent, cfg: Config)
    requires EventLog.CodesOk(cfg.codec, e) && FileStore.Represents(d, s, cfg) && SqliteStore.Represents(q, s)
    ensures var item, op := (|EventsOf(s, card)| + 1, e), AppendEvent(card, e);
            && item in SqliteStore.ReadEvents(SqliteStore.SqlStep(q, op, cfg), card, 0)
            && (item in FileEvents(FileStore.FileStep(d, op, cfg), card, 0, cfg) <==> EventLog.SeparatorFree(cfg.codec.encode(e)))
  {
    SqliteStore.AppendedEventReadsBack(q, s, card, e, cfg);
    FileStore.AppendedEventReadsBackExactlyWhen(d, s, card, e, cfg);
  }
}
