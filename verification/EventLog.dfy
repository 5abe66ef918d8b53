/** The durable Kanban event log (script_store.py): an append-only text file
    that survives appends cut short at any character.

    The file is its text. JSON is an abstract codec: the encoding of an event that
    is written has no newline, decodes to it, and has no decodable proper prefix. Appends count
    newlines; readers use `str.splitlines`, which also ends a line at other
    characters, so what the log promises depends on the text being free of them. */
module EventLog {
  import opened Json

  datatype Codec<!E> = Codec(encode: E -> string, decode: string -> Option<E>)

  /** Characters that end a line for `str.splitlines` but not for the appender. */
  predicate IsOtherSeparator(c: char) {
    c == '\U{0085}' || c == '\U{2028}' || c == '\U{2029}'
  }

  /** JSON escapes every other line-ending character. */
  predicate EndsLine(c: char) {
    c == '\n' || IsOtherSeparator(c)
  }

  predicate NewlineFree(s: string) {
    forall i | 0 <= i < |s| :: s[i] != '\n'
  }

  predicate SeparatorFree(s: string) {
    forall i | 0 <= i < |s| :: !EndsLine(s[i])
  }

  /** The codec is right about one event; nothing is asked of it for events that
      are never written. */
  ghost predicate CodesOk<E>(codec: Codec<E>, e: E) {
    && NewlineFree(codec.encode(e)) && codec.encode(e) != ""
    && codec.decode(codec.encode(e)) == Some(e)
    && (forall n | 0 <= n < |codec.encode(e)| :: codec.decode(codec.encode(e)[..n]) == None)
  }

  // ------------------------------------------------------------------------
  // The appender's view and the reader's view.
  // ------------------------------------------------------------------------

  /** The text ends in the middle of a line. */
  predicate Open(text: string) {
    text != "" && text[|text| - 1] != '\n'
  }

  function Newlines(text: string): nat {
    if text == "" then 0 else Newlines(text[..|text| - 1]) + if text[|text| - 1] == '\n' then 1 else 0
  }

  /** `_event_log_shape`: physical lines, by newlines. */
  function LineCount(text: string): nat {
    Newlines(text) + if Open(text) then 1 else 0
  }

  function Prefix(text: string): string {
    if Open(text) then "\n" else ""
  }

  /** What one append writes. */
  function Chunk(text: string, line: string): string {
    Prefix(text) + line + "\n"
  }

  function FirstEnd(text: string): (k: nat)
    ensures k <= |text|
    ensures k < |text| ==> EndsLine(text[k])
    ensures SeparatorFree(text[..k])
  {
    if text == "" || EndsLine(text[0]) then 0
    else
      var k := 1 + FirstEnd(text[1..]);
      assert text[..k] == [text[0]] + text[1..][..k - 1];
      k
  }

  /** `str.splitlines`. */
  function Lines(text: string): seq<string>
    decreases |text|
  {
    if text == "" then []
    else
      var k := FirstEnd(text);
      if k == |text| then [text] else [text[..k]] + Lines(text[k + 1..])
  }

  /** What a reader gets from the lines: the events that decode, with their line numbers. */
  function Decoded<E>(codec: Codec<E>, lines: seq<string>): seq<(nat, E)> {
    if lines == [] then []
    else
      var n := |lines|;
      var e := codec.decode(lines[n - 1]);
      Decoded(codec, lines[..n - 1]) + if e.Some? then [(n, e.value)] else []
  }

  function Past<E>(events: seq<(nat, E)>, seqno: int): seq<(nat, E)> {
    if events == [] then []
    else
      var e := events[|events| - 1];
      Past(events[..|events| - 1], seqno) + if e.0 > seqno then [e] else []
  }

  function Read<E>(codec: Codec<E>, text: string): seq<(nat, E)> {
    Decoded(codec, Lines(text))
  }

  // ------------------------------------------------------------------------
  // Lines of concatenated text.
  // ------------------------------------------------------------------------

  lemma FirstEndIs(text: string, k: nat)
    requires k <= |text| && SeparatorFree(text[..k]) && (k < |text| ==> EndsLine(text[k]))
    ensures FirstEnd(text) == k
  {
    var j := FirstEnd(text);
    assert forall i | 0 <= i < k :: text[..k][i] == text[i];
    assert forall i | 0 <= i < j :: text[..j][i] == text[i];
  }

  lemma OneLine(s: string)
    requires s != "" && SeparatorFree(s)
    ensures Lines(s) == [s] && Lines(s + "\n") == [s]
  {
    assert s[..|s|] == s;
    FirstEndIs(s, |s|);
    var t := s + "\n";
    assert t[..|s|] == s;
    FirstEndIs(t, |s|);
    assert t[|s| + 1..] == "";
  }

  /** A line that ends does not depend on what follows. */
  lemma FirstEndIsLocal(a: string, b: string)
    requires FirstEnd(a) < |a|
    ensures var k := FirstEnd(a);
            FirstEnd(a + b) == k && (a + b)[..k] == a[..k] && (a + b)[k + 1..] == a[k + 1..] + b
  {
    var k := FirstEnd(a);
    assert (a + b)[..k] == a[..k];
    FirstEndIs(a + b, k);
  }

  lemma EndedIsNotFree(a: string)
    requires a != "" && EndsLine(a[|a| - 1])
    ensures !SeparatorFree(a)
  {
  }

  lemma EndedHasFirstEnd(a: string)
    requires a != "" && EndsLine(a[|a| - 1])
    ensures FirstEnd(a) < |a|
    ensures var rest := a[FirstEnd(a) + 1..]; rest == "" || rest[|rest| - 1] == a[|a| - 1]
  {
    EndedIsNotFree(a);
    assert a[..|a|] == a;
  }

  lemma LinesStep(text: string, k: nat, rest: string)
    requires FirstEnd(text) == k < |text| && text[k + 1..] == rest
    ensures Lines(text) == [text[..k]] + Lines(rest)
  {
  }

  lemma Regroup(x: seq<string>, y: seq<string>, z: seq<string>)
    ensures x + (y + z) == x + y + z
  {
  }

  /** Text after a line end starts on a line of its own. */
  lemma {:induction false} LinesAfterEnd(a: string, b: string)
    requires a == "" || EndsLine(a[|a| - 1])
    ensures Lines(a + b) == Lines(a) + Lines(b)
    decreases |a|
  {
    if a == "" {
      assert a + b == b;
    } else {
      EndedHasFirstEnd(a);
      var k, rest := FirstEnd(a), a[FirstEnd(a) + 1..];
      assert Lines(a) == [a[..k]] + Lines(rest) by {
        LinesStep(a, k, rest);
      }
      assert Lines(a + b) == [a[..k]] + Lines(rest + b) by {
        FirstEndIsLocal(a, b);
        LinesStep(a + b, k, rest + b);
      }
      LinesAfterEnd(rest, b);
      Regroup([a[..k]], Lines(rest), Lines(b));
    }
  }

  lemma OpenHasRest(a: string)
    requires a != "" && !EndsLine(a[|a| - 1]) && FirstEnd(a) < |a|
    ensures var rest := a[FirstEnd(a) + 1..]; rest != "" && rest[|rest| - 1] == a[|a| - 1]
  {
  }

  /** A newline closes an open line without adding one. */
  lemma {:induction false} NewlineCloses(a: string)
    requires a != "" && !EndsLine(a[|a| - 1])
    ensures Lines(a + "\n") == Lines(a)
    decreases |a|
  {
    var k := FirstEnd(a);
    if k == |a| {
      OneLine(a) by {
        assert a[..k] == a;
      }
    } else {
      OpenHasRest(a);
      FirstEndIsLocal(a, "\n");
      var rest := a[k + 1..];
      NewlineCloses(rest);
      LinesStep(a, k, rest);
      LinesStep(a + "\n", k, rest + "\n");
    }
  }

  lemma {:induction false} NewlinesAppend(a: string, b: string)
    ensures Newlines(a + b) == Newlines(a) + Newlines(b)
  {
    if b == "" {
      assert a + b == a;
    } else {
      NewlinesAppend(a, b[..|b| - 1]);
      assert (a + b)[..|a + b| - 1] == a + b[..|b| - 1];
    }
  }

  lemma {:induction false} NoNewlines(s: string)
    requires NewlineFree(s)
    ensures Newlines(s) == 0
  {
    if s != "" {
      NoNewlines(s[..|s| - 1]);
    }
  }

  lemma OneNewline()
    ensures Newlines("\n") == 1
  {
    assert "\n"[..0] == "";
  }

  /** The lines a line with separators falls into: at least one, and exactly
      itself only when it has none. */
  lemma {:induction false} PiecesOfALine(s: string)
    requires s != ""
    ensures |Lines(s)| >= 1
    ensures Lines(s) == [s] <==> SeparatorFree(s)
    ensures |Lines(s)| == 1 && !EndsLine(s[|s| - 1]) ==> SeparatorFree(s)
    decreases |s|
  {
    var k := FirstEnd(s);
    if k == |s| {
      assert s[..k] == s;
    } else {
      assert Lines(s)[0] == s[..k] && |s[..k]| < |s|;
      if k + 1 < |s| {
        PiecesOfALine(s[k + 1..]);
      }
    }
  }

  // ------------------------------------------------------------------------
  // One append, complete or torn.
  // ------------------------------------------------------------------------

  /** Where the appender's count and the reader's lines agree. */
  ghost predicate Aligned(text: string) {
    && LineCount(text) == |Lines(text)|
    && (Open(text) ==> !EndsLine(text[|text| - 1]))
  }

  /** After its prefix the text is at a line start, for both views. */
  lemma PrefixClosesLine(text: string)
    requires Aligned(text)
    ensures var t := text + Prefix(text);
            !Open(t) && Lines(t) == Lines(text) && LineCount(t) == LineCount(text)
  {
    if Open(text) {
      NewlineCloses(text);
      NewlinesAppend(text, "\n");
      OneNewline();
    } else {
      assert text + "" == text;
    }
  }

  /** Some of a line, at a line start. */
  lemma PartOfALine(t: string, part: string)
    requires !Open(t) && Aligned(t) && SeparatorFree(part) && part != ""
    ensures Lines(t + part) == Lines(t) + [part] && Aligned(t + part)
    ensures Lines(t + part + "\n") == Lines(t) + [part] && Aligned(t + part + "\n")
  {
    OneLine(part);
    LinesAfterEnd(t, part);
    LinesAfterEnd(t, part + "\n");
    assert t + (part + "\n") == t + part + "\n";
    PartCounts(t, part);
  }

  lemma PartCounts(t: string, part: string)
    requires !Open(t) && SeparatorFree(part) && part != ""
    ensures LineCount(t + part) == LineCount(t) + 1 && Open(t + part)
    ensures LineCount(t + part + "\n") == LineCount(t) + 1 && !Open(t + part + "\n")
    ensures !EndsLine((t + part)[|t + part| - 1])
  {
    NewlinesAppend(t, part);
    NoNewlines(part);
    NewlinesAppend(t + part, "\n");
    OneNewline();
    assert (t + part)[|t + part| - 1] == part[|part| - 1];
  }

  /** Operations on a log: an append that completed, or one cut after `n` characters. */
  datatype Op<+E> = Append(e: E) | Torn(e: E, n: nat)

  predicate ValidOp<E>(codec: Codec<E>, text: string, op: Op<E>) {
    op.Torn? ==> op.n < |Chunk(text, codec.encode(op.e))|
  }

  function Written<E>(codec: Codec<E>, text: string, op: Op<E>): string
    requires ValidOp(codec, text, op)
  {
    var chunk := Chunk(text, codec.encode(op.e));
    if op.Torn? then chunk[..op.n] else chunk
  }

  /** Everything but the final newline made it. */
  predicate Complete<E>(codec: Codec<E>, text: string, op: Op<E>) {
    op.Append? || op.n == |Chunk(text, codec.encode(op.e))| - 1
  }

  /** An event that reads back from its line, which has no separator. */
  ghost predicate LineOk<E>(codec: Codec<E>, e: E) {
    CodesOk(codec, e) && SeparatorFree(codec.encode(e))
  }

  /** The line of the `n`-th of some events: `n` marks and an end. */
  function Tally(n: nat): (line: string)
    ensures |line| == n + 1 && line[n] == ';' && forall i | 0 <= i < n :: line[i] == '1'
  {
    seq(n + 1, i => if i < n then '1' else ';')
  }

  ghost function IndexIn<E>(events: seq<E>, e: E): (i: nat)
    ensures i <= |events| && (e in events ==> i < |events| && events[i] == e)
  {
    if events == [] || events[0] == e then 0 else 1 + IndexIn(events[1..], e)
  }

  function Untally<E>(events: seq<E>, line: string): Option<E> {
    if line != "" && line == Tally(|line| - 1) && |line| <= |events| then Some(events[|line| - 1]) else None
  }

  /** Whatever events a history is made of, there is a codec right about them. */
  lemma CodecsExist<E>(events: seq<E>) returns (codec: Codec<E>)
    ensures forall e | e in events :: LineOk(codec, e)
  {
    codec := Codec((e: E) => Tally(IndexIn(events, e)), (line: string) => Untally(events, line));
    forall e | e in events ensures LineOk(codec, e) {
      var i := IndexIn(events, e);
      forall n | 0 <= n < |Tally(i)| ensures Untally(events, Tally(i)[..n]) == None {
        if n > 0 {
          assert Tally(i)[..n][n - 1] == '1' && Tally(n - 1)[n - 1] == ';';
        }
      }
    }
  }

  lemma ChunkSplits(text: string, line: string)
    ensures text + Chunk(text, line) == text + Prefix(text) + line + "\n"
  {
  }

  lemma CompletedOperation<E>(codec: Codec<E>, text: string, e: E)
    requires Aligned(text) && LineOk(codec, e)
    ensures var after := text + Chunk(text, codec.encode(e));
            Aligned(after) && Read(codec, after) == Read(codec, text) + [(LineCount(text) + 1, e)]
  {
    var line := codec.encode(e);
    PrefixClosesLine(text);
    PartOfALine(text + Prefix(text), line);
    ChunkSplits(text, line);
    DecodedOneMore(codec, Lines(text), line);
  }

  /** A tear inside the line: a last line that decodes only if it is all there. */
  lemma TornLine<E>(codec: Codec<E>, text: string, e: E, n: nat)
    requires Aligned(text) && LineOk(codec, e) && 0 < n <= |codec.encode(e)|
    ensures var after := text + Prefix(text) + codec.encode(e)[..n];
            && Aligned(after)
            && Read(codec, after) == Read(codec, text) + if n == |codec.encode(e)| then [(LineCount(text) + 1, e)] else []
  {
    var line := codec.encode(e);
    var part := line[..n];
    PrefixClosesLine(text);
    PartOfALine(text + Prefix(text), part);
    DecodedOneMore(codec, Lines(text), part);
    if n == |line| {
      assert part == line;
    }
  }

  /** One operation adds exactly its own event, at the position the appender
      computed, if its line is complete, and nothing otherwise. */
  lemma OneOperation<E(!new)>(codec: Codec<E>, text: string, op: Op<E>)
    requires Aligned(text) && ValidOp(codec, text, op) && LineOk(codec, op.e)
    ensures var after := text + Written(codec, text, op);
            && Aligned(after)
            && Read(codec, after) == Read(codec, text) + if Complete(codec, text, op) then [(LineCount(text) + 1, op.e)] else []
  {
    var line, prefix := codec.encode(op.e), Prefix(text);
    if op.Append? {
      CompletedOperation(codec, text, op.e);
    } else {
      TornSplits(text, line, op.n);
      if op.n > |prefix| {
        TornLine(codec, text, op.e, op.n - |prefix|);
      } else {
        PrefixClosesLine(text);
      }
    }
  }

  /** What a tear leaves: nothing, the closing newline, or that and part of the line. */
  lemma TornSplits(text: string, line: string, n: nat)
    requires n < |Chunk(text, line)|
    ensures var after := text + Chunk(text, line)[..n];
            && (n == 0 ==> after == text)
            && (n == |Prefix(text)| ==> after == text + Prefix(text))
            && (n > |Prefix(text)| ==> after == text + Prefix(text) + line[..n - |Prefix(text)|])
  {
    var prefix := Prefix(text);
    if n > |prefix| {
      assert Chunk(text, line)[..n] == prefix + line[..n - |prefix|];
    } else if n == |prefix| {
      assert Chunk(text, line)[..n] == prefix;
    }
  }

  lemma DecodedOneMore<E>(codec: Codec<E>, lines: seq<string>, line: string)
    ensures Decoded(codec, lines + [line]) ==
            Decoded(codec, lines) + if codec.decode(line).Some? then [(|lines| + 1, codec.decode(line).value)] else []
  {
    assert (lines + [line])[..|lines|] == lines;
  }

  // ------------------------------------------------------------------------
  // Whole histories.
  // ------------------------------------------------------------------------

  ghost predicate History<E>(codec: Codec<E>, ops: seq<Op<E>>)
    decreases |ops|, 0
  {
    ops == [] ||
    (&& History(codec, ops[..|ops| - 1])
     && ValidOp(codec, TextOf(codec, ops[..|ops| - 1]), ops[|ops| - 1])
     && LineOk(codec, ops[|ops| - 1].e))
  }

  ghost function TextOf<E>(codec: Codec<E>, ops: seq<Op<E>>): string
    requires History(codec, ops)
    decreases |ops|, 1
  {
    if ops == [] then ""
    else
      var text := TextOf(codec, ops[..|ops| - 1]);
      text + Written(codec, text, ops[|ops| - 1])
  }

  /** The `seq` an append at this point of the history returns. */
  ghost function ReturnedSeq<E>(codec: Codec<E>, ops: seq<Op<E>>): nat
    requires History(codec, ops)
  {
    LineCount(TextOf(codec, ops)) + 1
  }

  /** What was durably said: each complete line, at the position its appender computed. */
  ghost function Expected<E>(codec: Codec<E>, ops: seq<Op<E>>): seq<(nat, E)>
    requires History(codec, ops)
    decreases |ops|
  {
    if ops == [] then []
    else
      var before := ops[..|ops| - 1];
      var op := ops[|ops| - 1];
      Expected(codec, before) + if Complete(codec, TextOf(codec, before), op) then [(ReturnedSeq(codec, before), op.e)] else []
  }

  /** The main theorem: under any mix of completed and torn appends, a reader
      gets exactly the complete lines, each at the position its appender was told. */
  lemma {:induction false} TornWritesHarmOnlyThemselves<E(!new)>(codec: Codec<E>, ops: seq<Op<E>>)
    requires History(codec, ops)
    ensures Aligned(TextOf(codec, ops))
    ensures Read(codec, TextOf(codec, ops)) == Expected(codec, ops)
    decreases |ops|
  {
    if ops != [] {
      var before := ops[..|ops| - 1];
      TornWritesHarmOnlyThemselves(codec, before);
      OneOperation(codec, TextOf(codec, before), ops[|ops| - 1]);
    }
  }

  lemma {:induction false} ExpectedGrows<E(!new)>(codec: Codec<E>, ops: seq<Op<E>>, n: nat)
    requires History(codec, ops) && n <= |ops|
    ensures History(codec, ops[..n]) && Expected(codec, ops[..n]) <= Expected(codec, ops)
    decreases |ops|
  {
    if n == |ops| {
      assert ops[..n] == ops;
    } else {
      ExpectedGrows(codec, ops[..|ops| - 1], n);
      assert ops[..|ops| - 1][..n] == ops[..n];
    }
  }

  /** A completed append is read back, forever, at exactly the `seq` it returned. */
  lemma CompletedAppendsStay<E(!new)>(codec: Codec<E>, ops: seq<Op<E>>, i: nat)
    requires History(codec, ops) && i < |ops| && ops[i].Append?
    ensures History(codec, ops[..i])
    ensures (ReturnedSeq(codec, ops[..i]), ops[i].e) in Read(codec, TextOf(codec, ops))
  {
    ExpectedGrows(codec, ops, i);
    CompletedAppendsAreExpected(codec, ops, i);
    TornWritesHarmOnlyThemselves(codec, ops);
  }

  lemma CompletedAppendsAreExpected<E(!new)>(codec: Codec<E>, ops: seq<Op<E>>, i: nat)
    requires History(codec, ops) && i < |ops| && ops[i].Append? && History(codec, ops[..i])
    ensures (ReturnedSeq(codec, ops[..i]), ops[i].e) in Expected(codec, ops)
  {
    ExpectedGrows(codec, ops, i + 1);
    var upTo := ops[..i + 1];
    assert upTo[..i] == ops[..i] && upTo[i] == ops[i];
    AppendIsExpected(codec, upTo);
  }

  lemma AppendIsExpected<E>(codec: Codec<E>, ops: seq<Op<E>>)
    requires History(codec, ops) && ops != [] && ops[|ops| - 1].Append?
    ensures (ReturnedSeq(codec, ops[..|ops| - 1]), ops[|ops| - 1].e) in Expected(codec, ops)
  {
    var item := (ReturnedSeq(codec, ops[..|ops| - 1]), ops[|ops| - 1].e);
    var before := Expected(codec, ops[..|ops| - 1]);
    assert Expected(codec, ops) == before + [item];
    assert (before + [item])[|before|] == item;
  }

  /** No event is read that nobody tried to append. */
  lemma NothingIsInvented<E(!new)>(codec: Codec<E>, ops: seq<Op<E>>, item: (nat, E))
    requires History(codec, ops)
    requires item in Read(codec, TextOf(codec, ops))
    ensures exists i | 0 <= i < |ops| :: Attempted(codec, ops, i, item)
  {
    TornWritesHarmOnlyThemselves(codec, ops);
    ExpectedWasAttempted(codec, ops, item);
  }

  ghost predicate Attempted<E>(codec: Codec<E>, ops: seq<Op<E>>, i: nat, item: (nat, E))
    requires i < |ops|
  {
    ops[i].e == item.1 && History(codec, ops[..i]) && item.0 == ReturnedSeq(codec, ops[..i])
  }

  lemma AttemptedEarlier<E>(codec: Codec<E>, ops: seq<Op<E>>, i: nat, item: (nat, E))
    requires i < |ops| - 1 && Attempted(codec, ops[..|ops| - 1], i, item)
    ensures Attempted(codec, ops, i, item)
  {
    assert ops[..|ops| - 1][..i] == ops[..i];
  }

  lemma {:induction false} ExpectedWasAttempted<E(!new)>(codec: Codec<E>, ops: seq<Op<E>>, item: (nat, E))
    requires History(codec, ops) && item in Expected(codec, ops)
    ensures exists i | 0 <= i < |ops| :: Attempted(codec, ops, i, item)
    decreases |ops|
  {
    var before := ops[..|ops| - 1];
    if item in Expected(codec, before) {
      ExpectedWasAttempted(codec, before, item);
      var i :| 0 <= i < |before| && Attempted(codec, before, i, item);
      AttemptedEarlier(codec, ops, i, item);
    } else {
      assert Attempted(codec, ops, |before|, item);
    }
  }

  // ------------------------------------------------------------------------
  // Where the promise ends.
  // ------------------------------------------------------------------------

  lemma {:induction false} NeverFewerLines(text: string)
    ensures |Lines(text)| >= LineCount(text)
    decreases |text|
  {
    if text != "" {
      var k := FirstEnd(text);
      if k == |text| {
        assert text[..k] == text;
        NoNewlines(text);
      } else {
        NeverFewerLines(text[k + 1..]);
        assert text == text[..k] + [text[k]] + text[k + 1..];
        NewlinesAppend(text[..k] + [text[k]], text[k + 1..]);
        NewlinesAppend(text[..k], [text[k]]);
        NoNewlines(text[..k]);
        assert [text[k]][..0] == "";
        assert Newlines([text[k]]) <= 1;
      }
    }
  }

  /** An appended line is the reader's next line, numbered as the appender was
      told, exactly when no separator is in it and none has yet set the two
      counts apart. */
  lemma SeqIsExactlyRightWhen(text: string, line: string)
    requires line != "" && NewlineFree(line) && !EndsLine(line[|line| - 1])
    ensures var after := text + Chunk(text, line);
            && |Lines(after)| >= LineCount(text) + 1
            && (Lines(after)[LineCount(text)..] == [line] <==> SeparatorFree(line) && Aligned(text))
  {
    ChunkSplits(text, line);
    PrefixIsALineStart(text);
    LineAtLineStart(text + Prefix(text), line);
  }

  lemma LineAtLineStart(t: string, line: string)
    requires !Open(t) && line != "" && NewlineFree(line) && !EndsLine(line[|line| - 1])
    ensures Lines(t + line + "\n") == Lines(t) + Lines(line)
    ensures |Lines(t)| >= LineCount(t) && |Lines(line)| >= 1
    ensures (Lines(t) + Lines(line))[LineCount(t)..] == [line] <==> SeparatorFree(line) && |Lines(t)| == LineCount(t)
  {
    NeverFewerLines(t);
    LinesAfterEnd(t, line + "\n");
    assert t + (line + "\n") == t + line + "\n";
    NewlineCloses(line);
    PiecesOfALine(line);
    SuffixIsOne(Lines(t), Lines(line), LineCount(t), line);
  }

  lemma SuffixIsOne(a: seq<string>, b: seq<string>, n: nat, line: string)
    requires n <= |a| && b != []
    ensures (a + b)[n..] == [line] <==> |a| == n && b == [line]
  {
    if (a + b)[n..] == [line] {
      assert |(a + b)[n..]| == |a| - n + |b|;
      assert (a + b)[n..] == b;
    }
    if |a| == n && b == [line] {
      assert (a + b)[n..] == b;
    }
  }

  /** The prefix restores a line start; the counts agree there exactly when they
      agreed before. */
  lemma PrefixIsALineStart(text: string)
    ensures var t := text + Prefix(text);
            && !Open(t) && LineCount(t) == LineCount(text)
            && (|Lines(t)| == LineCount(t) <==> Aligned(text))
  {
    if Open(text) {
      NewlinesAppend(text, "\n");
      OneNewline();
      if EndsLine(text[|text| - 1]) {
        NeverFewerLines(text);
        LinesAfterEnd(text, "\n");
        BareNewline();
      } else {
        NewlineCloses(text);
      }
    } else {
      assert text + "" == text;
    }
  }

  lemma BareNewline()
    ensures Lines("\n") == [""]
  {
    FirstEndIs("\n", 0);
    assert "\n"[..0] == "" && "\n"[1..] == "";
  }

  lemma {:induction false} DecodedItem<E>(codec: Codec<E>, lines: seq<string>, item: (nat, E))
    ensures item in Decoded(codec, lines) <==> 1 <= item.0 <= |lines| && codec.decode(lines[item.0 - 1]) == Some(item.1)
  {
    if lines != [] {
      DecodedItem(codec, lines[..|lines| - 1], item);
    }
  }

  /** An event appended to a log without separators is read back at its `seq`
      exactly when its own text has none. */
  lemma ReadBackExactlyWhen<E(!new)>(codec: Codec<E>, text: string, e: E)
    requires CodesOk(codec, e) && Aligned(text)
    ensures (LineCount(text) + 1, e) in Read(codec, text + Chunk(text, codec.encode(e))) <==> SeparatorFree(codec.encode(e))
  {
    var line := codec.encode(e);
    var after := text + Chunk(text, line);
    var item := (LineCount(text) + 1, e);
    if SeparatorFree(line) {
      OneOperation(codec, text, Append(e));
      var before := Read(codec, text);
      assert (before + [item])[|before|] == item;
    } else {
      PrefixClosesLine(text);
      ChunkSplits(text, line);
      FirstPieceOfALine(text + Prefix(text), line);
      DecodedItem(codec, Lines(after), item);
      assert codec.decode(line[..FirstEnd(line)]) == None;
    }
  }

  /** A line with a separator starts with a proper part of itself. */
  lemma FirstPieceOfALine(t: string, line: string)
    requires !Open(t) && NewlineFree(line) && !SeparatorFree(line)
    ensures FirstEnd(line) < |line|
    ensures var lines := Lines(t + line + "\n");
            |lines| > |Lines(t)| && lines[|Lines(t)|] == line[..FirstEnd(line)]
  {
    assert line[..|line|] == line;
    LinesAfterEnd(t, line + "\n");
    assert t + (line + "\n") == t + line + "\n";
    FirstEndIsLocal(line, "\n");
    LinesStep(line + "\n", FirstEnd(line), line[FirstEnd(line) + 1..] + "\n");
  }

  // ------------------------------------------------------------------------
  // The log as an object.
  // ------------------------------------------------------------------------

  /** `_event_log_shape`, one character at a time. */
  method Shape(text: string) returns (lineCount: nat, prefix: string)
    ensures lineCount == LineCount(text) && prefix == Prefix(text)
  {
    var newlines, i := 0, 0;
    while i < |text|
      invariant 0 <= i <= |text|
      invariant newlines == Newlines(text[..i])
    {
      assert text[..i + 1][..i] == text[..i];
      if text[i] == '\n' {
        newlines := newlines + 1;
      }
      i := i + 1;
    }
    assert text[..|text|] == text;
    if text == "" {
      return 0, "";
    }
    var ended := text[|text| - 1] == '\n';
    lineCount := if ended then newlines else newlines + 1;
    prefix := if ended then "" else "\n";
  }

  lemma OneLineMore<E(!new)>(codec: Codec<E>, lines: seq<string>, i: nat, afterSeq: int)
    requires i < |lines|
    ensures var e := codec.decode(lines[i]);
            Past(Decoded(codec, lines[..i + 1]), afterSeq)
            == Past(Decoded(codec, lines[..i]), afterSeq) + if e.Some? && i + 1 > afterSeq then [(i + 1, e.value)] else []
  {
    assert lines[..i + 1] == lines[..i] + [lines[i]];
    DecodedOneMore(codec, lines[..i], lines[i]);
    PastOneMore(Decoded(codec, lines[..i]), afterSeq);
  }

  /** `read_kanban_events`, on the text of a log. */
  method ReadPast<E(!new)>(codec: Codec<E>, text: string, afterSeq: int) returns (events: seq<(nat, E)>)
    ensures events == Past(Read(codec, text), afterSeq)
  {
    var lines := SplitLines(text);
    events := [];
    var i := 0;
    while i < |lines|
      invariant 0 <= i <= |lines|
      invariant events == Past(Decoded(codec, lines[..i]), afterSeq)
    {
      OneLineMore(codec, lines, i, afterSeq);
      if i + 1 > afterSeq {
        var e := codec.decode(lines[i]);
        if e.Some? {
          events := events + [(i + 1, e.value)];
        }
      }
      i := i + 1;
    }
    assert lines[..|lines|] == lines;
  }

  class Log<E(!new)> {
    const codec: Codec<E>
    var text: string

    constructor (codec: Codec<E>)
      ensures this.codec == codec && text == ""
    {
      this.codec, text := codec, "";
    }

    /** `append_kanban_event`. */
    method Append(e: E) returns (seqno: nat)
      modifies this
      ensures text == old(text) + Written(codec, old(text), Op.Append(e)) && seqno == LineCount(old(text)) + 1
      ensures Aligned(old(text)) && LineOk(codec, e) ==>
                Aligned(text) && Read(codec, text) == Read(codec, old(text)) + [(seqno, e)]
    {
      var line := codec.encode(e);
      var lineCount, prefix := Shape(text);
      ghost var before := text;
      text := text + (prefix + line + "\n");
      seqno := lineCount + 1;
      if Aligned(before) && LineOk(codec, e) {
        OneOperation(codec, before, Op.Append(e));
      }
    }
  }

  /** Reading past a position keeps the items with a greater number, and no others. */
  lemma {:induction false} PastIs<E(!new)>(events: seq<(nat, E)>, seqno: int, item: (nat, E))
    ensures item in Past(events, seqno) <==> item in events && item.0 > seqno
  {
    if events != [] {
      PastIs(events[..|events| - 1], seqno, item);
      assert events == events[..|events| - 1] + [events[|events| - 1]];
    }
  }

  lemma PastOneMore<E(!new)>(events: seq<(nat, E)>, seqno: int)
    ensures events + [] == events
    ensures forall item: (nat, E) :: Past(events + [item], seqno) == Past(events, seqno) + if item.0 > seqno then [item] else []
  {
    forall item: (nat, E)
      ensures Past(events + [item], seqno) == Past(events, seqno) + if item.0 > seqno then [item] else []
    {
      assert (events + [item])[..|events|] == events;
    }
  }

  method SplitLines(text: string) returns (lines: seq<string>)
    ensures lines == Lines(text)
  {
    lines := [];
    var rest := text;
    while rest != ""
      invariant lines + Lines(rest) == Lines(text)
      decreases |rest|
    {
      var k := FirstEnd(rest);
      if k == |rest| {
        lines, rest := lines + [rest], "";
      } else {
        lines, rest := lines + [rest[..k]], rest[k + 1..];
      }
    }
  }
}
