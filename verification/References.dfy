/** What a `$ref:` string refers to (sandbox.py:59-90), stated as a grammar: how a
    reference is spelled, and which reading wins where several are possible. */
module References {
  import opened Json
  import D = Definition

  // ------------------------------------------------------------------------
  // Spelling.
  // ------------------------------------------------------------------------

  predicate Letter(c: char) {
    c == '_' || 'a' <= c <= 'z' || 'A' <= c <= 'Z'
  }

  predicate Digit(c: char) {
    '0' <= c <= '9'
  }

  /** An input's key: a letter or an underscore, then also digits and dashes. */
  predicate SpellsKey(key: string) {
    && key != "" && Letter(key[0])
    && forall c | c in key[1..] :: Letter(c) || Digit(c) || c == '-'
  }

  /** A step's id may hold dots as well. */
  predicate SpellsId(id: string) {
    && id != "" && Letter(id[0])
    && forall c | c in id[1..] :: Letter(c) || Digit(c) || c in "-."
  }

  predicate SpellsPart(part: string) {
    forall c | c in part :: Letter(c) || Digit(c) || c == '-'
  }

  /** A path is its parts, each after a dot; parts may be empty, but the whole of
      a path is not a single empty one. */
  predicate SpellsPath(path: seq<string>) {
    path != [""] && forall i | 0 <= i < |path| :: SpellsPart(path[i])
  }

  function Dotted(path: seq<string>): string {
    if path == [] then "" else "." + path[0] + Dotted(path[1..])
  }

  /** The text, or the text and one line break. */
  predicate Says(v: string, text: string) {
    v == text || v == text + "\n"
  }

  predicate SpellsInput(v: string, key: string) {
    SpellsKey(key) && Says(v, "$ref:inputs." + key)
  }

  predicate SpellsOutput(v: string, id: string, path: seq<string>) {
    SpellsId(id) && SpellsPath(path) && Says(v, "$ref:" + id + ".output" + Dotted(path))
  }

  /** It is read as an input if it can be, and otherwise with the shortest id. */
  ghost predicate RefersToOutput(v: string, id: string, path: seq<string>) {
    && SpellsOutput(v, id, path)
    && (forall key :: !SpellsInput(v, key))
    && (forall id', path' | SpellsOutput(v, id', path') :: |id| <= |id'|)
  }

  // ------------------------------------------------------------------------
  // Splitting at the dots.
  // ------------------------------------------------------------------------

  /** What splitting gives: parts without dots that join to the string. */
  ghost predicate Splits(s: string, parts: seq<string>) {
    && parts != [] && Dotted(parts) == "." + s
    && (forall i | 0 <= i < |parts| :: '.' !in parts[i] && forall c | c in parts[i] :: c in s)
    && (parts == [""] <==> s == "")
  }

  lemma SplitsDot(s: string, rest: seq<string>)
    requires Splits(s, rest)
    ensures Splits("." + s, [""] + rest)
  {
    var parts := [""] + rest;
    assert parts[1..] == rest;
    assert parts[1] == rest[0];
    forall i | 0 <= i < |parts| ensures '.' !in parts[i] && forall c | c in parts[i] :: c in "." + s {
      assert i > 0 ==> parts[i] == rest[i - 1];
    }
  }

  lemma OtherJoins(x: char, s: string, head: string, tail: seq<string>)
    requires Dotted([head] + tail) == "." + s
    ensures Dotted([[x] + head] + tail) == "." + ([x] + s)
  {
    assert ([head] + tail)[1..] == tail && ([[x] + head] + tail)[1..] == tail;
    var joined := "." + head + Dotted(tail);
    assert joined[1..] == head + Dotted(tail) && ("." + s)[1..] == s;
  }

  lemma SplitsOther(x: char, s: string, rest: seq<string>)
    requires Splits(s, rest) && x != '.'
    ensures Splits([x] + s, [[x] + rest[0]] + rest[1..])
  {
    var parts := [[x] + rest[0]] + rest[1..];
    assert rest == [rest[0]] + rest[1..];
    OtherJoins(x, s, rest[0], rest[1..]);
    forall i | 0 <= i < |parts| ensures '.' !in parts[i] && forall c | c in parts[i] :: c in [x] + s {
      assert parts[i] == if i > 0 then rest[i] else [x] + rest[0];
    }
    assert parts[0] != "";
  }

  lemma {:induction false} SplitJoins(s: string)
    ensures Splits(s, D.Split(s))
  {
    if s == "" {
      assert Dotted([""]) == "." + "" + Dotted([""][1..]);
    } else {
      SplitJoins(s[1..]);
      assert s == [s[0]] + s[1..];
      if s[0] == '.' {
        SplitsDot(s[1..], D.Split(s[1..]));
      } else {
        SplitsOther(s[0], s[1..], D.Split(s[1..]));
      }
    }
  }

  /** Joining tells parts apart. */
  lemma {:induction false} SplitsOnlyOnce(a: seq<string>, b: seq<string>)
    requires a != [] && b != [] && Dotted(a) == Dotted(b)
    requires forall i | 0 <= i < |a| :: '.' !in a[i]
    requires forall i | 0 <= i < |b| :: '.' !in b[i]
    ensures a == b
    decreases |a|
  {
    var u, v := Dotted(a[1..]), Dotted(b[1..]);
    SameHead(a[0], u, b[0], v);
    if |a| == 1 || |b| == 1 {
      assert |a| == 1 <==> u == "";
      assert |b| == 1 <==> v == "";
    } else {
      SplitsOnlyOnce(a[1..], b[1..]);
    }
    assert a == [a[0]] + a[1..] && b == [b[0]] + b[1..];
  }

  lemma LongerHeadDiffers(x: string, u: string, y: string, v: string)
    requires |x| < |y| && '.' !in y && (u == "" || u[0] == '.')
    ensures "." + x + u != "." + y + v
  {
    var s, t := "." + x + u, "." + y + v;
    assert t[1 + |x|] == y[|x|];
    if u != "" {
      assert s[1 + |x|] == '.';
    }
  }

  lemma SameHead(x: string, u: string, y: string, v: string)
    requires "." + x + u == "." + y + v && '.' !in x && '.' !in y
    requires (u == "" || u[0] == '.') && (v == "" || v[0] == '.')
    ensures x == y && u == v
  {
    var s, t := "." + x + u, "." + y + v;
    if |x| < |y| {
      LongerHeadDiffers(x, u, y, v);
    } else if |y| < |x| {
      LongerHeadDiffers(y, v, x, u);
    }
    assert x == s[1..1 + |x|] && y == t[1..1 + |y|];
    assert u == s[1 + |x|..] && v == t[1 + |y|..];
  }

  // ------------------------------------------------------------------------
  // Parsing reads exactly this grammar.
  // ------------------------------------------------------------------------

  /** What is left of a reference without its mark and its line break. */
  function Body(v: string): string
    requires "$ref:" <= v
  {
    v[5..if v[|v| - 1] == '\n' then |v| - 1 else |v|]
  }

  lemma BodyIs(v: string, body: string)
    requires body != "" && body[|body| - 1] != '\n'
    ensures Says(v, "$ref:" + body) <==> "$ref:" <= v && Body(v) == body
  {
    var text := "$ref:" + body;
    assert text[|text| - 1] == body[|body| - 1] && text[5..] == body;
    if Says(v, text) {
      assert v[..5] == "$ref:";
      assert v == text ==> v[5..|v|] == body;
      assert v == text + "\n" ==> v[5..|v| - 1] == body && v[|v| - 1] == '\n';
    }
    if "$ref:" <= v && Body(v) == body {
      assert v[..5] == "$ref:";
      assert v == v[..5] + v[5..];
      if v[|v| - 1] == '\n' {
        assert v[5..] == body + "\n";
      }
    }
  }

  lemma KeysAreSpelled(key: string)
    ensures D.IsInputKey(key) <==> SpellsKey(key)
  {
    if key != "" {
      var rest := key[1..];
      forall i | 1 <= i < |key| ensures key[i] in rest {
        assert key[i] == rest[i - 1];
      }
      forall c | c in rest ensures exists i :: 1 <= i < |key| && key[i] == c {
        var j :| 0 <= j < |rest| && rest[j] == c;
        assert key[j + 1] == c;
      }
    }
  }

  lemma IdsAreSpelled(id: string)
    ensures D.IsStepId(id) <==> SpellsId(id)
  {
    if id != "" {
      var rest := id[1..];
      forall i | 1 <= i < |id| ensures id[i] in rest {
        assert id[i] == rest[i - 1];
      }
      forall c | c in rest ensures exists i :: 1 <= i < |id| && id[i] == c {
        var j :| 0 <= j < |rest| && rest[j] == c;
        assert id[j + 1] == c;
      }
    }
  }

  lemma InputsAreSpelled(v: string, key: string)
    ensures SpellsInput(v, key) <==> "$ref:" <= v && Body(v) == "inputs." + key && D.IsInputKey(key)
  {
    KeysAreSpelled(key);
    if SpellsKey(key) {
      var last := key[|key| - 1];
      assert |key| > 1 ==> last in key[1..];
      BodyIs(v, "inputs." + key);
      assert "$ref:" + ("inputs." + key) == "$ref:inputs." + key;
    }
  }

  function TailPath(tail: string): seq<string>
    requires D.IsOutputTail(tail)
  {
    if |tail| == 7 then [] else D.Split(tail[8..])
  }

  lemma {:induction false} DottedIsPathChars(path: seq<string>)
    requires forall i | 0 <= i < |path| :: SpellsPart(path[i])
    ensures forall c | c in Dotted(path) :: D.IsPathChar(c)
    ensures path != [] ==> Dotted(path)[0] == '.'
  {
    if path != [] {
      assert forall i | 0 <= i < |path[1..]| :: path[1..][i] == path[i + 1];
      DottedIsPathChars(path[1..]);
    }
  }

  /** A tail of the right form spells its path. */
  lemma TailsAreSpelled(tail: string)
    requires D.IsOutputTail(tail)
    ensures SpellsPath(TailPath(tail)) && tail == ".output" + Dotted(TailPath(tail))
  {
    if |tail| == 7 {
      assert tail == ".output";
    } else {
      var field, path := tail[8..], TailPath(tail);
      SplitJoins(field);
      assert forall i | 0 <= i < |field| :: field[i] == tail[8 + i];
      forall i, c | 0 <= i < |path| && c in path[i] ensures Letter(c) || Digit(c) || c == '-' {
        assert c in field && D.IsPathChar(c);
      }
      assert tail == tail[..7] + tail[7..] && tail[7..] == "." + field;
    }
  }

  /** And what spells a path is such a tail, with that path. */
  lemma SpelledTails(path: seq<string>)
    requires SpellsPath(path)
    ensures var tail := ".output" + Dotted(path); D.IsOutputTail(tail) && TailPath(tail) == path
  {
    var dotted := Dotted(path);
    var tail := ".output" + dotted;
    DottedIsPathChars(path);
    if path != [] {
      SpelledLength(path);
      assert tail[7] == dotted[0];
      forall i | 8 <= i < |tail| ensures D.IsPathChar(tail[i]) {
        assert tail[i] == dotted[i - 7] && dotted[i - 7] in dotted;
      }
      var field := tail[8..];
      assert field == dotted[1..];
      SplitJoins(field);
      assert dotted == "." + field;
      SplitsOnlyOnce(D.Split(field), path);
    }
  }

  lemma SpelledLength(path: seq<string>)
    requires path != [] && path != [""]
    ensures |Dotted(path)| > 1
  {
    if |path| == 1 {
      assert path == [path[0]] && path[0] != "";
    } else {
      assert Dotted(path[1..]) != "";
    }
  }

  /** An output reference whose id ends there. */
  predicate OutputAt(body: string, end: nat)
    requires end <= |body|
  {
    D.IsStepId(body[..end]) && D.IsOutputTail(body[end..])
  }

  lemma OutputsAreSpelled(v: string, id: string, path: seq<string>)
    ensures SpellsOutput(v, id, path) <==>
            && "$ref:" <= v && id <= Body(v) && OutputAt(Body(v), |id|) && path == TailPath(Body(v)[|id|..])
  {
    if SpellsOutput(v, id, path) {
      SpelledBody(v, id, path);
      IdsAreSpelled(id);
    }
    if "$ref:" <= v && id <= Body(v) && OutputAt(Body(v), |id|) && path == TailPath(Body(v)[|id|..]) {
      BodySpells(v, id, path);
    }
  }

  lemma BodySpells(v: string, id: string, path: seq<string>)
    requires "$ref:" <= v && id <= Body(v) && OutputAt(Body(v), |id|) && path == TailPath(Body(v)[|id|..])
    ensures SpellsOutput(v, id, path)
  {
    IdsAreSpelled(id);
    assert Body(v)[..|id|] == id;
    TailsAreSpelled(Body(v)[|id|..]);
    assert Body(v) == id + Body(v)[|id|..];
    SpelledBody(v, id, path);
  }

  lemma TailsEnd(tail: string)
    requires D.IsOutputTail(tail)
    ensures tail[|tail| - 1] != '\n'
  {
    if |tail| == 7 {
      assert tail == ".output";
    } else {
      assert D.IsPathChar(tail[|tail| - 1]);
    }
  }

  lemma BodyTail(id: string, tail: string)
    ensures (id + tail)[..|id|] == id && (id + tail)[|id|..] == tail
    ensures tail != "" ==> (id + tail)[|id + tail| - 1] == tail[|tail| - 1]
    ensures "$ref:" + (id + tail) == "$ref:" + id + tail
  {
  }

  lemma SpelledBody(v: string, id: string, path: seq<string>)
    requires SpellsId(id) && SpellsPath(path)
    ensures SpellsOutput(v, id, path) <==> "$ref:" <= v && Body(v) == id + (".output" + Dotted(path))
    ensures var tail := ".output" + Dotted(path);
            (id + tail)[..|id|] == id && (id + tail)[|id|..] == tail && D.IsOutputTail(tail) && TailPath(tail) == path
  {
    var tail := ".output" + Dotted(path);
    SpelledTails(path);
    TailsEnd(tail);
    BodyTail(id, tail);
    BodyIs(v, id + tail);
    assert "$ref:" + id + tail == "$ref:" + id + ".output" + Dotted(path);
  }

  lemma ParseOutputIs(body: string, end: nat)
    requires end <= |body|
    ensures D.ParseOutput(body, end) ==
            if OutputAt(body, end) then D.OutputRef(body[..end], TailPath(body[end..]))
            else if end == |body| then D.Malformed
            else D.ParseOutput(body, end + 1)
  {
    if |body| - end > 7 {
      assert body[end..][8..] == body[end + 8..];
    }
  }

  lemma {:induction false} ParsesTheShortest(body: string, end: nat)
    requires end <= |body|
    ensures var r := D.ParseOutput(body, end);
            if r.OutputRef? then
              && end <= |r.id| <= |body| && r.id == body[..|r.id|]
              && OutputAt(body, |r.id|) && r.path == TailPath(body[|r.id|..])
              && forall e: nat | end <= e < |r.id| :: !OutputAt(body, e)
            else r == D.Malformed && forall e: nat | end <= e <= |body| :: !OutputAt(body, e)
    decreases |body| - end
  {
    ParseOutputIs(body, end);
    hide OutputAt;
    hide TailPath;
    if OutputAt(body, end) {
    } else if end < |body| {
      ParsesTheShortest(body, end + 1);
    }
  }

  lemma ParseRefIs(v: string)
    requires "$ref:" <= v
    ensures D.ParseRef(v) ==
            if "inputs." <= Body(v) && D.IsInputKey(Body(v)[7..]) then D.InputRef(Body(v)[7..]) else D.ParseOutput(Body(v), 0)
  {
  }

  lemma InputIsRead(v: string, key: string)
    ensures D.ParseRef(v) == D.InputRef(key) <==> SpellsInput(v, key)
  {
    InputsAreSpelled(v, key);
    if "$ref:" <= v {
      var body := Body(v);
      assert "inputs." <= body ==> body == "inputs." + body[7..];
      if body == "inputs." + key {
        assert body[7..] == key && D.StartsWith(body, "inputs.");
      }
      ParseRefIs(v);
      ParsesTheShortest(body, 0);
    }
  }

  lemma NoInputIsRead(v: string)
    requires "$ref:" <= v && !D.ParseRef(v).InputRef?
    ensures D.ParseRef(v) == D.ParseOutput(Body(v), 0)
  {
  }

  /** The reading that parsing finds is the one with the shortest id. */
  lemma OutputIsRead(v: string, id: string, path: seq<string>)
    requires "$ref:" <= v && D.ParseRef(v) == D.ParseOutput(Body(v), 0) && !D.ParseRef(v).InputRef?
    ensures D.ParseRef(v) == D.OutputRef(id, path) <==> RefersToOutput(v, id, path)
    ensures D.ParseRef(v) == D.Malformed ==> !SpellsOutput(v, id, path)
  {
    var r := D.ParseRef(v);
    ParsesTheShortest(Body(v), 0);
    forall key ensures !SpellsInput(v, key) {
      InputIsRead(v, key);
    }
    OutputsAreSpelled(v, id, path);
    if r.OutputRef? {
      OutputsAreSpelled(v, r.id, r.path);
      forall id', path' | SpellsOutput(v, id', path') ensures |r.id| <= |id'| {
        OutputsAreSpelled(v, id', path');
      }
    }
  }

  /** What a reference refers to is what the grammar says, and nothing is one that
      the grammar does not spell. */
  lemma ReferencesAreRead(v: string)
    ensures D.ParseRef(v) == D.NotARef <==> !("$ref:" <= v)
    ensures forall key :: D.ParseRef(v) == D.InputRef(key) <==> SpellsInput(v, key)
    ensures forall id, path :: D.ParseRef(v) == D.OutputRef(id, path) <==> RefersToOutput(v, id, path)
    ensures D.ParseRef(v) == D.Malformed <==>
            && "$ref:" <= v && (forall key :: !SpellsInput(v, key)) && (forall id, path :: !SpellsOutput(v, id, path))
  {
    forall key ensures D.ParseRef(v) == D.InputRef(key) <==> SpellsInput(v, key) {
      InputIsRead(v, key);
    }
    if "$ref:" <= v && !D.ParseRef(v).InputRef? {
      NoInputIsRead(v);
      ParsesTheShortest(Body(v), 0);
      forall id, path
        ensures D.ParseRef(v) == D.OutputRef(id, path) <==> RefersToOutput(v, id, path)
        ensures D.ParseRef(v) == D.Malformed ==> !SpellsOutput(v, id, path)
      {
        OutputIsRead(v, id, path);
      }
    } else {
      forall id, path ensures !RefersToOutput(v, id, path) {
        OutputsAreSpelled(v, id, path);
      }
    }
  }
}
