/** The model registry: its file of lines, what the server lists, and what a
    request's model name resolves to. */
module Registry {
  import opened Common
  import opened PyText

  datatype Entry = Entry(externalId: string, internalId: string, thinking: bool, tools: bool)

  // ---- Lines ------------------------------------------------------------

  /** Cutting a line at every colon; always at least one part. */
  function Parts(s: string): (parts: seq<string>)
    ensures parts != []
    ensures forall p :: p in parts ==> ':' !in p
    ensures s != "" && s[0] != ':' ==> parts[0] != "" && parts[0][0] == s[0]
  {
    if s == "" then [""]
    else
      var rest := Parts(s[1..]);
      if s[0] == ':' then [""] + rest else [[s[0]] + rest[0]] + rest[1..]
  }

  lemma {:induction false} PartsOfOne(a: string)
    requires ':' !in a
    ensures Parts(a) == [a]
  {
    if a != "" {
      assert a[0] in a && forall c :: c in a[1..] ==> c in a;
      PartsOfOne(a[1..]);
      assert [a[0]] + a[1..] == a;
    }
  }

  lemma {:induction false} PartsCons(a: string, b: string)
    requires ':' !in a
    ensures Parts(a + ":" + b) == [a] + Parts(b)
  {
    var s := a + ":" + b;
    if a == "" {
      assert s[1..] == b;
    } else {
      assert a[0] in a && forall c :: c in a[1..] ==> c in a;
      PartsCons(a[1..], b);
      assert s[1..] == a[1..] + ":" + b;
      assert ([a[1..]] + Parts(b))[1..] == Parts(b);
      assert [a[0]] + a[1..] == a;
    }
  }

  /** ASCII letters in lower case. */
  function Lower(s: string): string {
    if s == "" then ""
    else [if 'A' <= s[0] <= 'Z' then s[0] - 'A' + 'a' else s[0]] + Lower(s[1..])
  }

  function Flag(raw: string): Option<bool> {
    var word := Lower(Strip(raw));
    if word == "true" || word == "1" || word == "yes" then Some(true)
    else if word == "false" || word == "0" || word == "no" then Some(false)
    else None
  }

  /** One line of the file; None for blank lines, comments, and lines that are
      not an entry. Without a tools flag the thinking flag counts for both. */
  function ParseLine(raw: string): Option<Entry> {
    var line := Strip(raw);
    if line == "" || line[0] == '#' then None
    else
      var parts := Parts(line);
      if |parts| != 3 && |parts| != 4 then None
      else
        var e, i := Strip(parts[0]), Strip(parts[1]);
        var thinking := Flag(parts[2]);
        var tools := if |parts| == 4 then Flag(parts[3]) else thinking;
        if e == "" || i == "" || thinking.None? || tools.None? then None
        else Some(Entry(e, i, thinking.value, tools.value))
  }

  function Word(b: bool): string { if b then "true" else "false" }

  /** The line that is written for an entry. */
  function LineFor(e: Entry): string {
    e.externalId + ":" + (e.internalId + ":" + (Word(e.thinking) + ":" + Word(e.tools)))
  }

  predicate PlainId(id: string) { id != "" && Trimmed(id) && ':' !in id }

  /** An entry that a line can hold. */
  predicate Writable(e: Entry) {
    PlainId(e.externalId) && PlainId(e.internalId) && e.externalId[0] != '#'
  }

  lemma StripIsPart(s: string, c: char)
    requires c !in s
    ensures c !in Strip(s)
  {
    var l := LStrip(s);
    assert forall k :: 0 <= k < |l| ==> l[k] == s[|s| - |l| + k];
    assert Strip(s) == l[..|Strip(s)|];
  }

  lemma StripTrims(s: string)
    ensures Trimmed(Strip(s))
  {
    var l, r := LStrip(s), Strip(s);
    assert r == l[..|r|];
    assert r != "" ==> r[0] == l[0];
  }

  /** A text that does not begin with a space keeps its beginning. */
  lemma StripKeepsStart(s: string)
    requires s != "" && !IsSpace(s[0])
    ensures Strip(s) != "" && Strip(s)[0] == s[0]
  {
    hide IsSpace;
    assert LStrip(s) == s;
    RStripKeepsStart(s);
  }

  lemma {:induction false} RStripKeepsStart(s: string)
    requires s != "" && !IsSpace(s[0])
    ensures RStrip(s) != "" && RStrip(s)[0] == s[0]
  {
    hide IsSpace;
    if IsSpace(s[|s| - 1]) { RStripKeepsStart(s[..|s| - 1]); }
  }

  /** Whatever is parsed could have been written. */
  lemma ParsedIsWritable(raw: string)
    requires ParseLine(raw).Some?
    ensures Writable(ParseLine(raw).value)
  {
    hide Strip, IsSpace, Parts, Flag, Trimmed;
    var line := Strip(raw);
    var parts := Parts(line);
    assert parts[0] in parts && parts[1] in parts;
    StripIsPart(parts[0], ':');
    StripIsPart(parts[1], ':');
    StripTrims(parts[0]);
    StripTrims(parts[1]);
    StripTrims(raw);
    assert !IsSpace(line[0]) by { TrimmedStart(line); }
    if line[0] == ':' {
      ColonFirst(line);
      NothingToStrip();
      assert false;
    } else {
      StripKeepsStart(parts[0]);
    }
  }

  lemma TrimmedStart(s: string)
    requires s != "" && Trimmed(s)
    ensures !IsSpace(s[0])
  {}

  lemma NothingToStrip()
    ensures Strip("") == ""
  {}

  lemma ColonFirst(s: string)
    requires s != "" && s[0] == ':'
    ensures Parts(s)[0] == ""
  {}

  lemma WordIsPlain(b: bool)
    ensures ':' !in Word(b) && Trimmed(Word(b)) && Word(b) != "" && Lower(Word(b)) == Word(b)
    ensures forall c :: c in Word(b) ==> !IsBreak(c)
  {
    assert Word(true) == ['t', 'r', 'u', 'e'] && Word(false) == ['f', 'a', 'l', 's', 'e'];
    LowerKeeps(Word(b));
  }

  lemma WordIsFlag(b: bool)
    ensures Flag(Word(b)) == Some(b)
  {
    hide Strip, Lower, Trimmed;
    WordIsPlain(b);
    StripKeeps(Word(b));
  }

  lemma {:induction false} LowerKeeps(s: string)
    requires forall c :: c in s ==> !('A' <= c <= 'Z')
    ensures Lower(s) == s
  {
    if s != "" {
      assert s[0] in s && forall c :: c in s[1..] ==> c in s;
      LowerKeeps(s[1..]);
    }
  }

  lemma LineParts(e: Entry)
    requires PlainId(e.externalId) && PlainId(e.internalId)
    ensures Parts(LineFor(e)) == [e.externalId, e.internalId, Word(e.thinking), Word(e.tools)]
  {
    hide Parts, Word, IsSpace, Trimmed, IsBreak;
    WordIsPlain(e.thinking);
    WordIsPlain(e.tools);
    PartsOfOne(Word(e.tools));
    PartsCons(Word(e.thinking), Word(e.tools));
    var flags := Word(e.thinking) + ":" + Word(e.tools);
    PartsCons(e.internalId, flags);
    PartsCons(e.externalId, e.internalId + ":" + flags);
  }

  lemma LineIsTrimmed(e: Entry)
    requires PlainId(e.externalId)
    ensures LineFor(e) != "" && Trimmed(LineFor(e)) && LineFor(e)[0] == e.externalId[0]
  {
    hide IsSpace, Word;
    var line, word := LineFor(e), Word(e.tools);
    WordIsPlain(e.tools);
    assert line[|line| - 1] == word[|word| - 1];
  }

  /** A written line is read back as the entry exactly when both ids are
      non-empty, trimmed and without a colon, and the external one does not
      look like a comment. */
  lemma LineRoundTrip(e: Entry)
    ensures ParseLine(LineFor(e)) == Some(e) <==> Writable(e)
  {
    if ParseLine(LineFor(e)) == Some(e) { ParsedIsWritable(LineFor(e)); }
    if Writable(e) { WrittenIsRead(e); }
  }

  lemma WrittenIsRead(e: Entry)
    requires Writable(e)
    ensures ParseLine(LineFor(e)) == Some(e)
  {
    hide Strip, Flag, Parts, Word, LineFor, Trimmed;
    LineParts(e);
    LineIsTrimmed(e);
    StripKeeps(LineFor(e));
    StripKeeps(e.externalId);
    StripKeeps(e.internalId);
    WordIsFlag(e.thinking);
    WordIsFlag(e.tools);
  }

  // ---- Lines as people write them ----------------------------------------

  /** The text is this word, in capitals or not, with any space around it. */
  predicate Spells(raw: string, word: string) {
    var s := Strip(raw);
    && |s| == |word|
    && forall k :: 0 <= k < |s| ==> s[k] == word[k] || ('A' <= s[k] <= 'Z' && s[k] - 'A' + 'a' == word[k])
  }

  lemma {:induction false} LowerMeans(s: string, word: string)
    requires forall c :: c in word ==> !('A' <= c <= 'Z')
    ensures Lower(s) == word
            <==> |s| == |word|
                 && forall k :: 0 <= k < |s| ==> s[k] == word[k] || ('A' <= s[k] <= 'Z' && s[k] - 'A' + 'a' == word[k])
    decreases |s|
  {
    if s != "" && word != "" {
      assert word[0] in word && forall c :: c in word[1..] ==> c in word;
      LowerMeans(s[1..], word[1..]);
      assert Lower(s) == word <==> Lower(s)[0] == word[0] && Lower(s[1..]) == word[1..];
      if |s| == |word| && forall k :: 0 <= k < |s[1..]| ==>
           s[1..][k] == word[1..][k] || ('A' <= s[1..][k] <= 'Z' && s[1..][k] - 'A' + 'a' == word[1..][k]) {
        forall k | 1 <= k < |s| ensures s[k] == word[k] || ('A' <= s[k] <= 'Z' && s[k] - 'A' + 'a' == word[k]) {
          assert s[1..][k - 1] == s[k] && word[1..][k - 1] == word[k];
        }
      }
    }
  }

  /** The six words that are flags. */
  lemma FlagMeans(raw: string)
    ensures Flag(raw) == Some(true) <==> Spells(raw, "true") || Spells(raw, "1") || Spells(raw, "yes")
    ensures Flag(raw) == Some(false) <==> Spells(raw, "false") || Spells(raw, "0") || Spells(raw, "no")
  {
    hide Strip, Lower;
    var s := Strip(raw);
    LowerMeans(s, "true");
    LowerMeans(s, "1");
    LowerMeans(s, "yes");
    LowerMeans(s, "false");
    LowerMeans(s, "0");
    LowerMeans(s, "no");
  }

  /** Three parts: the flag counts for thinking and for tools. Any other text in
      its place makes the line no entry. */
  lemma ShortLine(e: string, i: string, flag: string)
    requires PlainId(e) && PlainId(i) && e[0] != '#' && ':' !in flag && Trimmed(flag)
    ensures ParseLine(e + ":" + (i + ":" + flag))
            == if Flag(flag).Some? then Some(Entry(e, i, Flag(flag).value, Flag(flag).value)) else None
  {
    hide Strip, Flag, Parts, IsSpace;
    PartsOfOne(flag);
    PartsCons(i, flag);
    PartsCons(e, i + ":" + flag);
    IdsTrimmed(e, i, flag);
    StripKeeps(e + ":" + (i + ":" + flag));
    StripKeeps(e);
    StripKeeps(i);
  }

  lemma IdsTrimmed(e: string, i: string, rest: string)
    requires PlainId(e) && (rest == "" || !IsSpace(rest[|rest| - 1]))
    ensures Trimmed(e + ":" + (i + ":" + rest))
  {}

  /** Four parts: one flag each. */
  lemma LongLine(e: string, i: string, thinking: string, tools: string)
    requires PlainId(e) && PlainId(i) && e[0] != '#'
    requires ':' !in thinking && ':' !in tools && Trimmed(tools)
    ensures ParseLine(e + ":" + (i + ":" + (thinking + ":" + tools)))
            == if Flag(thinking).Some? && Flag(tools).Some?
               then Some(Entry(e, i, Flag(thinking).value, Flag(tools).value)) else None
  {
    hide Strip, Flag, Parts, IsSpace;
    assert !IsSpace(':') by { ColonIsNoSpace(); }
    PartsOfOne(tools);
    PartsCons(thinking, tools);
    PartsCons(i, thinking + ":" + tools);
    PartsCons(e, i + ":" + (thinking + ":" + tools));
    IdsTrimmed(e, i, thinking + ":" + tools);
    StripKeeps(e + ":" + (i + ":" + (thinking + ":" + tools)));
    StripKeeps(e);
    StripKeeps(i);
  }

  lemma ColonIsNoSpace()
    ensures !IsSpace(':')
  {}

  function Colons(s: string): nat {
    if s == "" then 0 else (if s[0] == ':' then 1 else 0) + Colons(s[1..])
  }

  lemma {:induction false} ColonsAppend(a: string, b: string)
    ensures Colons(a + b) == Colons(a) + Colons(b)
  {
    if a == "" {
      assert a + b == b;
    } else {
      ColonsAppend(a[1..], b);
      assert (a + b)[1..] == a[1..] + b;
    }
  }

  lemma {:induction false} PartsCounted(s: string)
    ensures |Parts(s)| == 1 + Colons(s)
  {
    if s != "" { PartsCounted(s[1..]); }
  }

  lemma {:induction false} LStripColons(s: string)
    ensures Colons(LStrip(s)) == Colons(s)
  {
    if s != "" && IsSpace(s[0]) { LStripColons(s[1..]); }
  }

  lemma {:induction false} RStripColons(s: string)
    ensures Colons(RStrip(s)) == Colons(s)
  {
    if s != "" && IsSpace(s[|s| - 1]) {
      var n := |s| - 1;
      RStripColons(s[..n]);
      ColonsAppend(s[..n], [s[n]]);
      assert s[..n] + [s[n]] == s && [s[n]][1..] == "";
    }
  }

  /** A line of more parts, or of fewer, is no entry. */
  lemma ThreeOrFourParts(raw: string)
    ensures ParseLine(raw).Some? ==> Colons(raw) == 2 || Colons(raw) == 3
  {
    hide LStrip, RStrip, Parts, Flag;
    PartsCounted(Strip(raw));
    LStripColons(raw);
    RStripColons(LStrip(raw));
  }

  // ---- The file ---------------------------------------------------------

  predicate IsBreak(c: char) {
    || '\n' <= c <= '\r' || '\U{1c}' <= c <= '\U{1e}' || c == '\U{85}' || c == '\U{2028}' || c == '\U{2029}'
  }

  /** Cutting a text into lines as `str.splitlines` does; `line` is what has
      been read of the current one. */
  function SplitLines(line: string, s: string): seq<string>
    decreases |s|
  {
    if s == "" then if line == "" then [] else [line]
    else if !IsBreak(s[0]) then SplitLines(line + [s[0]], s[1..])
    else if s[0] == '\r' && |s| > 1 && s[1] == '\n' then [line] + SplitLines("", s[2..])
    else [line] + SplitLines("", s[1..])
  }

  lemma {:induction false} OneLine(before: string, line: string, rest: string)
    requires forall c :: c in line ==> !IsBreak(c)
    ensures SplitLines(before, line + "\n" + rest) == [before + line] + SplitLines("", rest)
    decreases |line|
  {
    var s := line + "\n" + rest;
    if line == "" {
      assert s[1..] == rest;
      assert before + line == before;
    } else {
      assert line[0] in line;
      assert s[1..] == line[1..] + "\n" + rest;
      OneLine(before + [line[0]], line[1..], rest);
      assert before + [line[0]] + line[1..] == before + line;
    }
  }

  const LINE_BREAKS: set<char> :=
    {'\n', '\U{b}', '\U{c}', '\r', '\U{1c}', '\U{1d}', '\U{1e}', '\U{85}', '\U{2028}', '\U{2029}'}

  lemma BreaksAre(c: char)
    ensures IsBreak(c) <==> c in LINE_BREAKS
  {}

  /** A text without a line break is its only line; the empty text has none. */
  lemma {:induction false} OnlyLine(before: string, line: string)
    requires forall c :: c in line ==> c !in LINE_BREAKS
    ensures SplitLines(before, line) == if before + line == "" then [] else [before + line]
    decreases |line|
  {
    hide IsBreak;
    if line == "" {
      assert before + line == before;
    } else {
      assert line[0] in line && forall c :: c in line[1..] ==> c in line;
      BreaksAre(line[0]);
      OnlyLine(before + [line[0]], line[1..]);
      assert before + [line[0]] + line[1..] == before + line;
    }
  }

  /** Any of the ten line breaks ends a line; a carriage return and a line feed
      together end one line. */
  lemma {:induction false} LineEnds(before: string, line: string, end: string, rest: string)
    requires forall c :: c in line ==> c !in LINE_BREAKS
    requires end == "\r\n" || (|end| == 1 && end[0] in LINE_BREAKS && !(end == "\r" && rest != "" && rest[0] == '\n'))
    ensures SplitLines(before, line + end + rest) == [before + line] + SplitLines("", rest)
    decreases |line|
  {
    hide IsBreak;
    var s := line + end + rest;
    if line == "" {
      BreaksAre(end[0]);
      assert s[0] == end[0] && s[|end|..] == rest && before + line == before;
    } else {
      assert line[0] in line && forall c :: c in line[1..] ==> c in line;
      BreaksAre(line[0]);
      assert s[1..] == line[1..] + end + rest;
      LineEnds(before + [line[0]], line[1..], end, rest);
      assert before + [line[0]] + line[1..] == before + line;
    }
  }

  function Parsed(lines: seq<string>): seq<Entry> {
    if lines == [] then []
    else (if ParseLine(lines[0]).Some? then [ParseLine(lines[0]).value] else []) + Parsed(lines[1..])
  }

  function FileLines(es: seq<Entry>): string {
    if es == [] then "" else LineFor(es[0]) + "\n" + FileLines(es[1..])
  }

  /** What is written: the lines joined, and a line break. */
  function FileFor(es: seq<Entry>): string { if es == [] then "\n" else FileLines(es) }

  predicate OnOneLine(e: Entry) {
    forall c :: c in e.externalId || c in e.internalId ==> !IsBreak(c)
  }

  lemma {:induction false} FileLinesRoundTrip(es: seq<Entry>)
    requires forall e :: e in es ==> Writable(e) && OnOneLine(e)
    ensures Parsed(SplitLines("", FileLines(es))) == es
  {
    hide ParseLine, LineFor, Writable, SplitLines;
    if es == [] {
      assert SplitLines("", "") == [] by { NoLines(); }
    } else {
      var e := es[0];
      assert e in es;
      LineRoundTrip(e);
      LineHasNoBreak(e);
      OneLine("", LineFor(e), FileLines(es[1..]));
      FileLinesRoundTrip(es[1..]);
      var rest := SplitLines("", FileLines(es[1..]));
      assert "" + LineFor(e) == LineFor(e);
      assert ([LineFor(e)] + rest)[1..] == rest;
    }
  }

  lemma NoLines()
    ensures SplitLines("", "") == []
  {}

  lemma LineHasNoBreak(e: Entry)
    requires OnOneLine(e)
    ensures forall c :: c in LineFor(e) ==> !IsBreak(c)
  {
    hide IsBreak, Word;
    WordIsPlain(e.thinking);
    WordIsPlain(e.tools);
    assert !IsBreak(':') by { ColonIsNoBreak(); }
  }

  lemma ColonIsNoBreak()
    ensures !IsBreak(':')
  {}

  /** A registry file that was written is read back entry by entry. */
  lemma FileRoundTrip(es: seq<Entry>)
    requires forall e :: e in es ==> Writable(e) && OnOneLine(e)
    ensures Parsed(SplitLines("", FileFor(es))) == es
  {
    if es == [] {
      assert "\n"[1..] == "";
      assert SplitLines("", "\n") == [""] + SplitLines("", "");
      NothingToStrip();
      assert ParseLine("") == None;
    } else {
      FileLinesRoundTrip(es);
    }
  }

  // ---- Listing and resolving --------------------------------------------

  const PLATFORM_MODEL := "qwen-asr"

  datatype Models = Models(entries: seq<Entry>, byExternal: map<string, Entry>, byInternal: map<string, Entry>)

  function LastOf(entries: seq<Entry>, externalId: string): (r: Option<Entry>)
    ensures r.None? <==> forall e :: e in entries ==> e.externalId != externalId
    ensures r.Some? ==> r.value in entries && r.value.externalId == externalId
  {
    if entries == [] then None
    else
      var n := |entries| - 1;
      if entries[n].externalId == externalId then Some(entries[n]) else LastOf(entries[..n], externalId)
  }

  /** The tables are those of the entries; the last entry of an id counts. */
  ghost predicate Consistent(m: Models) {
    ExternalExact(m.entries, m.byExternal) && InternalExact(m.entries, m.byInternal)
  }

  ghost predicate ExternalExact(entries: seq<Entry>, table: map<string, Entry>) {
    && (forall x :: x in table <==> exists e :: e in entries && e.externalId == x)
    && (forall x :: x in table ==> LastOf(entries, x) == Some(table[x]))
  }

  ghost predicate InternalExact(entries: seq<Entry>, table: map<string, Entry>) {
    && (forall x :: x in table <==> exists e :: e in entries && e.internalId == x)
    && (forall x :: x in table ==> LastInternal(entries, x) == Some(table[x]))
  }

  function LastInternal(entries: seq<Entry>, internalId: string): (r: Option<Entry>)
    ensures r.None? <==> forall e :: e in entries ==> e.internalId != internalId
    ensures r.Some? ==> r.value in entries && r.value.internalId == internalId
  {
    if entries == [] then None
    else
      var n := |entries| - 1;
      if entries[n].internalId == internalId then Some(entries[n]) else LastInternal(entries[..n], internalId)
  }

  lemma NothingIsConsistent()
    ensures Consistent(Models([], map[], map[]))
  {}

  lemma ExternalAdded(entries: seq<Entry>, table: map<string, Entry>, e: Entry)
    requires ExternalExact(entries, table)
    ensures ExternalExact(entries + [e], table[e.externalId := e])
  {
    var more := entries + [e];
    assert more[..|entries|] == entries;
    assert forall d :: d in more <==> d in entries || d == e;
    forall x ensures LastOf(more, x) == if x == e.externalId then Some(e) else LastOf(entries, x) {}
  }

  lemma InternalAdded(entries: seq<Entry>, table: map<string, Entry>, e: Entry)
    requires InternalExact(entries, table)
    ensures InternalExact(entries + [e], table[e.internalId := e])
  {
    var more := entries + [e];
    assert more[..|entries|] == entries;
    assert forall d :: d in more <==> d in entries || d == e;
    forall x ensures LastInternal(more, x) == if x == e.internalId then Some(e) else LastInternal(entries, x) {}
  }

  /** A file that does not exist is an empty registry. */
  method LoadModelRegistry(file: Option<string>) returns (m: Models)
    ensures m.entries == if file.None? then [] else Parsed(SplitLines("", file.value))
    ensures Consistent(m)
  {
    hide ParseLine, SplitLines, ExternalExact, InternalExact;
    var lines := if file.None? then [] else SplitLines("", file.value);
    m := Models([], map[], map[]);
    assert Consistent(m) by { NothingIsConsistent(); }
    for k := 0 to |lines|
      invariant m.entries == Parsed(lines[..k]) && Consistent(m)
    {
      ParsedSnoc(lines[..k], lines[k]);
      assert lines[..k + 1] == lines[..k] + [lines[k]];
      var parsed := ParseLine(lines[k]);
      if parsed.Some? {
        var e := parsed.value;
        ExternalAdded(m.entries, m.byExternal, e);
        InternalAdded(m.entries, m.byInternal, e);
        m := Models(m.entries + [e], m.byExternal[e.externalId := e], m.byInternal[e.internalId := e]);
      }
    }
    assert lines[..|lines|] == lines;
  }

  lemma {:induction false} ParsedSnoc(lines: seq<string>, line: string)
    ensures Parsed(lines + [line]) == Parsed(lines) + if ParseLine(line).Some? then [ParseLine(line).value] else []
  {
    hide ParseLine;
    if lines == [] {
      assert lines + [line] == [line];
      assert Parsed([line][1..]) == [];
    } else {
      ParsedSnoc(lines[1..], line);
      assert (lines + [line])[1..] == lines[1..] + [line];
    }
  }

  predicate Available(internalId: string, upstream: set<string>) {
    internalId in upstream || internalId == PLATFORM_MODEL
  }

  function ListExternal(entries: seq<Entry>, upstream: set<string>): (r: seq<string>)
    ensures forall x :: x in r <==> exists e :: e in entries && e.externalId == x && Available(e.internalId, upstream)
  {
    if entries == [] then []
    else
      (if Available(entries[0].internalId, upstream) then [entries[0].externalId] else [])
      + ListExternal(entries[1..], upstream)
  }

  /** Names are listed in the order of the file, once for each entry. */
  lemma {:induction false} ListedInOrder(entries: seq<Entry>, e: Entry, upstream: set<string>)
    ensures ListExternal(entries + [e], upstream)
            == ListExternal(entries, upstream)
               + if e.internalId in upstream || e.internalId == "qwen-asr" then [e.externalId] else []
  {
    if entries == [] {
      assert entries + [e] == [e];
      assert ListExternal([e][1..], upstream) == [];
    } else {
      ListedInOrder(entries[1..], e, upstream);
      assert (entries + [e])[1..] == entries[1..] + [e];
    }
  }

  datatype Resolution =
    | Resolved(entry: Entry)
    | Missing
    | NotConfigured
    | InternalId(externalId: string)
    | NotFound

  function Resolve(m: Models, requested: string, upstream: set<string>): Resolution {
    var model := Strip(requested);
    if model == "" then Missing
    else if model in m.byExternal then
      var entry := m.byExternal[model];
      if !Available(entry.internalId, upstream) then NotConfigured else Resolved(entry)
    else if model in m.byInternal then InternalId(m.byInternal[model].externalId)
    else if model in upstream then NotConfigured
    else NotFound
  }

  /** What resolves is listed. What is listed resolves exactly when the last
      entry of its name is available: another entry of the same name may be
      the one that is listed. */
  lemma ResolvedIsListed(m: Models, requested: string, upstream: set<string>)
    requires Consistent(m) && Strip(requested) != ""
    ensures
      var model, last := Strip(requested), LastOf(m.entries, Strip(requested));
      var r := Resolve(m, requested, upstream);
      && (r.Resolved? ==> model in ListExternal(m.entries, upstream) && r.entry.externalId == model)
      && (model in ListExternal(m.entries, upstream) ==>
            (r.Resolved? <==> last.Some? && Available(last.value.internalId, upstream))
            && (r.Resolved? || r == NotConfigured))
  {
    hide Strip;
  }

  /** A name taken twice: the model is listed for the first entry, and the
      second one, which is not available, keeps it from being resolved. */
  lemma SecondEntryHidesModel(m: Models, d: Entry, e: Entry, upstream: set<string>)
    requires Consistent(m) && m.entries == [d, e] && d.externalId == e.externalId && PlainId(d.externalId)
    requires Available(d.internalId, upstream) && !Available(e.internalId, upstream)
    ensures d.externalId in ListExternal(m.entries, upstream)
    ensures Resolve(m, d.externalId, upstream) == NotConfigured
  {
    hide Strip;
    StripKeeps(d.externalId);
    assert d in m.entries && e in m.entries;
    assert LastOf([d, e], d.externalId) == Some(e);
  }

  predicate UniqueNames(entries: seq<Entry>) {
    forall d, e :: d in entries && e in entries && d.externalId == e.externalId ==> d == e
  }

  /** With unique names a model resolves exactly when it is listed. */
  lemma ListingAgreesWithResolving(m: Models, requested: string, upstream: set<string>)
    requires Consistent(m) && UniqueNames(m.entries) && Strip(requested) != ""
    ensures Resolve(m, requested, upstream).Resolved? <==> Strip(requested) in ListExternal(m.entries, upstream)
  {
    hide Strip;
    ResolvedIsListed(m, requested, upstream);
  }

  lemma {:induction false} ParsedAreWritable(lines: seq<string>)
    ensures forall e :: e in Parsed(lines) ==> Writable(e)
  {
    hide ParseLine, Writable;
    if lines != [] {
      ParsedAreWritable(lines[1..]);
      if ParseLine(lines[0]).Some? { ParsedIsWritable(lines[0]); }
    }
  }

  /** Every name the server lists from a file is a request it understands: it
      resolves, or a later line of the file took the name over. */
  lemma ListedNamesResolve(m: Models, text: string, upstream: set<string>, name: string)
    requires m.entries == Parsed(SplitLines("", text)) && Consistent(m)
    requires name in ListExternal(m.entries, upstream)
    ensures Resolve(m, name, upstream).Resolved? <==> Available(LastOf(m.entries, name).value.internalId, upstream)
    ensures UniqueNames(m.entries) ==> Resolve(m, name, upstream).Resolved?
  {
    hide Strip, ParseLine, SplitLines, Parsed;
    ParsedAreWritable(SplitLines("", text));
    StripKeeps(name);
    ResolvedIsListed(m, name, upstream);
  }

  /** The errors: no name, a name that is not offered, the upstream's own name,
      a model without an entry, an unknown one. */
  lemma ResolveErrors(m: Models, requested: string, upstream: set<string>)
    requires Consistent(m)
    ensures
      var model, r := Strip(requested), Resolve(m, requested, upstream);
      var named := exists e :: e in m.entries && e.externalId == model;
      var internal := exists e :: e in m.entries && e.internalId == model;
      && (r == Missing <==> model == "")
      && (r.InternalId? <==> model != "" && !named && internal)
      && (r == NotFound <==> model != "" && !named && !internal && model !in upstream)
      && (r.InternalId? ==> forall k ::
            && 0 <= k < |m.entries| && m.entries[k].internalId == model
            && (forall j :: k < j < |m.entries| ==> m.entries[j].internalId != model)
            ==> m.entries[k].externalId == r.externalId)
  {
    hide Strip;
    var model := Strip(requested);
    forall k | 0 <= k < |m.entries| && m.entries[k].internalId == model
               && (forall j :: k < j < |m.entries| ==> m.entries[j].internalId != model)
      ensures LastInternal(m.entries, model) == Some(m.entries[k])
    {
      LastInternalIs(m.entries, model, k);
    }
  }

  lemma {:induction false} LastInternalIs(entries: seq<Entry>, internalId: string, k: nat)
    requires k < |entries| && entries[k].internalId == internalId
    requires forall j :: k < j < |entries| ==> entries[j].internalId != internalId
    ensures LastInternal(entries, internalId) == Some(entries[k])
    decreases |entries|
  {
    var n := |entries| - 1;
    if k < n { LastInternalIs(entries[..n], internalId, k); }
  }

  /** A name resolves to the last entry that has it, with all its settings, if the
      upstream has that entry's model or the server has it itself; else the name is
      not configured. So is one that only the upstream knows. */
  lemma ResolveMeans(m: Models, requested: string, upstream: set<string>)
    requires Consistent(m) && Strip(requested) != ""
    ensures
      var model, r := Strip(requested), Resolve(m, requested, upstream);
      && (forall k ::
            && 0 <= k < |m.entries| && m.entries[k].externalId == model
            && (forall j :: k < j < |m.entries| ==> m.entries[j].externalId != model)
            ==> r == if m.entries[k].internalId in upstream || m.entries[k].internalId == "qwen-asr"
                     then Resolved(m.entries[k]) else NotConfigured)
      && ((forall e :: e in m.entries ==> e.externalId != model && e.internalId != model) ==>
            (r == NotConfigured <==> model in upstream))
  {
    hide Strip;
    var model := Strip(requested);
    forall k | 0 <= k < |m.entries| && m.entries[k].externalId == model
               && (forall j :: k < j < |m.entries| ==> m.entries[j].externalId != model)
      ensures LastOf(m.entries, model) == Some(m.entries[k])
    {
      LastIs(m.entries, model, k);
    }
  }

  lemma {:induction false} LastIs(entries: seq<Entry>, externalId: string, k: nat)
    requires k < |entries| && entries[k].externalId == externalId
    requires forall j :: k < j < |entries| ==> entries[j].externalId != externalId
    ensures LastOf(entries, externalId) == Some(entries[k])
    decreases |entries|
  {
    var n := |entries| - 1;
    if k < n { LastIs(entries[..n], externalId, k); }
  }
}
