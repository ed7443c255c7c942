/** Cutting a byte or character stream into lines as it arrives. The lines do
    not depend on how the stream was cut into network chunks. */
module Lines {
  import PyText

  function Flatten<T>(chunks: seq<seq<T>>): seq<T> {
    if chunks == [] then [] else chunks[0] + Flatten(chunks[1..])
  }

  lemma Regroup<T>(a: seq<T>, b: seq<T>, c: seq<T>)
    ensures a + (b + c) == (a + b) + c
  {}

  lemma FlattenCons<T>(first: seq<T>, rest: seq<seq<T>>)
    ensures Flatten([first] + rest) == first + Flatten(rest)
  {
    assert ([first] + rest)[1..] == rest;
  }

  lemma {:induction false} FlattenAppend<T>(a: seq<seq<T>>, b: seq<seq<T>>)
    ensures Flatten(a + b) == Flatten(a) + Flatten(b)
  {
    if a == [] {
      assert a + b == b;
    } else {
      var rest := a[1..];
      FlattenAppend(rest, b);
      hide Flatten;
      assert a == [a[0]] + rest && a + b == [a[0]] + (rest + b);
      FlattenCons(a[0], rest);
      FlattenCons(a[0], rest + b);
      Regroup(a[0], Flatten(rest), Flatten(b));
    }
  }

  lemma FlattenSnoc<T>(chunks: seq<seq<T>>, last: seq<T>)
    ensures Flatten(chunks + [last]) == Flatten(chunks) + last
  {
    FlattenAppend(chunks, [last]);
    assert Flatten([last]) == last + Flatten([]);
  }

  /** The index of the first separator. */
  function Find<T(==)>(s: seq<T>, sep: T): (i: nat)
    requires sep in s
    ensures i < |s| && s[i] == sep && sep !in s[..i]
  {
    if s[0] == sep then 0
    else
      assert sep in s[1..];
      var i := Find(s[1..], sep);
      assert s[..i + 1] == [s[0]] + s[1..][..i];
      i + 1
  }

  /** The terminated lines of a text, in order. */
  function Complete<T(==)>(s: seq<T>, sep: T): seq<seq<T>>
    decreases |s|
  {
    if sep !in s then []
    else var i := Find(s, sep); [s[..i]] + Complete(s[i + 1..], sep)
  }

  /** What follows the last separator. */
  function Tail<T(==)>(s: seq<T>, sep: T): (t: seq<T>)
    decreases |s|
  {
    if sep !in s then s else Tail(s[Find(s, sep) + 1..], sep)
  }

  /** Lines with their separators, glued together. */
  function Glue<T>(lines: seq<seq<T>>, sep: T): seq<T> {
    if lines == [] then [] else lines[0] + [sep] + Glue(lines[1..], sep)
  }

  lemma CutAt<T>(s: seq<T>, i: nat)
    requires i < |s|
    ensures s == s[..i] + [s[i]] + s[i + 1..]
  {}

  lemma GlueCons<T>(line: seq<T>, lines: seq<seq<T>>, sep: T, rest: seq<T>)
    ensures Glue([line] + lines, sep) + rest == line + [sep] + (Glue(lines, sep) + rest)
  {
    assert ([line] + lines)[1..] == lines;
  }

  /** Lines and rest are the input. */
  lemma {:induction false} GlueComplete<T>(s: seq<T>, sep: T)
    ensures Glue(Complete(s, sep), sep) + Tail(s, sep) == s
    decreases |s|
  {
    hide Find, Glue;
    if sep in s {
      var i := Find(s, sep);
      GlueComplete(s[i + 1..], sep);
      CutAt(s, i);
      GlueCons(s[..i], Complete(s[i + 1..], sep), sep, Tail(s[i + 1..], sep));
    } else {
      GlueNone(sep, s);
    }
  }

  lemma GlueNone<T>(sep: T, s: seq<T>)
    ensures Glue([], sep) + s == s
  {}

  /** No line and not the rest holds a separator. */
  lemma {:induction false} CompleteIsClean<T>(s: seq<T>, sep: T, k: nat)
    ensures sep !in Tail(s, sep)
    ensures k < |Complete(s, sep)| ==> sep !in Complete(s, sep)[k]
    decreases |s|
  {
    hide Find;
    if sep in s {
      CompleteIsClean(s[Find(s, sep) + 1..], sep, if k == 0 then 0 else k - 1);
    }
  }

  lemma {:induction false} FindUnique<T>(s: seq<T>, sep: T, i: nat)
    requires i < |s| && s[i] == sep && sep !in s[..i]
    ensures Find(s, sep) == i
  {
    if i > 0 {
      assert s[0] == s[..i][0];
      assert s[1..][..i - 1] == s[..i][1..];
      FindUnique(s[1..], sep, i - 1);
    }
  }

  /** The one way to write a text as terminated lines and an unterminated rest. */
  lemma {:induction false} OnlySplit<T>(lines: seq<seq<T>>, rest: seq<T>, sep: T)
    requires sep !in rest && forall l :: l in lines ==> sep !in l
    ensures Complete(Glue(lines, sep) + rest, sep) == lines && Tail(Glue(lines, sep) + rest, sep) == rest
  {
    hide Find;
    var s := Glue(lines, sep) + rest;
    if lines == [] {
      assert s == rest;
    } else {
      var i, more := |lines[0]|, Glue(lines[1..], sep) + rest;
      assert s == lines[0] + [sep] + more;
      assert s[..i] == lines[0] && s[i] == sep && s[i + 1..] == more;
      assert lines[0] in lines;
      FindUnique(s, sep, i);
      OnlySplit(lines[1..], rest, sep);
    }
  }

  /** More input only adds lines, and only after the ones already there. */
  lemma {:induction false} CompleteAppend<T>(a: seq<T>, b: seq<T>, sep: T)
    ensures Complete(a + b, sep) == Complete(a, sep) + Complete(Tail(a, sep) + b, sep)
    ensures Tail(a + b, sep) == Tail(Tail(a, sep) + b, sep)
    decreases |a|
  {
    hide Find;
    if sep in a {
      var i := Find(a, sep);
      var rest := a[i + 1..];
      assert (a + b)[..i] == a[..i] && (a + b)[i + 1..] == rest + b;
      FindUnique(a + b, sep, i);
      CompleteAppend(rest, b, sep);
      Regroup([a[..i]], Complete(rest, sep), Complete(Tail(rest, sep) + b, sep));
    } else {
      assert [] + Complete(a + b, sep) == Complete(a + b, sep);
    }
  }

  /** Reads every chunk into a buffer and takes off lines while there are any.
      The lines are those of the whole input cut at once; what the last chunk
      leaves unterminated is dropped. */
  method ReadLines<T(==)>(chunks: seq<seq<T>>, sep: T) returns (lines: seq<seq<T>>)
    ensures lines == Complete(Flatten(chunks), sep)
  {
    lines := [];
    var buffer: seq<T> := [];
    for k := 0 to |chunks|
      invariant lines == Complete(Flatten(chunks[..k]), sep)
      invariant buffer == Tail(Flatten(chunks[..k]), sep)
    {
      ghost var before := Flatten(chunks[..k]);
      FlattenSnoc(chunks[..k], chunks[k]);
      assert chunks[..k + 1] == chunks[..k] + [chunks[k]];
      CompleteAppend(before, chunks[k], sep);
      lines, buffer := TakeLines(lines, buffer + chunks[k], sep);
    }
    assert chunks[..|chunks|] == chunks;
  }

  /** Takes off the lines that are complete. */
  method TakeLines<T(==)>(before: seq<seq<T>>, input: seq<T>, sep: T)
    returns (lines: seq<seq<T>>, buffer: seq<T>)
    ensures lines == before + Complete(input, sep) && buffer == Tail(input, sep)
  {
    hide Find;
    lines, buffer := before, input;
    while sep in buffer
      invariant before + Complete(input, sep) == lines + Complete(buffer, sep)
      invariant Tail(input, sep) == Tail(buffer, sep)
      decreases |buffer|
    {
      var i := Find(buffer, sep);
      ghost var more := Complete(buffer[i + 1..], sep);
      assert lines + ([buffer[..i]] + more) == (lines + [buffer[..i]]) + more;
      lines, buffer := lines + [buffer[..i]], buffer[i + 1..];
    }
  }

  // ---- Server-sent events ----------------------------------------------

  /** The payload of one line, if it is a data line. */
  function Payload(line: string): seq<string> {
    var l := PyText.RStripChar(line, '\r');
    if l == "" || l[0] == ':' then []
    else if "data:" <= l then [PyText.LStrip(l[5..])]
    else []
  }

  lemma {:induction false} RStripCharKeeps(s: string, c: char, more: string)
    requires (s == "" || s[|s| - 1] != c) && forall d :: d in more ==> d == c
    ensures PyText.RStripChar(s + more, c) == s
    decreases |more|
  {
    if more == "" {
      assert s + more == s;
    } else {
      var n := |more| - 1;
      assert more[n] in more && forall d :: d in more[..n] ==> d in more;
      assert (s + more)[..|s + more| - 1] == s + more[..n];
      RStripCharKeeps(s, c, more[..n]);
    }
  }

  lemma {:induction false} LStripDrops(space: string, s: string)
    requires (forall c :: c in space ==> PyText.IsSpace(c)) && (s == "" || !PyText.IsSpace(s[0]))
    ensures PyText.LStrip(space + s) == s
    decreases |space|
  {
    hide PyText.IsSpace;
    if space == "" {
      assert space + s == s;
    } else {
      assert space[0] in space && forall c :: c in space[1..] ==> c in space;
      assert (space + s)[1..] == space[1..] + s;
      LStripDrops(space[1..], s);
    }
  }

  /** A data line yields its text without the space before it and the carriage
      returns at its end. */
  lemma DataYieldsText(space: string, text: string, returns_: string)
    requires forall c :: c in space ==> PyText.IsSpace(c)
    requires text != "" && !PyText.IsSpace(text[0]) && text[|text| - 1] != '\r'
    requires forall c :: c in returns_ ==> c == '\r'
    ensures Payload("data:" + space + text + returns_) == [text]
  {
    hide PyText.IsSpace, PyText.LStrip, PyText.RStripChar;
    var p := "data:";
    var l := p + space + text;
    assert l[|l| - 1] == text[|text| - 1];
    RStripCharKeeps(l, '\r', returns_);
    assert p <= l && l[0] == 'd' && l[5..] == space + text;
    LStripDrops(space, text);
  }

  lemma {:induction false} RStripCharPrefix(s: string, c: char, p: string)
    requires p <= s && (p == "" || p[|p| - 1] != c)
    ensures p <= PyText.RStripChar(s, c) <= s
    decreases |s|
  {
    if s != "" && s[|s| - 1] == c { RStripCharPrefix(s[..|s| - 1], c, p); }
  }

  lemma {:induction false} RStripCharIsPrefix(s: string, c: char)
    ensures PyText.RStripChar(s, c) <= s
    decreases |s|
  {
    if s != "" && s[|s| - 1] == c { RStripCharIsPrefix(s[..|s| - 1], c); }
  }

  /** Every line that begins with `data:` yields one text, a beginning of which is
      never a space, and no other line yields anything. */
  lemma OnlyDataYields(line: string)
    ensures Payload(line) != [] <==> "data:" <= line
    ensures
      var r := Payload(line);
      r != [] ==> |r| == 1 && (r[0] == "" || !PyText.IsSpace(r[0][0]))
  {
    hide *;
    DataStays(line);
    PayloadIs(line);
  }

  lemma PayloadIs(line: string)
    ensures
      var l := PyText.RStripChar(line, '\r');
      if "data:" <= l then Payload(line) == [PyText.LStrip(l[5..])] else Payload(line) == []
  {
    hide PyText.IsSpace, PyText.LStrip, PyText.RStripChar;
    var l := PyText.RStripChar(line, '\r');
    if "data:" <= l { assert l[0] == 'd'; }
  }

  lemma DataStays(line: string)
    ensures ("data:" <= PyText.RStripChar(line, '\r')) == ("data:" <= line)
  {
    hide PyText.RStripChar;
    var p := "data:";
    assert p[4] == ':';
    RStripCharIsPrefix(line, '\r');
    if p <= line { RStripCharPrefix(line, '\r', p); }
  }

  function Payloads(lines: seq<string>): seq<string> {
    if lines == [] then [] else Payload(lines[0]) + Payloads(lines[1..])
  }

  lemma {:induction false} PayloadsSnoc(lines: seq<string>, line: string)
    ensures Payloads(lines + [line]) == Payloads(lines) + Payload(line)
  {
    hide Payload;
    if lines == [] {
      assert lines + [line] == [line];
      assert Payloads([line]) == Payload(line) + Payloads([]);
    } else {
      PayloadsSnoc(lines[1..], line);
      assert (lines + [line])[1..] == lines[1..] + [line];
    }
  }

  /** The payloads of an event stream are those of its complete lines, however
      the stream was cut into chunks. */
  method DataLines(chunks: seq<string>) returns (payloads: seq<string>)
    ensures payloads == Payloads(Complete(Flatten(chunks), '\n'))
  {
    hide Flatten, Complete, Payload;
    var lines := ReadLines(chunks, '\n');
    payloads := [];
    for k := 0 to |lines|
      invariant payloads == Payloads(lines[..k])
    {
      PayloadsSnoc(lines[..k], lines[k]);
      assert lines[..k + 1] == lines[..k] + [lines[k]];
      payloads := payloads + Payload(lines[k]);
    }
    assert lines[..|lines|] == lines;
  }
}
