/** Which id and which name a call of a Responses stream is announced with, and
    which it has in the end. */
module ResponsesNames {
  import opened Common
  import opened Responses

  /** All tool-call deltas of some lines, in order. */
  function Parts(lines: seq<Line>): seq<ToolPart> {
    if lines == [] then [] else PartsIn(lines[0]) + Parts(lines[1..])
  }

  function PartsIn(line: Line): seq<ToolPart> {
    if line.Chunk? && line.choice.Some? then line.choice.value.tools else []
  }

  /** Those of one call. */
  function Of(ps: seq<ToolPart>, i: int): seq<ToolPart> {
    if ps == [] then [] else Of(ps[..|ps| - 1], i) + if ps[|ps| - 1].index == i then [ps[|ps| - 1]] else []
  }

  /** The last id that is not empty; empty when there is none. */
  function LastId(ps: seq<ToolPart>): string {
    if ps == [] then "" else if ps[|ps| - 1].id != "" then ps[|ps| - 1].id else LastId(ps[..|ps| - 1])
  }

  function LastName(ps: seq<ToolPart>): string {
    if ps == [] then "" else if ps[|ps| - 1].name != "" then ps[|ps| - 1].name else LastName(ps[..|ps| - 1])
  }

  /** The event that announces a call: with the id and name of its first delta. */
  function Announcement(b: ToolItem, first: ToolPart): Body {
    ItemAdded(Call(b.id, NonEmpty(first.id, b.id), first.name, ""))
  }

  /** Registered call `b` has had the deltas `mine`. */
  predicate Recalls(s: State, b: ToolItem, mine: seq<ToolPart>) {
    && mine != []
    && b.callId == LastId(mine) && b.name == LastName(mine)
    && Life(s.wire, b.out) != [] && Life(s.wire, b.out)[0] == Announcement(b, mine[0])
  }

  /** The registered calls are those with deltas in `ps`. */
  ghost predicate Recorded(s: State, ps: seq<ToolPart>) {
    && (forall i :: i in s.tools <==> Of(ps, i) != [])
    && forall i :: i in s.tools ==> Recalls(s, s.tools[i], Of(ps, i))
  }

  /** Every item keeps its first event. */
  ghost predicate SameFirsts(s: State, t: State) {
    forall k :: Life(s.wire, k) != [] ==> Life(t.wire, k) != [] && Life(t.wire, k)[0] == Life(s.wire, k)[0]
  }

  lemma WriteKeepsFirsts(s: State, out: int, body: Body)
    ensures SameFirsts(s, Write(s, out, body))
  {
    hide Life, Announced;
    WriteFacts(s, out, body);
  }

  lemma TextKeepsFirsts(s: State, delta: string)
    ensures SameFirsts(s, OnText(s, delta)) && OnText(s, delta).tools == s.tools
  {
    hide Life;
    var id := s.ids(s.next);
    var a := s.(text := Some(TextItem(s.next, id, "")), next := s.next + 1);
    WriteKeepsFirsts(a, s.next, ItemAdded(Message(id, "")));
    WriteKeepsFirsts(Write(a, s.next, ItemAdded(Message(id, ""))), s.next, PartAdded(id));
    var b := OpenText(s);
    var t := b.text.value;
    WriteKeepsFirsts(b.(text := Some(t.(text := t.text + delta))), t.out, TextDelta(t.id, delta));
  }

  lemma OfSnoc(ps: seq<ToolPart>, p: ToolPart, i: int)
    ensures Of(ps + [p], i) == if p.index == i then Of(ps, i) + [p] else Of(ps, i)
  {
    assert (ps + [p])[..|ps|] == ps;
  }

  lemma LastSnoc(ps: seq<ToolPart>, p: ToolPart)
    ensures LastId(ps + [p]) == (if p.id != "" then p.id else LastId(ps))
    ensures LastName(ps + [p]) == (if p.name != "" then p.name else LastName(ps))
  {
    assert (ps + [p])[..|ps|] == ps;
  }

  lemma OpenToolRecorded(s: State, p: ToolPart, ps: seq<ToolPart>)
    requires Inv(s) && Recorded(s, ps)
    ensures Recorded(OpenTool(s, p), ps + [p])
  {
    hide Life, Announced, Inv, Of, LastId, LastName;
    var t, old_ := OpenTool(s, p), Of(ps, p.index);
    forall i ensures Of(ps + [p], i) == if p.index == i then Of(ps, i) + [p] else Of(ps, i) { OfSnoc(ps, p, i); }
    LastSnoc(old_, p);
    if p.index !in s.tools {
      var b := ToolItem(s.next, s.ids(s.next), p.id, p.name, "");
      var a := s.(tools := s.tools[p.index := b], order := s.order + [p.index], next := s.next + 1);
      var body := ItemAdded(Call(b.id, NonEmpty(b.callId, b.id), b.name, ""));
      WriteFacts(a, b.out, body);
      assert Life(s.wire, s.next) == [] by { NothingYet(s); }
      assert LastId([]) == "" && LastName([]) == "" by { NoParts(); }
      WriteKeepsFirsts(a, b.out, body);
    }
    forall i | i in t.tools ensures Recalls(t, t.tools[i], Of(ps + [p], i)) {
      if i != p.index { assert i in s.tools; }
    }
  }

  lemma NothingYet(s: State)
    requires Inv(s)
    ensures Life(s.wire, s.next) == []
  {
    hide Life, Announced, Glued;
  }

  lemma NoParts()
    ensures LastId([]) == "" && LastName([]) == ""
  {}

  /** Only writing, and only to the arguments of calls. */
  lemma StillRecorded(s: State, t: State, ps: seq<ToolPart>)
    requires Recorded(s, ps) && SameFirsts(s, t)
    requires t.tools.Keys == s.tools.Keys
    requires forall i :: i in s.tools ==> t.tools[i] == s.tools[i].(arguments := t.tools[i].arguments)
    ensures Recorded(t, ps)
  {
    hide Life, Of, LastId, LastName;
    forall i | i in t.tools ensures Recalls(t, t.tools[i], Of(ps, i)) {
      assert Recalls(s, s.tools[i], Of(ps, i));
    }
  }

  lemma ToolRecorded(s: State, p: ToolPart, ps: seq<ToolPart>)
    requires Inv(s) && Recorded(s, ps)
    ensures Recorded(OnTool(s, p), ps + [p])
  {
    hide Life, Inv, Recorded, OpenTool;
    OpenToolRecorded(s, p, ps);
    var a := OpenTool(s, p);
    if p.arguments != "" {
      var b := a.tools[p.index];
      var c := a.(tools := a.tools[p.index := b.(arguments := b.arguments + p.arguments)]);
      WriteKeepsFirsts(c, b.out, ArgsDelta(b.id, p.arguments));
      assert SameFirsts(a, OnTool(s, p));
      StillRecorded(a, OnTool(s, p), ps + [p]);
    }
  }

  lemma {:induction false} ToolsRecorded(s: State, parts: seq<ToolPart>, ps: seq<ToolPart>)
    requires Inv(s) && Recorded(s, ps)
    ensures Recorded(OnTools(s, parts), ps + parts)
    decreases |parts|
  {
    hide Inv, Recorded, OnTool;
    if parts == [] {
      assert ps + parts == ps;
    } else {
      ToolRecorded(s, parts[0], ps);
      OnToolInv(s, parts[0]);
      ToolsRecorded(OnTool(s, parts[0]), parts[1..], ps + [parts[0]]);
      assert ps + [parts[0]] + parts[1..] == ps + parts;
    }
  }

  lemma LineRecorded(s: State, line: Line, ps: seq<ToolPart>)
    requires Inv(s) && Recorded(s, ps)
    ensures Recorded(OnLine(s, line), ps + PartsIn(line)) && Inv(OnLine(s, line))
  {
    hide Inv, Recorded, OnText, OnTools;
    assert ps + [] == ps;
    if line.Chunk? {
      var model := NonEmpty(line.model, s.model);
      RelabelInv(s, s.finish, model);
      assert SameFirsts(s, s.(model := model));
      StillRecorded(s, s.(model := model), ps);
      if line.choice.Some? {
        var c := line.choice.value;
        var a := s.(finish := NonEmpty(c.finish, s.finish), model := model);
        RelabelInv(s, a.finish, model);
        OnTextInv(a, c.content);
        TextKeepsFirsts(a, c.content);
        var b := OnText(a, c.content);
        assert SameFirsts(s, b);
        StillRecorded(s, b, ps);
        OnToolsInv(b, c.tools);
        ToolsRecorded(b, c.tools, ps);
      }
    }
  }

  lemma {:induction false} LinesRecorded(s: State, lines: seq<Line>, ps: seq<ToolPart>)
    requires Inv(s) && Recorded(s, ps)
    ensures Recorded(OnLines(s, lines), ps + Parts(lines))
    decreases |lines|
  {
    hide Inv, Recorded, OnLine, PartsIn;
    if lines == [] {
      assert ps + [] == ps;
    } else {
      LineRecorded(s, lines[0], ps);
      LinesRecorded(OnLine(s, lines[0]), lines[1..], ps + PartsIn(lines[0]));
      assert ps + PartsIn(lines[0]) + Parts(lines[1..]) == ps + Parts(lines);
    }
  }

  // ---- The end of the stream -------------------------------------------

  lemma SameTrans(s: State, t: State, u: State)
    requires SameFirsts(s, t) && SameFirsts(t, u)
    ensures SameFirsts(s, u)
  {
    hide Life;
  }

  lemma CloseToolKeepsFirsts(s: State, b: ToolItem)
    ensures SameFirsts(s, CloseTool(s, b))
  {
    hide Life, SameFirsts;
    var body := ArgsDone(b.id, NonEmpty(b.arguments, "{}"));
    WriteKeepsFirsts(s, b.out, body);
    WriteKeepsFirsts(Write(s, b.out, body), b.out, ItemDone(ToolResult(b)));
    SameTrans(s, Write(s, b.out, body), CloseTool(s, b));
  }

  lemma CloseTextKeepsFirsts(s: State)
    ensures SameFirsts(s, CloseText(s))
  {
    hide Life, SameFirsts;
    assert SameFirsts(s, s) by { SameSelf(s); }
    if s.text.Some? {
      var t := s.text.value;
      var a := Write(s, t.out, TextDone(t.id, t.text));
      var b := Write(a, t.out, PartDone(t.id, t.text));
      WriteKeepsFirsts(s, t.out, TextDone(t.id, t.text));
      WriteKeepsFirsts(a, t.out, PartDone(t.id, t.text));
      WriteKeepsFirsts(b, t.out, ItemDone(TextResult(t)));
      SameTrans(s, a, b);
      SameTrans(s, b, CloseText(s));
    }
  }

  lemma SameSelf(s: State)
    ensures SameFirsts(s, s)
  {}

  lemma {:induction false} CloseToolsKeepFirsts(s: State, todo: seq<int>)
    requires forall k :: 0 <= k < |todo| ==> todo[k] in s.tools
    ensures SameFirsts(s, CloseTools(s, todo))
    decreases |todo|
  {
    hide Life, SameFirsts, CloseTool;
    if todo == [] {
      SameSelf(s);
    } else {
      var a := CloseTool(s, s.tools[todo[0]]);
      CloseToolKeepsFirsts(s, s.tools[todo[0]]);
      assert a.tools == s.tools by { ToolsStay(s, s.tools[todo[0]]); }
      CloseToolsKeepFirsts(a, todo[1..]);
      SameTrans(s, a, CloseTools(a, todo[1..]));
    }
  }

  lemma ToolsStay(s: State, b: ToolItem)
    ensures CloseTool(s, b).tools == s.tools
  {}

  lemma FinishKeepsFirsts(s: State)
    requires FinishesWell(s)
    ensures SameFirsts(s, Finish(s))
  {
    hide Life, SameFirsts, Sound, CloseTools, Results, InOrder, Incomplete;
    CloseTextKeepsFirsts(s);
    var a := CloseText(s);
    CloseToolsKeepFirsts(a, s.order);
    var b := CloseTools(a, s.order);
    SameTrans(s, a, b);
    WriteKeepsFirsts(b, -1, Finished(Incomplete(s.finish), s.model, InOrder(Results(s, s.order), s.next)));
    SameTrans(s, b, Finish(s));
  }

  /** The final response of a finished stream. */
  ghost function Output(s: State): seq<Item>
    requires FinishesWell(s)
  {
    Finish(s).wire[|Finish(s).wire| - 1].body.output
  }

  lemma OutputLists(s: State, i: int)
    requires Inv(s) && FinishesWell(s) && i in s.tools
    ensures s.tools[i].out < |Output(s)| && Output(s)[s.tools[i].out] == ToolResult(s.tools[i])
  {
    hide Life, Announced, Glued, CloseText, CloseTools, Results, InOrder, Incomplete, Sound, TextGrows, ToolGrows, Told;
    forall k: nat | k < s.next ensures k in Results(s, s.order) { ItemTold(s, k); }
    InOrderFacts(Results(s, s.order), s.next);
    assert i in s.order;
    ResultsFacts(s, s.order);
  }

  // ---- Whole streams ----------------------------------------------------

  /** A call of a completed stream is announced with the id and name of its
      first delta, and is listed in the end with the last id and name that were
      not empty. The announced id is final if and only if the last id of its
      deltas is the announced one or there is none, and the announced name if
      and only if it is the last name. */
  lemma AnnouncementIsFinal(ids: nat -> string, model: string, lines: seq<Line>, i: int)
    requires Of(Parts(lines), i) != []
    ensures
      var s, mine := OnLines(Start(ids, model), lines), Of(Parts(lines), i);
      && FinishesWell(s) && i in s.tools
      && var out := s.tools[i].out;
      && out < |Output(s)| && Life(Finish(s).wire, out) != []
      && var head, last := Life(Finish(s).wire, out)[0], Output(s)[out];
      && head == Announcement(s.tools[i], mine[0]) && last.Call? && last.id == head.item.id
      && last.callId == NonEmpty(LastId(mine), last.id) && last.name == LastName(mine)
      && (head.item.callId == last.callId <==> LastId(mine) == "" || LastId(mine) == head.item.callId)
      && (head.item.name == last.name <==> LastName(mine) == mine[0].name)
  {
    hide Inv, Life, Of, OnLines, Parts, FinishesWell, Finish, Output, LastId, LastName;
    StartInv(ids, model);
    assert Recorded(Start(ids, model), []) by { NothingRecorded(ids, model); }
    LinesRecorded(Start(ids, model), lines, []);
    assert [] + Parts(lines) == Parts(lines);
    OnLinesInv(Start(ids, model), lines);
    var s, mine := OnLines(Start(ids, model), lines), Of(Parts(lines), i);
    FinishIsSound(s);
    FinishKeepsFirsts(s);
    OutputLists(s, i);
    assert Recalls(s, s.tools[i], mine);
    LastIdFirst(mine);
  }

  lemma NothingRecorded(ids: nat -> string, model: string)
    ensures Recorded(Start(ids, model), [])
  {
    hide Life;
  }

  /** Without any id at all the first delta has none either. */
  lemma {:induction false} LastIdFirst(ps: seq<ToolPart>)
    requires ps != []
    ensures LastId(ps) == "" ==> ps[0].id == ""
  {
    if |ps| > 1 { LastIdFirst(ps[..|ps| - 1]); }
  }

  /** Two deltas are enough to change both: the second one's id and name replace
      the first one's whenever they differ and are not empty. */
  lemma SecondDeltaRenames(ids: nat -> string, model: string, p: ToolPart, q: ToolPart)
    requires p.index == q.index && p.id != "" && q.id !in {"", p.id} && q.name !in {"", p.name}
    ensures
      var s := OnLines(Start(ids, model), [Chunk("", Some(Choice("", "", [p, q])))]);
      && FinishesWell(s) && p.index in s.tools
      && var out := s.tools[p.index].out;
      && out < |Output(s)| && Life(Finish(s).wire, out) != []
      && var head, last := Life(Finish(s).wire, out)[0], Output(s)[out];
      && head.ItemAdded? && head.item.Call? && head.item.callId == p.id && head.item.name == p.name
      && last.Call? && last.callId == q.id && last.name == q.name
  {
    hide OnLines, Start, FinishesWell, Finish, Output, Life, Of, LastId, LastName, Parts;
    var lines := [Chunk("", Some(Choice("", "", [p, q])))];
    assert Parts(lines) == [p, q] by { OneLine(lines[0]); }
    TwoDeltas(p, q);
    AnnouncementIsFinal(ids, model, lines, p.index);
  }

  lemma OneLine(line: Line)
    ensures Parts([line]) == PartsIn(line)
  {
    assert [line][1..] == [] && PartsIn(line) + [] == PartsIn(line);
  }

  lemma TwoDeltas(p: ToolPart, q: ToolPart)
    requires p.index == q.index
    ensures Of([p, q], p.index) == [p, q]
    ensures LastId([p, q]) == NonEmpty(q.id, p.id) && LastName([p, q]) == NonEmpty(q.name, p.name)
  {
    assert [] + [p] == [p] && [p] + [q] == [p, q];
    OfSnoc([], p, p.index);
    OfSnoc([p], q, p.index);
    LastSnoc([], p);
    LastSnoc([p], q);
  }
}
