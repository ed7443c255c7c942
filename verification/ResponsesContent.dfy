/** What a Responses stream reports, in terms of the upstream's lines alone: every
    item of the final response, the deltas it grew by, the model and why the
    response is incomplete. */
module ResponsesContent {
  import opened Common
  import opened Responses
  import opened ResponsesNames

  // ---- What the lines say ------------------------------------------------

  /** One contribution of a line: some text, or a tool-call delta. */
  datatype Piece = Said(content: string) | Part(part: ToolPart)

  function PartPieces(parts: seq<ToolPart>): seq<Piece> {
    if parts == [] then [] else [Part(parts[0])] + PartPieces(parts[1..])
  }

  function PiecesIn(line: Line): seq<Piece> {
    if !line.Chunk? || line.choice.None? then []
    else
      var c := line.choice.value;
      (if c.content == "" then [] else [Said(c.content)]) + PartPieces(c.tools)
  }

  function Pieces(lines: seq<Line>): seq<Piece> {
    if lines == [] then [] else PiecesIn(lines[0]) + Pieces(lines[1..])
  }

  function Contents(ps: seq<Piece>): seq<string> {
    if ps == [] then []
    else
      var n := |ps| - 1;
      Contents(ps[..n]) + if ps[n].Said? then [ps[n].content] else []
  }

  function CallParts(ps: seq<Piece>): seq<ToolPart> {
    if ps == [] then []
    else
      var n := |ps| - 1;
      CallParts(ps[..n]) + if ps[n].Part? then [ps[n].part] else []
  }

  /** The arguments that are not empty. */
  function Arguments(parts: seq<ToolPart>): seq<string> {
    if parts == [] then []
    else
      var n := |parts| - 1;
      Arguments(parts[..n]) + if parts[n].arguments != "" then [parts[n].arguments] else []
  }

  /** What an item is about: the text, or the call of an index. */
  datatype Topic = Text | Tool(index: int)

  function TopicOf(p: Piece): Topic {
    match p
    case Said(_) => Text
    case Part(part) => Tool(part.index)
  }

  /** The topics in the order in which they come up. */
  function Topics(ps: seq<Piece>): seq<Topic> {
    if ps == [] then []
    else
      var n := |ps| - 1;
      var before, topic := Topics(ps[..n]), TopicOf(ps[n]);
      if topic in before then before else before + [topic]
  }

  /** The strings by which the item of a topic grows. */
  function Growth(topic: Topic, ps: seq<Piece>): seq<string> {
    match topic
    case Text => Contents(ps)
    case Tool(i) => Arguments(Of(CallParts(ps), i))
  }

  /** The item of a topic in the final response. */
  function Report(id: string, topic: Topic, ps: seq<Piece>): Item {
    var whole := Concat(Growth(topic, ps));
    match topic
    case Text => Message(id, whole)
    case Tool(i) =>
      var mine := Of(CallParts(ps), i);
      Call(id, if LastId(mine) == "" then id else LastId(mine), LastName(mine), if whole == "" then "{}" else whole)
  }

  /** The last model that is named, or the one asked for. */
  function LastModel(model: string, lines: seq<Line>): string {
    if lines == [] then model
    else
      var n := |lines| - 1;
      if lines[n].Chunk? && lines[n].model != "" then lines[n].model else LastModel(model, lines[..n])
  }

  /** The last reason to finish that is given; empty when there is none. */
  function LastFinish(lines: seq<Line>): string {
    if lines == [] then ""
    else
      var n := |lines| - 1;
      if lines[n].Chunk? && lines[n].choice.Some? && lines[n].choice.value.finish != ""
      then lines[n].choice.value.finish
      else LastFinish(lines[..n])
  }

  // ---- The state keeps to it ---------------------------------------------

  /** The strings by which an item grew on the wire. */
  function Deltas(life: seq<Body>): seq<string> {
    if life == [] then []
    else
      var n := |life| - 1;
      Deltas(life[..n]) + if life[n].TextDelta? || life[n].ArgsDelta? then [life[n].delta] else []
  }

  lemma DeltasSnoc(life: seq<Body>, b: Body)
    ensures Deltas(life + [b]) == Deltas(life) + if b.TextDelta? || b.ArgsDelta? then [b.delta] else []
  {
    assert (life + [b])[..|life|] == life;
  }

  lemma ContentsSnoc(ps: seq<Piece>, p: Piece)
    ensures Contents(ps + [p]) == Contents(ps) + if p.Said? then [p.content] else []
    ensures CallParts(ps + [p]) == CallParts(ps) + if p.Part? then [p.part] else []
    ensures Topics(ps + [p]) == if TopicOf(p) in Topics(ps) then Topics(ps) else Topics(ps) + [TopicOf(p)]
  {
    assert (ps + [p])[..|ps|] == ps;
  }

  lemma ArgumentsSnoc(parts: seq<ToolPart>, p: ToolPart)
    ensures Arguments(parts + [p]) == Arguments(parts) + if p.arguments != "" then [p.arguments] else []
  {
    assert (parts + [p])[..|parts|] == parts;
  }

  lemma ConcatSnoc(pieces: seq<string>, p: string)
    ensures Concat(pieces + [p]) == Concat(pieces) + p
  {
    ConcatAppend(pieces, [p]);
    assert Concat([p]) == p + Concat([p][1..]);
  }

  /** Item `k` is about this topic and has grown as the pieces say. */
  predicate Covers(s: State, k: nat, topic: Topic, ps: seq<Piece>) {
    && Deltas(Life(s.wire, k)) == Growth(topic, ps)
    && match topic
       case Text => s.text == Some(TextItem(k, s.ids(k), Concat(Contents(ps))))
       case Tool(i) =>
         var mine := Of(CallParts(ps), i);
         && i in s.tools
         && s.tools[i] == ToolItem(k, s.ids(k), LastId(mine), LastName(mine), Concat(Arguments(mine)))
  }

  ghost predicate Covered(s: State, ps: seq<Piece>) {
    && |Topics(ps)| == s.next
    && (forall k: nat :: k < s.next ==> Covers(s, k, Topics(ps)[k], ps))
    && (s.text.Some? <==> Text in Topics(ps))
    && (forall i :: i in s.tools <==> Tool(i) in Topics(ps))
  }

  ghost predicate Reflects(s: State, ps: seq<Piece>) { Covered(s, ps) && s.order == Indices(Topics(ps)) }

  /** The calls among the topics, in their order. */
  function Indices(topics: seq<Topic>): seq<int> {
    if topics == [] then []
    else
      var n := |topics| - 1;
      Indices(topics[..n]) + if topics[n].Tool? then [topics[n].index] else []
  }

  lemma IndicesSnoc(topics: seq<Topic>, topic: Topic)
    ensures Indices(topics + [topic]) == Indices(topics) + if topic.Tool? then [topic.index] else []
  {
    assert (topics + [topic])[..|topics|] == topics;
  }

  lemma {:induction false} Untold(ps: seq<Piece>, topic: Topic)
    requires topic !in Topics(ps)
    ensures Growth(topic, ps) == [] && (topic.Tool? ==> Of(CallParts(ps), topic.index) == [])
    decreases |ps|
  {
    if ps != [] {
      var n := |ps| - 1;
      Untold(ps[..n], topic);
      if ps[n].Part? && topic.Tool? { OfSnoc(CallParts(ps[..n]), ps[n].part, topic.index); }
      assert CallParts(ps[..n]) + [] == CallParts(ps[..n]);
    }
  }

  lemma WriteDeltas(s: State, out: int, body: Body, k: int)
    ensures
      Deltas(Life(Write(s, out, body).wire, k))
      == Deltas(Life(s.wire, k)) + if k == out && (body.TextDelta? || body.ArgsDelta?) then [body.delta] else []
  {
    hide Life, Announced, Deltas;
    WriteFacts(s, out, body);
    DeltasSnoc(Life(s.wire, out), body);
  }

  lemma OpenTextDeltas(s: State, k: int)
    ensures Deltas(Life(OpenText(s).wire, k)) == Deltas(Life(s.wire, k))
  {
    hide Life, Deltas;
    if s.text.None? {
      var id := s.ids(s.next);
      var a := s.(text := Some(TextItem(s.next, id, "")), next := s.next + 1);
      WriteDeltas(a, s.next, ItemAdded(Message(id, "")), k);
      WriteDeltas(Write(a, s.next, ItemAdded(Message(id, ""))), s.next, PartAdded(id), k);
    }
  }

  /** One text delta: the message grows by it, and nothing else does. */
  lemma TextGrowth(s: State, delta: string)
    requires delta != ""
    ensures
      var t := OnText(s, delta);
      && t == s.(wire := t.wire, number := t.number, text := t.text, next := t.next)
      && t.next == (if s.text.Some? then s.next else s.next + 1)
      && t.text == Some(if s.text.Some? then s.text.value.(text := s.text.value.text + delta)
                        else TextItem(s.next, s.ids(s.next), delta))
      && forall k :: Deltas(Life(t.wire, k))
                     == Deltas(Life(s.wire, k)) + if k == t.text.value.out then [delta] else []
  {
    hide Life, Deltas;
    var a := OpenText(s);
    var item := a.text.value;
    var b := a.(text := Some(item.(text := item.text + delta)));
    forall k
      ensures Deltas(Life(OnText(s, delta).wire, k))
              == Deltas(Life(s.wire, k)) + if k == item.out then [delta] else []
    {
      OpenTextDeltas(s, k);
      WriteDeltas(b, item.out, TextDelta(item.id, delta), k);
    }
    assert "" + delta == delta;
  }

  lemma OpenToolDeltas(s: State, p: ToolPart, k: int)
    ensures Deltas(Life(OpenTool(s, p).wire, k)) == Deltas(Life(s.wire, k))
  {
    hide Life, Deltas;
    if p.index !in s.tools {
      var b := ToolItem(s.next, s.ids(s.next), p.id, p.name, "");
      var a := s.(tools := s.tools[p.index := b], order := s.order + [p.index], next := s.next + 1);
      WriteDeltas(a, b.out, ItemAdded(Call(b.id, NonEmpty(b.callId, b.id), b.name, "")), k);
    }
  }

  /** One tool-call delta: its call grows by it, and nothing else does. */
  lemma ToolGrowth(s: State, p: ToolPart)
    ensures
      var t, known := OnTool(s, p), p.index in s.tools;
      var b := if known then s.tools[p.index] else ToolItem(s.next, s.ids(s.next), "", "", "");
      && t == s.(wire := t.wire, number := t.number, tools := t.tools, order := t.order, next := t.next)
      && t.next == (if known then s.next else s.next + 1)
      && t.order == (if known then s.order else s.order + [p.index])
      && t.tools == s.tools[p.index := b.(callId := if p.id != "" then p.id else b.callId,
                                          name := if p.name != "" then p.name else b.name,
                                          arguments := b.arguments + p.arguments)]
      && forall k :: Deltas(Life(t.wire, k))
                     == Deltas(Life(s.wire, k)) + if k == b.out && p.arguments != "" then [p.arguments] else []
  {
    hide Life, Deltas;
    var a := OpenTool(s, p);
    var b := a.tools[p.index];
    var c := a.(tools := a.tools[p.index := b.(arguments := b.arguments + p.arguments)]);
    forall k
      ensures Deltas(Life(OnTool(s, p).wire, k))
              == Deltas(Life(s.wire, k)) + if k == b.out && p.arguments != "" then [p.arguments] else []
    {
      OpenToolDeltas(s, p, k);
      WriteDeltas(c, b.out, ArgsDelta(b.id, p.arguments), k);
    }
    assert "" + p.arguments == p.arguments && b.arguments + "" == b.arguments;
  }

  lemma TextPlace(s: State, ps: seq<Piece>)
    requires Covered(s, ps) && s.text.Some?
    ensures var k := s.text.value.out; k < s.next && Topics(ps)[k] == Text && Covers(s, k, Text, ps)
  {
    hide Life, Deltas, Growth, Topics;
    var k: nat :| k < s.next && Topics(ps)[k] == Text;
    assert Covers(s, k, Topics(ps)[k], ps);
  }

  lemma ToolPlace(s: State, ps: seq<Piece>, i: int)
    requires Covered(s, ps) && i in s.tools
    ensures var k := s.tools[i].out; k < s.next && Topics(ps)[k] == Tool(i) && Covers(s, k, Tool(i), ps)
  {
    hide Life, Deltas, Growth, Topics;
    var k: nat :| k < s.next && Topics(ps)[k] == Tool(i);
    assert Covers(s, k, Topics(ps)[k], ps);
  }

  lemma TextStaysCovered(s: State, ps: seq<Piece>, delta: string)
    requires Inv(s) && Covered(s, ps) && delta != ""
    ensures Covered(OnText(s, delta), ps + [Said(delta)])
  {
    hide Inv, OnText, Life, Deltas, Contents, CallParts, Topics, Of, LastId, LastName, Arguments, Concat;
    var t, qs, topics := OnText(s, delta), ps + [Said(delta)], Topics(ps);
    TextGrowth(s, delta);
    ContentsSnoc(ps, Said(delta));
    ConcatSnoc(Contents(ps), delta);
    if s.text.None? {
      Untold(ps, Text);
      Nothing(s);
    } else {
      TextPlace(s, ps);
    }
    forall k: nat | k < t.next ensures Covers(t, k, Topics(qs)[k], qs) {
      if k < s.next {
        assert Covers(s, k, topics[k], ps);
        assert CallParts(qs) == CallParts(ps);
        assert Covers(t, k, topics[k], qs);
      } else {
        assert [] + [delta] == [delta] && "" + delta == delta;
        assert Covers(t, k, Text, qs);
      }
    }
  }

  lemma TextReflected(s: State, ps: seq<Piece>, delta: string)
    requires Inv(s) && Reflects(s, ps) && delta != ""
    ensures Reflects(OnText(s, delta), ps + [Said(delta)])
  {
    hide Inv, OnText, Life, Topics, Indices, Covered;
    TextStaysCovered(s, ps, delta);
    TextGrowth(s, delta);
    ContentsSnoc(ps, Said(delta));
    IndicesSnoc(Topics(ps), Text);
    assert Indices(Topics(ps)) + [] == Indices(Topics(ps));
  }

  lemma Nothing(s: State)
    requires Inv(s)
    ensures Deltas(Life(s.wire, s.next)) == [] && Concat([]) == ""
  {
    hide Inv, Life;
    NothingYet(s);
  }

  lemma KnownToolReflected(s: State, ps: seq<Piece>, p: ToolPart, k: nat)
    requires Inv(s) && Covered(s, ps) && k < s.next
    ensures Covers(OnTool(s, p), k, Topics(ps)[k], ps + [Part(p)])
  {
    hide Inv, OnTool, Life, Deltas, Contents, CallParts, Topics, Of, LastId, LastName, Arguments, Concat;
    var mine, topic := Of(CallParts(ps), p.index), Topics(ps)[k];
    ToolGrowth(s, p);
    ContentsSnoc(ps, Part(p));
    assert Contents(ps) + [] == Contents(ps);
    assert Covers(s, k, topic, ps);
    if p.index in s.tools { ToolPlace(s, ps, p.index); }
    if topic.Tool? {
      OfSnoc(CallParts(ps), p, topic.index);
      if topic.index == p.index {
        var args := Arguments(mine);
        ArgumentsSnoc(mine, p);
        ConcatSnoc(args, p.arguments);
        LastSnoc(mine, p);
        assert args + [] == args && Concat(args) + "" == Concat(args);
      }
    }
  }

  lemma NewToolReflected(s: State, ps: seq<Piece>, p: ToolPart)
    requires Inv(s) && Covered(s, ps) && p.index !in s.tools
    ensures Covers(OnTool(s, p), s.next, Tool(p.index), ps + [Part(p)])
  {
    hide Inv, OnTool, Life, Deltas, Contents, CallParts, Topics, Of, LastId, LastName, Arguments, Concat;
    ToolGrowth(s, p);
    ContentsSnoc(ps, Part(p));
    Untold(ps, Tool(p.index));
    Nothing(s);
    NoParts();
    OfSnoc(CallParts(ps), p, p.index);
    ArgumentsSnoc([], p);
    ConcatSnoc([], p.arguments);
    LastSnoc([], p);
    assert [] + [p] == [p] && [] + [p.arguments] == [p.arguments] && "" + p.arguments == p.arguments;
  }

  lemma ToolStaysCovered(s: State, ps: seq<Piece>, p: ToolPart)
    requires Inv(s) && Covered(s, ps)
    ensures Covered(OnTool(s, p), ps + [Part(p)])
  {
    hide Inv, OnTool, Life, Deltas, Contents, CallParts, Topics, Of, LastId, LastName, Arguments, Concat, Covers;
    var t, qs := OnTool(s, p), ps + [Part(p)];
    ToolGrowth(s, p);
    ContentsSnoc(ps, Part(p));
    if p.index !in s.tools { NewToolReflected(s, ps, p); }
    forall k: nat | k < t.next ensures Covers(t, k, Topics(qs)[k], qs) {
      if k < s.next { KnownToolReflected(s, ps, p, k); }
    }
  }

  lemma ToolReflected(s: State, ps: seq<Piece>, p: ToolPart)
    requires Inv(s) && Reflects(s, ps)
    ensures Reflects(OnTool(s, p), ps + [Part(p)])
  {
    hide Inv, OnTool, Life, Topics, Indices, Covers;
    ToolStaysCovered(s, ps, p);
    ToolGrowth(s, p);
    ContentsSnoc(ps, Part(p));
    IndicesSnoc(Topics(ps), Tool(p.index));
  }

  lemma {:induction false} ToolsReflected(s: State, ps: seq<Piece>, parts: seq<ToolPart>)
    requires Inv(s) && Reflects(s, ps)
    ensures Reflects(OnTools(s, parts), ps + PartPieces(parts))
    decreases |parts|
  {
    hide Inv, Reflects, OnTool;
    if parts == [] {
      assert ps + [] == ps;
    } else {
      ToolReflected(s, ps, parts[0]);
      OnToolInv(s, parts[0]);
      ToolsReflected(OnTool(s, parts[0]), ps + [Part(parts[0])], parts[1..]);
      assert ps + [Part(parts[0])] + PartPieces(parts[1..]) == ps + PartPieces(parts);
    }
  }

  lemma Relabelled(s: State, ps: seq<Piece>, finish: string, model: string)
    requires Reflects(s, ps)
    ensures Reflects(s.(finish := finish, model := model), ps)
  {
    hide Life, Deltas, Contents, CallParts, Topics, Of, LastId, LastName, Arguments, Concat;
    var t := s.(finish := finish, model := model);
    forall k: nat | k < t.next ensures Covers(t, k, Topics(ps)[k], ps) { assert Covers(s, k, Topics(ps)[k], ps); }
  }

  lemma LineReflected(s: State, ps: seq<Piece>, line: Line)
    requires Inv(s) && Reflects(s, ps)
    ensures Reflects(OnLine(s, line), ps + PiecesIn(line)) && Inv(OnLine(s, line))
  {
    hide Inv, Reflects, OnText, OnTools;
    assert ps + [] == ps;
    if line.Chunk? {
      var model := if line.model != "" then line.model else s.model;
      Relabelled(s, ps, s.finish, model);
      RelabelInv(s, s.finish, model);
      if line.choice.Some? {
        var c := line.choice.value;
        var a := s.(finish := if c.finish != "" then c.finish else s.finish, model := model);
        Relabelled(s, ps, a.finish, model);
        RelabelInv(s, a.finish, model);
        OnTextInv(a, c.content);
        var b, qs := OnText(a, c.content), if c.content == "" then ps else ps + [Said(c.content)];
        if c.content != "" { TextReflected(a, ps, c.content); } else { EmptyText(a); }
        ToolsReflected(b, qs, c.tools);
        OnToolsInv(b, c.tools);
        assert qs + PartPieces(c.tools) == ps + PiecesIn(line);
      }
    }
  }

  lemma EmptyText(s: State)
    ensures OnText(s, "") == s
  {}

  lemma {:induction false} LinesReflected(s: State, ps: seq<Piece>, lines: seq<Line>)
    requires Inv(s) && Reflects(s, ps)
    ensures Reflects(OnLines(s, lines), ps + Pieces(lines))
    decreases |lines|
  {
    hide Inv, Reflects, OnLine, PiecesIn;
    if lines == [] {
      assert ps + [] == ps;
    } else {
      LineReflected(s, ps, lines[0]);
      LinesReflected(OnLine(s, lines[0]), ps + PiecesIn(lines[0]), lines[1..]);
      assert ps + PiecesIn(lines[0]) + Pieces(lines[1..]) == ps + Pieces(lines);
    }
  }

  // ---- Model and reason ---------------------------------------------------

  lemma {:induction false} ToolsKeepLabels(s: State, parts: seq<ToolPart>)
    ensures OnTools(s, parts).finish == s.finish && OnTools(s, parts).model == s.model
    decreases |parts|
  {
    if parts != [] { ToolsKeepLabels(OnTool(s, parts[0]), parts[1..]); }
  }

  lemma LineLabels(s: State, line: Line)
    ensures
      var t := OnLine(s, line);
      && t.model == (if line.Chunk? && line.model != "" then line.model else s.model)
      && t.finish == (if line.Chunk? && line.choice.Some? && line.choice.value.finish != ""
                      then line.choice.value.finish else s.finish)
  {
    if line.Chunk? && line.choice.Some? {
      var c := line.choice.value;
      var a := s.(finish := NonEmpty(c.finish, s.finish), model := NonEmpty(line.model, s.model));
      ToolsKeepLabels(OnText(a, c.content), c.tools);
    }
    hide OnTools;
  }

  lemma {:induction false} LinesLabels(ids: nat -> string, model: string, lines: seq<Line>)
    ensures
      var s := OnLines(Start(ids, model), lines);
      s.model == LastModel(model, lines) && s.finish == LastFinish(lines)
    decreases |lines|
  {
    if lines != [] {
      hide OnLine;
      var n := |lines| - 1;
      LinesLabels(ids, model, lines[..n]);
      OnLinesSnoc(Start(ids, model), lines[..n], lines[n]);
      assert lines[..n] + [lines[n]] == lines;
      LineLabels(OnLines(Start(ids, model), lines[..n]), lines[n]);
    }
  }

  // ---- The final response -------------------------------------------------

  lemma {:induction false} DeltasAppend(life: seq<Body>, more: seq<Body>)
    requires forall b :: b in more ==> !b.TextDelta? && !b.ArgsDelta?
    ensures Deltas(life + more) == Deltas(life)
    decreases |more|
  {
    if more == [] {
      assert life + more == life;
    } else {
      var n := |more| - 1;
      DeltasAppend(life, more[..n]);
      DeltasSnoc(life + more[..n], more[n]);
      assert life + more == life + more[..n] + [more[n]];
    }
  }

  /** Finishing an item adds no delta, and lists it as its topic says. */
  lemma ItemReported(s: State, ps: seq<Piece>, k: nat)
    requires Inv(s) && Reflects(s, ps) && k < s.next
    requires forall j :: 0 <= j < |s.order| ==> s.order[j] in s.tools
    ensures
      var t, m := CloseTools(CloseText(s), s.order), Results(s, s.order);
      && k in m && m[k] == Report(s.ids(k), Topics(ps)[k], ps)
      && Deltas(Life(t.wire, k)) == Growth(Topics(ps)[k], ps)
  {
    hide Life, Announced, Glued, CloseText, CloseTools, Results, TextGrows, ToolGrows, Told, Deltas, Contents;
    hide CallParts, Topics, Of, LastId, LastName, Arguments, Concat;
    ResultsFacts(s, s.order);
    var a := CloseText(s);
    CloseTextFrame(s);
    CloseToolsAdds(a, s.order);
    assert Covers(s, k, Topics(ps)[k], ps);
    match Topics(ps)[k]
    case Text =>
      CloseTextAdds(s);
      var item := s.text.value;
      DeltasAppend(Life(s.wire, k), [TextDone(item.id, item.text), PartDone(item.id, item.text),
                                     ItemDone(TextResult(item))]);
    case Tool(i) =>
      assert s.text.Some? ==> s.text.value.out != k;
      DeltasAppend(Life(s.wire, k), Closing(s.tools[i]));
  }

  /** Every item on the wire has grown by exactly these pieces, string by string. */
  predicate Carries(wire: seq<Event>, ps: seq<Piece>) {
    forall k :: 0 <= k < |Topics(ps)| ==> Deltas(Life(wire, k)) == Growth(Topics(ps)[k], ps)
  }

  /** A stream that is not finished carries what the lines have said so far. */
  lemma LinesCarry(ids: nat -> string, model: string, lines: seq<Line>)
    ensures Carries(OnLines(Start(ids, model), lines).wire, Pieces(lines))
  {
    hide Inv, OnLines, Start, Life, Deltas, Growth, Topics, Pieces;
    var s, ps := OnLines(Start(ids, model), lines), Pieces(lines);
    StartInv(ids, model);
    NothingReflected(ids, model);
    LinesReflected(Start(ids, model), [], lines);
    assert [] + ps == ps;
    forall k | 0 <= k < |Topics(ps)| ensures Deltas(Life(s.wire, k)) == Growth(Topics(ps)[k], ps) {
      assert Covers(s, k, Topics(ps)[k], ps);
    }
  }

  /** What a completed stream reports. */
  ghost predicate Reports(wire: seq<Event>, ids: nat -> string, model: string, lines: seq<Line>) {
    var ps := Pieces(lines);
    && |wire| > 0
    && var last := wire[|wire| - 1].body;
    && last.Finished? && last.model == LastModel(model, lines)
    && last.incomplete == (if LastFinish(lines) in {"length", "max_tokens"} then "max_output_tokens"
                           else if LastFinish(lines) == "content_filter" then "content_filter"
                           else "")
    && |last.output| == |Topics(ps)|
    && (forall k :: 0 <= k < |last.output| ==> last.output[k] == Report(ids(k), Topics(ps)[k], ps))
    && Carries(wire, ps)
  }

  /** Whatever the upstream sends: the final response lists one item for the text
      and one for each call, in the order in which they first come up, with all
      text and all arguments that were sent, and the wire carries those string by
      string; the model and the reason are the last ones given. */
  lemma StreamReports(ids: nat -> string, model: string, lines: seq<Line>)
    ensures
      var s := OnLines(Start(ids, model), lines);
      FinishesWell(s) && Reports(Finish(s).wire, ids, model, lines)
  {
    hide Inv, FinishesWell, OnLines, Start, Reflects, Finish, Pieces, LastModel, LastFinish;
    var start, s, ps := Start(ids, model), OnLines(Start(ids, model), lines), Pieces(lines);
    StartInv(ids, model);
    OnLinesInv(start, lines);
    NothingReflected(ids, model);
    LinesReflected(start, [], lines);
    assert [] + ps == ps;
    LinesLabels(ids, model, lines);
    CompletedStreamIsSound(ids, model, lines);
    FinishReports(s, ps);
  }

  lemma NothingReflected(ids: nat -> string, model: string)
    ensures Reflects(Start(ids, model), [])
  {}

  lemma FinishReports(s: State, ps: seq<Piece>)
    requires Inv(s) && Reflects(s, ps) && FinishesWell(s)
    ensures
      var w := Finish(s).wire;
      && |w| > 0
      && var last := w[|w| - 1].body;
      && last.Finished? && last.model == s.model && |last.output| == |Topics(ps)|
      && last.incomplete == (if s.finish in {"length", "max_tokens"} then "max_output_tokens"
                             else if s.finish == "content_filter" then "content_filter"
                             else "")
      && (forall k :: 0 <= k < |last.output| ==> last.output[k] == Report(s.ids(k), Topics(ps)[k], ps))
      && Carries(w, ps)
  {
    hide Inv, Life, Announced, Glued, CloseText, CloseTools, Results, InOrder, Sound, Deltas, Topics, Report, Growth;
    CloseTextFrame(s);
    var a, m := CloseTools(CloseText(s), s.order), Results(s, s.order);
    forall k: nat | k < s.next
      ensures
        && k in m && m[k] == Report(s.ids(k), Topics(ps)[k], ps)
        && Deltas(Life(a.wire, k)) == Growth(Topics(ps)[k], ps)
    {
      ItemReported(s, ps, k);
    }
    InOrderFacts(m, s.next);
    CountsTopics(s, ps);
    WriteFacts(a, -1, Finished(Incomplete(s.finish), s.model, InOrder(m, s.next)));
  }

  lemma CountsTopics(s: State, ps: seq<Piece>)
    requires Reflects(s, ps)
    ensures |Topics(ps)| == s.next
  {
    hide Life, Deltas, Topics;
  }

  // ---- The order in which items are finished -------------------------------

  /** The output indices in the order in which their items are finished. */
  function Dones(wire: seq<Event>): seq<int> {
    if wire == [] then []
    else
      var n := |wire| - 1;
      Dones(wire[..n]) + if wire[n].body.ItemDone? then [wire[n].out] else []
  }

  /** Where the calls are among the topics. */
  function CallSpots(topics: seq<Topic>): seq<int> {
    if topics == [] then []
    else
      var n := |topics| - 1;
      CallSpots(topics[..n]) + if topics[n].Tool? then [n] else []
  }

  lemma {:induction false} SpotsOfIndices(topics: seq<Topic>)
    ensures |CallSpots(topics)| == |Indices(topics)|
    ensures forall j :: 0 <= j < |Indices(topics)| ==>
      var k := CallSpots(topics)[j];
      0 <= k < |topics| && topics[k] == Tool(Indices(topics)[j])
    decreases |topics|
  {
    if topics != [] { SpotsOfIndices(topics[..|topics| - 1]); }
  }

  lemma WriteDones(s: State, out: int, body: Body)
    ensures Dones(Write(s, out, body).wire) == Dones(s.wire) + if body.ItemDone? then [out] else []
  {
    assert Write(s, out, body).wire[..|s.wire|] == s.wire;
  }

  lemma {:induction false} ToolsDones(s: State, parts: seq<ToolPart>)
    ensures Dones(OnTools(s, parts).wire) == Dones(s.wire)
    decreases |parts|
  {
    hide Dones;
    if parts != [] {
      var p := parts[0];
      var b := ToolItem(s.next, s.ids(s.next), p.id, p.name, "");
      var a := s.(tools := s.tools[p.index := b], order := s.order + [p.index], next := s.next + 1);
      WriteDones(a, b.out, ItemAdded(Call(b.id, NonEmpty(b.callId, b.id), b.name, "")));
      var c := OpenTool(s, p);
      var d := c.tools[p.index];
      WriteDones(c.(tools := c.tools[p.index := d.(arguments := d.arguments + p.arguments)]), d.out,
                 ArgsDelta(d.id, p.arguments));
      ToolsDones(OnTool(s, p), parts[1..]);
    }
  }

  lemma TextDones(s: State, delta: string)
    ensures Dones(OnText(s, delta).wire) == Dones(s.wire)
  {
    hide Dones;
    var id := s.ids(s.next);
    var a := s.(text := Some(TextItem(s.next, id, "")), next := s.next + 1);
    WriteDones(a, s.next, ItemAdded(Message(id, "")));
    WriteDones(Write(a, s.next, ItemAdded(Message(id, ""))), s.next, PartAdded(id));
    var b := OpenText(s);
    var t := b.text.value;
    WriteDones(b.(text := Some(t.(text := t.text + delta))), t.out, TextDelta(t.id, delta));
  }

  lemma {:induction false} LinesDones(s: State, lines: seq<Line>)
    ensures Dones(OnLines(s, lines).wire) == Dones(s.wire)
    decreases |lines|
  {
    hide Dones, OnText, OnTools;
    if lines != [] {
      if lines[0].Chunk? && lines[0].choice.Some? {
        var c := lines[0].choice.value;
        var a := s.(finish := NonEmpty(c.finish, s.finish), model := NonEmpty(lines[0].model, s.model));
        TextDones(a, c.content);
        ToolsDones(OnText(a, c.content), c.tools);
      }
      LinesDones(OnLine(s, lines[0]), lines[1..]);
    }
  }

  /** The output indices of some calls. */
  function Outs(s: State, todo: seq<int>): (r: seq<int>)
    requires forall k :: 0 <= k < |todo| ==> todo[k] in s.tools
    ensures |r| == |todo| && forall k :: 0 <= k < |todo| ==> r[k] == s.tools[todo[k]].out
  {
    if todo == [] then [] else [s.tools[todo[0]].out] + Outs(s, todo[1..])
  }

  lemma {:induction false} CloseToolsDones(s: State, todo: seq<int>)
    requires forall k :: 0 <= k < |todo| ==> todo[k] in s.tools
    ensures Dones(CloseTools(s, todo).wire) == Dones(s.wire) + Outs(s, todo)
    decreases |todo|
  {
    hide Dones;
    if todo == [] {
      assert Dones(s.wire) + [] == Dones(s.wire);
    } else {
      var b := s.tools[todo[0]];
      var a, before := CloseTool(s, b), Dones(s.wire);
      CloseToolDones(s, b);
      hide CloseTool;
      CloseToolsDones(a, todo[1..]);
      assert Outs(a, todo[1..]) == Outs(s, todo[1..]);
      assert before + [b.out] + Outs(s, todo[1..]) == before + ([b.out] + Outs(s, todo[1..]));
    }
  }

  lemma CloseToolDones(s: State, b: ToolItem)
    ensures Dones(CloseTool(s, b).wire) == Dones(s.wire) + [b.out] && CloseTool(s, b).tools == s.tools
  {
    hide Dones;
    var done := ArgsDone(b.id, NonEmpty(b.arguments, "{}"));
    WriteDones(s, b.out, done);
    WriteDones(Write(s, b.out, done), b.out, ItemDone(ToolResult(b)));
  }

  lemma CloseTextDones(s: State)
    ensures Dones(CloseText(s).wire) == Dones(s.wire) + if s.text.Some? then [s.text.value.out] else []
  {
    hide Dones;
    if s.text.Some? {
      var t := s.text.value;
      var a := Write(s, t.out, TextDone(t.id, t.text));
      WriteDones(s, t.out, TextDone(t.id, t.text));
      WriteDones(a, t.out, PartDone(t.id, t.text));
      WriteDones(Write(a, t.out, PartDone(t.id, t.text)), t.out, ItemDone(TextResult(t)));
    }
  }

  lemma OrderIsSpots(s: State, ps: seq<Piece>)
    requires Reflects(s, ps) && forall k :: 0 <= k < |s.order| ==> s.order[k] in s.tools
    ensures Outs(s, s.order) == CallSpots(Topics(ps))
  {
    hide Topics, Indices, CallSpots, Covers;
    var topics := Topics(ps);
    SpotsOfIndices(topics);
    TopicsAreDistinct(ps);
    forall k | 0 <= k < |s.order| ensures s.tools[s.order[k]].out == CallSpots(topics)[k] {
      ToolPlace(s, ps, s.order[k]);
    }
  }

  lemma FinishDones(s: State, ps: seq<Piece>)
    requires Inv(s) && Reflects(s, ps) && forall k :: 0 <= k < |s.order| ==> s.order[k] in s.tools
    ensures Dones(Finish(s).wire)
            == Dones(s.wire) + (if s.text.Some? then [s.text.value.out] else []) + CallSpots(Topics(ps))
  {
    hide Inv, Reflects, CloseText, CloseTools, Dones, Results, InOrder, CallSpots, Topics, Incomplete, Outs;
    CloseTextDones(s);
    CloseTextFrame(s);
    var a := CloseText(s);
    CloseToolsDones(a, s.order);
    OrderIsSpots(s, ps);
    assert Outs(a, s.order) == Outs(s, s.order);
    var b := CloseTools(a, s.order);
    WriteDones(b, -1, Finished(Incomplete(s.finish), s.model, InOrder(Results(s, s.order), s.next)));
    assert Dones(b.wire) + [] == Dones(b.wire);
  }

  /** Items are finished once the upstream has ended, the message first and then
      the calls in the order in which they came up. */
  lemma ItemsFinishInOrder(ids: nat -> string, model: string, lines: seq<Line>)
    ensures
      var s, topics := OnLines(Start(ids, model), lines), Topics(Pieces(lines));
      && FinishesWell(s)
      && Dones(s.wire) == []
      && var done := Dones(Finish(s).wire);
      if Text in topics then done != [] && 0 <= done[0] < |topics| && topics[done[0]] == Text
                             && done[1..] == CallSpots(topics)
      else done == CallSpots(topics)
  {
    hide Inv, FinishesWell, OnLines, Start, Finish, Reflects, Pieces, Topics, Dones, CallSpots;
    var start, s, ps := Start(ids, model), OnLines(Start(ids, model), lines), Pieces(lines);
    StartInv(ids, model);
    OnLinesInv(start, lines);
    NothingReflected(ids, model);
    LinesReflected(start, [], lines);
    assert [] + ps == ps;
    CompletedStreamIsSound(ids, model, lines);
    FinishCanStart(s);
    LinesDones(start, lines);
    StartDones(ids, model);
    FinishDones(s, ps);
    TextCovered(s, ps);
    if s.text.Some? { TextPlace(s, ps); }
    assert [] + [] + CallSpots(Topics(ps)) == CallSpots(Topics(ps));
  }

  lemma StartDones(ids: nat -> string, model: string)
    ensures Dones(Start(ids, model).wire) == []
  {
    var a := State(ids, [], 0, None, map[], [], 0, "", model);
    WriteDones(a, -1, Created);
    WriteDones(Write(a, -1, Created), -1, InProgress);
  }

  lemma TextCovered(s: State, ps: seq<Piece>)
    requires Reflects(s, ps)
    ensures Covered(s, ps) && |Topics(ps)| == s.next && (s.text.Some? <==> Text in Topics(ps))
  {
    hide Covers;
  }

  // ---- The text alone -----------------------------------------------------

  /** All text that the lines carry. */
  function Content(lines: seq<Line>): string {
    if lines == [] then ""
    else (if lines[0].Chunk? && lines[0].choice.Some? then lines[0].choice.value.content else "") + Content(lines[1..])
  }

  lemma {:induction false} ContentsAppend(a: seq<Piece>, b: seq<Piece>)
    ensures Contents(a + b) == Contents(a) + Contents(b)
    decreases |b|
  {
    if b == [] {
      assert a + b == a && Contents(a) + [] == Contents(a);
    } else {
      var n := |b| - 1;
      ContentsAppend(a, b[..n]);
      assert a + b == a + b[..n] + [b[n]];
      ContentsSnoc(a + b[..n], b[n]);
    }
  }

  lemma {:induction false} PartsSayNothing(parts: seq<ToolPart>)
    ensures Contents(PartPieces(parts)) == []
    decreases |parts|
  {
    if parts != [] {
      PartsSayNothing(parts[1..]);
      ContentsAppend([Part(parts[0])], PartPieces(parts[1..]));
      ContentsSnoc([], Part(parts[0]));
      assert [] + [Part(parts[0])] == [Part(parts[0])];
    }
  }

  lemma LineContent(line: Line)
    ensures
      var text := if line.Chunk? && line.choice.Some? then line.choice.value.content else "";
      Contents(PiecesIn(line)) == if text == "" then [] else [text]
  {
    if line.Chunk? && line.choice.Some? {
      var c := line.choice.value;
      PartsSayNothing(c.tools);
      if c.content == "" {
        assert [] + PartPieces(c.tools) == PartPieces(c.tools);
      } else {
        ContentsAppend([Said(c.content)], PartPieces(c.tools));
        ContentsSnoc([], Said(c.content));
        assert [] + [Said(c.content)] == [Said(c.content)];
      }
    }
  }

  lemma {:induction false} ContentIsWhole(lines: seq<Line>)
    ensures Concat(Contents(Pieces(lines))) == Content(lines)
    ensures Content(lines) == "" <==> Contents(Pieces(lines)) == []
    decreases |lines|
  {
    hide PiecesIn, Contents;
    if lines == [] {
      assert Contents([]) == [] by { NoContents(); }
    } else {
      var head, tail := PiecesIn(lines[0]), Pieces(lines[1..]);
      LineContent(lines[0]);
      ContentsAppend(head, tail);
      ConcatAppend(Contents(head), Contents(tail));
      ContentIsWhole(lines[1..]);
      if Contents(head) != [] { ConcatSnoc([], Contents(head)[0]); }
    }
  }

  lemma NoContents()
    ensures Contents([]) == []
  {}

  lemma {:induction false} TopicsAreDistinct(ps: seq<Piece>)
    ensures forall j, k :: 0 <= j < k < |Topics(ps)| ==> Topics(ps)[j] != Topics(ps)[k]
    ensures Text in Topics(ps) <==> Contents(ps) != []
    decreases |ps|
  {
    if ps != [] { TopicsAreDistinct(ps[..|ps| - 1]); }
  }

  lemma {:induction false} DeltasGlue(life: seq<Body>)
    ensures Glued(life) == Concat(Deltas(life))
    decreases |life|
  {
    if life != [] {
      var n := |life| - 1;
      DeltasGlue(life[..n]);
      if life[n].TextDelta? || life[n].ArgsDelta? {
        ConcatSnoc(Deltas(life[..n]), life[n].delta);
      } else {
        assert Deltas(life[..n]) + [] == Deltas(life[..n]);
      }
    }
  }

  /** There is a message, and one only, if and only if the lines carry text; it has
      all of it, and so have the deltas on the wire. */
  lemma TextArrives(ids: nat -> string, model: string, lines: seq<Line>)
    ensures
      var s, text := OnLines(Start(ids, model), lines), Content(lines);
      && FinishesWell(s)
      && var w, output := Finish(s).wire, Output(s);
      && ((exists k :: 0 <= k < |output| && output[k].Message?) <==> text != "")
      && (forall j, k :: 0 <= j < k < |output| ==> !(output[j].Message? && output[k].Message?))
      && forall k :: 0 <= k < |output| && output[k].Message? ==> output[k].text == text && Glued(Life(w, k)) == text
  {
    hide FinishesWell, OnLines, Start, Finish, Pieces, Content, LastModel, LastFinish, Life, Glued, Deltas, Topics;
    hide Contents, Concat;
    StreamReports(ids, model, lines);
    ContentIsWhole(lines);
    var s, ps := OnLines(Start(ids, model), lines), Pieces(lines);
    TopicsAreDistinct(ps);
    FinishCanStart(s);
    var w, output := Finish(s).wire, Output(s);
    forall k | 0 <= k < |output| ensures output[k].Message? <==> Topics(ps)[k] == Text {
      assert output[k] == Report(ids(k), Topics(ps)[k], ps);
    }
    forall k | 0 <= k < |output| && output[k].Message?
      ensures output[k].text == Content(lines) && Glued(Life(w, k)) == Content(lines)
    {
      DeltasGlue(Life(w, k));
    }
    if Content(lines) != "" {
      var k :| 0 <= k < |output| && Topics(ps)[k] == Text;
      assert output[k].Message?;
    }
  }
}
