/** The Responses-API event stream of the Zen gateway: text and tool-call
    deltas of a chat completion are announced as numbered output items, grow,
    are finished, and are listed in the final response. */
module Responses {
  import opened Common
  import Lines

  /** One tool-call delta; missing strings are empty. */
  datatype ToolPart = ToolPart(index: int, id: string, name: string, arguments: string)

  /** One decoded upstream line: nothing of interest, an upstream error, or a
      completion chunk with an optional first choice. */
  datatype Line =
    | Skip
    | Failure
    | Chunk(model: string, choice: Option<Choice>)

  datatype Choice = Choice(finish: string, content: string, tools: seq<ToolPart>)

  datatype Item =
    | Message(id: string, text: string)
    | Call(id: string, callId: string, name: string, arguments: string)

  datatype Body =
    | Created
    | InProgress
    | ItemAdded(item: Item)
    | PartAdded(id: string)
    | TextDelta(id: string, delta: string)
    | ArgsDelta(id: string, delta: string)
    | TextDone(id: string, text: string)
    | PartDone(id: string, text: string)
    | ArgsDone(id: string, arguments: string)
    | ItemDone(item: Item)
    | Finished(incomplete: string, model: string, output: seq<Item>)

  /** `out` is the output index, -1 for events about the whole response. */
  datatype Event = Event(number: nat, out: int, body: Body)

  datatype TextItem = TextItem(out: nat, id: string, text: string)

  datatype ToolItem = ToolItem(out: nat, id: string, callId: string, name: string, arguments: string)

  /** The local state of the stream. `ids` are the generated item ids. */
  datatype State = State(
    ids: nat -> string,
    wire: seq<Event>,
    number: nat,
    text: Option<TextItem>,
    tools: map<int, ToolItem>,
    order: seq<int>,
    next: nat,
    finish: string,
    model: string)

  function Write(s: State, out: int, body: Body): State {
    s.(wire := s.wire + [Event(s.number, out, body)], number := s.number + 1)
  }

  function Start(ids: nat -> string, model: string): State {
    Write(Write(State(ids, [], 0, None, map[], [], 0, "", model), -1, Created), -1, InProgress)
  }

  // ---- Streaming -------------------------------------------------------

  function OpenText(s: State): (t: State)
    ensures t.text.Some?
  {
    if s.text.Some? then s
    else
      var id := s.ids(s.next);
      Write(Write(s.(text := Some(TextItem(s.next, id, "")), next := s.next + 1),
                  s.next, ItemAdded(Message(id, ""))),
            s.next, PartAdded(id))
  }

  function OnText(s: State, delta: string): State {
    if delta == "" then s
    else
      var a := OpenText(s);
      var t := a.text.value;
      Write(a.(text := Some(t.(text := t.text + delta))), t.out, TextDelta(t.id, delta))
  }

  function NonEmpty(new_: string, kept: string): string { if new_ != "" then new_ else kept }

  /** The first delta of a call registers and announces its item. */
  function OpenTool(s: State, p: ToolPart): (t: State)
    ensures p.index in t.tools
  {
    if p.index in s.tools then
      var b := s.tools[p.index];
      s.(tools := s.tools[p.index := b.(callId := NonEmpty(p.id, b.callId), name := NonEmpty(p.name, b.name))])
    else
      var b := ToolItem(s.next, s.ids(s.next), p.id, p.name, "");
      Write(s.(tools := s.tools[p.index := b], order := s.order + [p.index], next := s.next + 1),
            b.out, ItemAdded(Call(b.id, NonEmpty(b.callId, b.id), b.name, "")))
  }

  function OnTool(s: State, p: ToolPart): State {
    var a := OpenTool(s, p);
    if p.arguments == "" then a
    else
      var b := a.tools[p.index];
      Write(a.(tools := a.tools[p.index := b.(arguments := b.arguments + p.arguments)]),
            b.out, ArgsDelta(b.id, p.arguments))
  }

  function OnTools(s: State, ps: seq<ToolPart>): State
    decreases |ps|
  {
    if ps == [] then s else OnTools(OnTool(s, ps[0]), ps[1..])
  }

  function OnLine(s: State, line: Line): State {
    if !line.Chunk? then s
    else
      var a := s.(model := NonEmpty(line.model, s.model));
      if line.choice.None? then a
      else
        var c := line.choice.value;
        OnTools(OnText(a.(finish := NonEmpty(c.finish, a.finish)), c.content), c.tools)
  }

  function OnLines(s: State, lines: seq<Line>): State
    decreases |lines|
  {
    if lines == [] then s else OnLines(OnLine(s, lines[0]), lines[1..])
  }

  // ---- Finishing -------------------------------------------------------

  function TextResult(t: TextItem): Item { Message(t.id, t.text) }

  function ToolResult(b: ToolItem): Item {
    Call(b.id, NonEmpty(b.callId, b.id), b.name, NonEmpty(b.arguments, "{}"))
  }

  function CloseText(s: State): State {
    if s.text.None? then s
    else
      var t := s.text.value;
      Write(Write(Write(s, t.out, TextDone(t.id, t.text)), t.out, PartDone(t.id, t.text)),
            t.out, ItemDone(TextResult(t)))
  }

  function CloseTool(s: State, b: ToolItem): State {
    Write(Write(s, b.out, ArgsDone(b.id, NonEmpty(b.arguments, "{}"))), b.out, ItemDone(ToolResult(b)))
  }

  function CloseTools(s: State, todo: seq<int>): State
    requires forall k :: 0 <= k < |todo| ==> todo[k] in s.tools
    decreases |todo|
  {
    if todo == [] then s else CloseTools(CloseTool(s, s.tools[todo[0]]), todo[1..])
  }

  /** The finished items by output index. */
  function Results(s: State, todo: seq<int>): map<nat, Item>
    requires forall k :: 0 <= k < |todo| ==> todo[k] in s.tools
    decreases |todo|
  {
    if todo == [] then
      if s.text.None? then map[] else map[s.text.value.out := TextResult(s.text.value)]
    else
      var n := |todo| - 1;
      Results(s, todo[..n])[s.tools[todo[n]].out := ToolResult(s.tools[todo[n]])]
  }

  /** The items in the order of their indices. */
  function InOrder(m: map<nat, Item>, below: nat): seq<Item> {
    if below == 0 then []
    else InOrder(m, below - 1) + if below - 1 in m then [m[below - 1]] else []
  }

  function Incomplete(finish: string): string {
    if finish == "length" || finish == "max_tokens" then "max_output_tokens"
    else if finish == "content_filter" then "content_filter"
    else ""
  }

  function Finish(s: State): State
    requires forall k :: 0 <= k < |s.order| ==> s.order[k] in s.tools
  {
    var a := CloseTools(CloseText(s), s.order);
    Write(a, -1, Finished(Incomplete(s.finish), s.model, InOrder(Results(s, s.order), s.next)))
  }

  // ---- What the client can rely on -------------------------------------

  /** The events of one output item, in order. */
  function Life(wire: seq<Event>, i: int): seq<Body> {
    if wire == [] then []
    else
      var n := |wire| - 1;
      Life(wire[..n], i) + if wire[n].out == i then [wire[n].body] else []
  }

  /** The text or arguments streamed in these events. */
  function Glued(life: seq<Body>): string {
    if life == [] then ""
    else
      var n := |life| - 1;
      Glued(life[..n])
        + if life[n].TextDelta? then life[n].delta else if life[n].ArgsDelta? then life[n].delta else ""
  }

  /** The output indices in the order in which items are announced. */
  function Announced(wire: seq<Event>): seq<int> {
    if wire == [] then []
    else
      var n := |wire| - 1;
      Announced(wire[..n]) + if wire[n].body.ItemAdded? then [wire[n].out] else []
  }

  ghost predicate Numbered(wire: seq<Event>) {
    forall k :: 0 <= k < |wire| ==> wire[k].number == k
  }

  lemma WriteFacts(s: State, out: int, body: Body)
    ensures
      var t := Write(s, out, body);
      && (forall i :: Life(t.wire, i) == if i == out then Life(s.wire, i) + [body] else Life(s.wire, i))
      && Announced(t.wire) == (if body.ItemAdded? then Announced(s.wire) + [out] else Announced(s.wire))
      && (s.number == |s.wire| && Numbered(s.wire) ==> t.number == |t.wire| && Numbered(t.wire))
  {
    var t := Write(s, out, body);
    assert t.wire[..|s.wire|] == s.wire;
  }

  lemma GluedSnoc(life: seq<Body>, b: Body)
    ensures Glued(life + [b])
            == Glued(life) + if b.TextDelta? then b.delta else if b.ArgsDelta? then b.delta else ""
  {
    assert (life + [b])[..|life|] == life;
  }

  /** A message item that is still growing. */
  predicate TextGrows(life: seq<Body>, t: TextItem) {
    && |life| >= 2
    && life[0] == ItemAdded(Message(t.id, "")) && life[1] == PartAdded(t.id)
    && (forall k :: 2 <= k < |life| ==> life[k].TextDelta? && life[k].id == t.id)
    && Glued(life) == t.text
  }

  /** A call item that is still growing. */
  predicate ToolGrows(life: seq<Body>, b: ToolItem) {
    && |life| >= 1
    && life[0].ItemAdded? && life[0].item.Call? && life[0].item.id == b.id && life[0].item.arguments == ""
    && (forall k :: 1 <= k < |life| ==> life[k].ArgsDelta? && life[k].id == b.id)
    && Glued(life) == b.arguments
  }

  /** The whole life of a finished item: announced once, grown by its deltas
      alone, finished once with exactly what the deltas said. */
  predicate Told(life: seq<Body>, item: Item) {
    match item
    case Message(id, text) =>
      && |life| >= 5
      && TextGrows(life[..|life| - 3], TextItem(0, id, text))
      && life[|life| - 3..] == [TextDone(id, text), PartDone(id, text), ItemDone(item)]
    case Call(id, callId, name, arguments) =>
      && |life| >= 3
      && ToolGrows(life[..|life| - 2], ToolItem(0, id, callId, name, Glued(life[..|life| - 2])))
      && arguments == NonEmpty(Glued(life[..|life| - 2]), "{}")
      && life[|life| - 2..] == [ArgsDone(id, arguments), ItemDone(item)]
  }

  ghost predicate Distinct(s: seq<int>) {
    forall i, j :: 0 <= i < j < |s| ==> s[i] != s[j]
  }

  function UpTo(n: nat): (s: seq<int>)
    ensures |s| == n && forall k :: 0 <= k < n ==> s[k] == k
  {
    if n == 0 then [] else UpTo(n - 1) + [n - 1]
  }

  /** Index `k` belongs to the message or to a registered call. */
  ghost predicate Held(s: State, k: int) {
    || (s.text.Some? && s.text.value.out == k)
    || exists i :: i in s.tools && s.tools[i].out == k
  }

  ghost predicate Inv(s: State) {
    && s.number == |s.wire| && Numbered(s.wire)
    && Announced(s.wire) == UpTo(s.next)
    && Life(s.wire, -1) == [Created, InProgress]
    && (forall k :: k >= s.next ==> Life(s.wire, k) == [])
    && (s.text.Some? ==>
          var t := s.text.value;
          t.out < s.next && t.id == s.ids(t.out) && TextGrows(Life(s.wire, t.out), t))
    && (forall i :: i in s.tools ==>
          var b := s.tools[i];
          b.out < s.next && b.id == s.ids(b.out) && ToolGrows(Life(s.wire, b.out), b))
    && (forall i, j :: i in s.tools && j in s.tools && i != j ==> s.tools[i].out != s.tools[j].out)
    && (s.text.Some? ==> forall i :: i in s.tools ==> s.tools[i].out != s.text.value.out)
    && Distinct(s.order) && (forall i :: i in s.order <==> i in s.tools)
    && (forall k :: 0 <= k < s.next ==> Held(s, k))
  }

  lemma StartInv(ids: nat -> string, model: string)
    ensures Inv(Start(ids, model))
  {
    var a := State(ids, [], 0, None, map[], [], 0, "", model);
    WriteFacts(a, -1, Created);
    WriteFacts(Write(a, -1, Created), -1, InProgress);
  }

  lemma OpenTextInv(s: State)
    requires Inv(s)
    ensures Inv(OpenText(s))
  {
    hide Life, Announced, Glued, Write;
    if s.text.None? {
      var id := s.ids(s.next);
      var head, part := ItemAdded(Message(id, "")), PartAdded(id);
      var a := s.(text := Some(TextItem(s.next, id, "")), next := s.next + 1);
      WriteFacts(a, s.next, head);
      var b := Write(a, s.next, head);
      WriteFacts(b, s.next, part);
      NoGlue();
      GluedSnoc([], head);
      GluedSnoc([head], part);
      var t := Write(b, s.next, part);
      WriteFrame(a, s.next, head);
      WriteFrame(b, s.next, part);
      assert Life(t.wire, s.next) == [head, part];
      assert [] + [head] == [head] && [head] + [part] == [head, part];
      assert TextGrows([head, part], t.text.value);
      forall k | 0 <= k < t.next ensures Held(t, k) { assert k < s.next ==> Held(s, k); }
    }
  }

  lemma WriteFrame(s: State, out: int, body: Body)
    ensures
      var t := Write(s, out, body);
      t == s.(wire := t.wire, number := s.number + 1)
  {}

  lemma NoGlue()
    ensures Glued([]) == ""
  {}

  lemma OnTextInv(s: State, delta: string)
    requires Inv(s)
    ensures Inv(OnText(s, delta))
  {
    hide Life, Announced, Glued, OpenText;
    OpenTextInv(s);
    var a := OpenText(s);
    var t := a.text.value;
    var b := a.(text := Some(t.(text := t.text + delta)));
    WriteFacts(b, t.out, TextDelta(t.id, delta));
    GluedSnoc(Life(a.wire, t.out), TextDelta(t.id, delta));
    forall k | 0 <= k < a.next ensures Held(b, k) { assert Held(a, k); }
    assert forall k :: Held(b, k) ==> Held(Write(b, t.out, TextDelta(t.id, delta)), k);
  }

  /** A call with the next free index takes that index. */
  lemma NewToolHeld(s: State, t: State, i: int, b: ToolItem)
    requires i !in s.tools && t.tools == s.tools[i := b] && t.text == s.text
    requires b.out == s.next && t.next == s.next + 1 && forall k :: 0 <= k < s.next ==> Held(s, k)
    ensures forall k :: 0 <= k < t.next ==> Held(t, k)
  {
    forall k | 0 <= k < t.next ensures Held(t, k) {
      if k == s.next {
        assert i in t.tools && t.tools[i].out == k;
      } else {
        assert Held(s, k);
        if j :| j in s.tools && s.tools[j].out == k { assert j in t.tools && t.tools[j].out == k; }
      }
    }
  }

  lemma NewToolOrdered(order: seq<int>, tools: map<int, ToolItem>, i: int, b: ToolItem)
    requires Distinct(order) && (forall k :: k in order <==> k in tools) && i !in tools
    ensures Distinct(order + [i]) && forall k :: k in order + [i] <==> k in tools[i := b]
  {}

  lemma NewToolGrows(b: ToolItem, body: Body)
    requires body == ItemAdded(Call(b.id, NonEmpty(b.callId, b.id), b.name, "")) && b.arguments == ""
    ensures ToolGrows([] + [body], b)
  {
    NoGlue();
    GluedSnoc([], body);
    assert [] + [body] == [body];
  }

  lemma OpenNewToolInv(s: State, p: ToolPart)
    requires Inv(s) && p.index !in s.tools
    ensures Inv(OpenTool(s, p))
  {
    hide Life, Announced, Glued, Held, Distinct, ToolGrows, TextGrows;
    var b := ToolItem(s.next, s.ids(s.next), p.id, p.name, "");
    var body := ItemAdded(Call(b.id, NonEmpty(b.callId, b.id), b.name, ""));
    var a := s.(tools := s.tools[p.index := b], order := s.order + [p.index], next := s.next + 1);
    WriteFacts(a, b.out, body);
    NewToolGrows(b, body);
    NewToolHeld(s, OpenTool(s, p), p.index, b);
    NewToolOrdered(s.order, s.tools, p.index, b);
  }

  lemma UpdateToolInv(s: State, i: int, b: ToolItem)
    requires Inv(s) && i in s.tools
    requires b.out == s.tools[i].out && b.id == s.tools[i].id && b.arguments == s.tools[i].arguments
    ensures Inv(s.(tools := s.tools[i := b]))
  {
    hide Life, Announced, Glued;
    var t := s.(tools := s.tools[i := b]);
    forall k | 0 <= k < t.next ensures Held(t, k) {
      assert Held(s, k);
      if j :| j in s.tools && s.tools[j].out == k { assert j in t.tools && t.tools[j].out == k; }
    }
  }

  lemma GrowToolInv(s: State, i: int, delta: string)
    requires Inv(s) && i in s.tools
    ensures
      var b := s.tools[i];
      Inv(Write(s.(tools := s.tools[i := b.(arguments := b.arguments + delta)]), b.out, ArgsDelta(b.id, delta)))
  {
    hide Life, Announced, Glued;
    var b := s.tools[i];
    var a := s.(tools := s.tools[i := b.(arguments := b.arguments + delta)]);
    WriteFacts(a, b.out, ArgsDelta(b.id, delta));
    GluedSnoc(Life(s.wire, b.out), ArgsDelta(b.id, delta));
    var t := Write(a, b.out, ArgsDelta(b.id, delta));
    forall k | 0 <= k < t.next ensures Held(t, k) {
      assert Held(s, k);
      if j :| j in s.tools && s.tools[j].out == k { assert j in t.tools && t.tools[j].out == k; }
    }
  }

  lemma OnToolInv(s: State, p: ToolPart)
    requires Inv(s)
    ensures Inv(OnTool(s, p))
  {
    hide Inv, Write;
    if p.index in s.tools {
      var b := s.tools[p.index];
      UpdateToolInv(s, p.index, b.(callId := NonEmpty(p.id, b.callId), name := NonEmpty(p.name, b.name)));
    } else {
      OpenNewToolInv(s, p);
    }
    GrowToolInv(OpenTool(s, p), p.index, p.arguments);
  }

  lemma {:induction false} OnToolsInv(s: State, ps: seq<ToolPart>)
    requires Inv(s)
    ensures Inv(OnTools(s, ps))
    decreases |ps|
  {
    hide Inv, OnTool;
    if ps != [] {
      OnToolInv(s, ps[0]);
      OnToolsInv(OnTool(s, ps[0]), ps[1..]);
    }
  }

  lemma RelabelInv(s: State, finish: string, model: string)
    requires Inv(s)
    ensures Inv(s.(finish := finish, model := model))
  {
    hide Life, Announced, Glued;
    var t := s.(finish := finish, model := model);
    assert forall k :: Held(s, k) ==> Held(t, k);
  }

  lemma {:induction false} OnLinesInv(s: State, lines: seq<Line>)
    requires Inv(s)
    ensures Inv(OnLines(s, lines))
    decreases |lines|
  {
    hide Inv, OnText, OnTools;
    if lines != [] {
      var line := lines[0];
      if line.Chunk? {
        var model := NonEmpty(line.model, s.model);
        RelabelInv(s, s.finish, model);
        if line.choice.Some? {
          var c := line.choice.value;
          var a := s.(finish := NonEmpty(c.finish, s.finish), model := model);
          RelabelInv(s, a.finish, model);
          OnTextInv(a, c.content);
          OnToolsInv(OnText(a, c.content), c.tools);
        }
      }
      OnLinesInv(OnLine(s, line), lines[1..]);
    }
  }

  // ---- The end of the stream -------------------------------------------

  ghost predicate SameButWire(s: State, t: State) { t == s.(wire := t.wire, number := t.number) }

  /** `t` adds these events to the life of item `i` and to no other. */
  ghost predicate Adds(s: State, t: State, i: int, bodies: seq<Body>) {
    && SameButWire(s, t)
    && t.number == |t.wire| && Numbered(t.wire)
    && Announced(t.wire) == Announced(s.wire)
    && forall k :: Life(t.wire, k) == if k == i then Life(s.wire, k) + bodies else Life(s.wire, k)
  }

  lemma WriteAdds(s: State, out: int, body: Body)
    requires s.number == |s.wire| && Numbered(s.wire) && !body.ItemAdded?
    ensures Adds(s, Write(s, out, body), out, [body])
  {
    hide Life, Announced;
    WriteFacts(s, out, body);
  }

  lemma AddsTwice(s: State, t: State, u: State, i: int, a: seq<Body>, b: seq<Body>)
    requires Adds(s, t, i, a) && Adds(t, u, i, b)
    ensures Adds(s, u, i, a + b)
  {
    hide Life, Announced;
    assert (Life(s.wire, i) + a) + b == Life(s.wire, i) + (a + b);
  }

  lemma CloseTextAdds(s: State)
    requires Inv(s) && s.text.Some?
    ensures
      var t := s.text.value;
      Adds(s, CloseText(s), t.out, [TextDone(t.id, t.text), PartDone(t.id, t.text), ItemDone(TextResult(t))])
  {
    hide Life, Announced, Write;
    var t := s.text.value;
    var e, f, g := TextDone(t.id, t.text), PartDone(t.id, t.text), ItemDone(TextResult(t));
    var a := Write(s, t.out, e);
    var b := Write(a, t.out, f);
    WriteAdds(s, t.out, e);
    WriteAdds(a, t.out, f);
    WriteAdds(b, t.out, g);
    AddsTwice(s, a, b, t.out, [e], [f]);
    AddsTwice(s, b, Write(b, t.out, g), t.out, [e] + [f], [g]);
    assert [e] + [f] + [g] == [e, f, g];
  }

  function Closing(b: ToolItem): seq<Body> {
    [ArgsDone(b.id, NonEmpty(b.arguments, "{}")), ItemDone(ToolResult(b))]
  }

  lemma CloseToolAdds(s: State, b: ToolItem)
    requires s.number == |s.wire| && Numbered(s.wire)
    ensures Adds(s, CloseTool(s, b), b.out, Closing(b))
  {
    hide Life, Announced, Write;
    var e, f := ArgsDone(b.id, NonEmpty(b.arguments, "{}")), ItemDone(ToolResult(b));
    var a := Write(s, b.out, e);
    WriteAdds(s, b.out, e);
    WriteAdds(a, b.out, f);
    AddsTwice(s, a, Write(a, b.out, f), b.out, [e], [f]);
    assert [e] + [f] == [e, f];
  }

  /** The calls whose items are still to be finished, each once. */
  ghost predicate Todo(s: State, todo: seq<int>) {
    && Distinct(todo)
    && (forall k :: 0 <= k < |todo| ==> todo[k] in s.tools)
    && (forall i, j :: i in s.tools && j in s.tools && i != j ==> s.tools[i].out != s.tools[j].out)
  }

  lemma {:induction false} CloseToolsAdds(s: State, todo: seq<int>)
    requires Todo(s, todo) && s.number == |s.wire| && Numbered(s.wire)
    ensures
      var t := CloseTools(s, todo);
      && SameButWire(s, t)
      && t.number == |t.wire| && Numbered(t.wire) && Announced(t.wire) == Announced(s.wire)
      && (forall i :: i in todo ==>
            var b := s.tools[i];
            Life(t.wire, b.out) == Life(s.wire, b.out) + Closing(b))
      && (forall k :: (forall i :: i in todo ==> s.tools[i].out != k) ==> Life(t.wire, k) == Life(s.wire, k))
    decreases |todo|
  {
    hide Life, Announced, CloseTool, Closing;
    if todo != [] {
      var b := s.tools[todo[0]];
      var a := CloseTool(s, b);
      CloseToolAdds(s, b);
      CloseToolsAdds(a, todo[1..]);
      var t := CloseTools(a, todo[1..]);
      forall i | i in todo ensures Life(t.wire, s.tools[i].out) == Life(s.wire, s.tools[i].out) + Closing(s.tools[i]) {
        if i != todo[0] { assert i in todo[1..]; }
      }
    }
  }

  lemma {:induction false} ResultsFacts(s: State, todo: seq<int>)
    requires Todo(s, todo) && (s.text.Some? ==> forall i :: i in s.tools ==> s.tools[i].out != s.text.value.out)
    ensures
      var m := Results(s, todo);
      && (forall i :: i in todo ==> s.tools[i].out in m && m[s.tools[i].out] == ToolResult(s.tools[i]))
      && (s.text.Some? ==> s.text.value.out in m && m[s.text.value.out] == TextResult(s.text.value))
    decreases |todo|
  {
    hide ToolResult, TextResult;
    if todo != [] {
      var n := |todo| - 1;
      ResultsFacts(s, todo[..n]);
      forall i | i in todo
        ensures s.tools[i].out in Results(s, todo) && Results(s, todo)[s.tools[i].out] == ToolResult(s.tools[i])
      {
        if i != todo[n] { assert i in todo[..n]; }
      }
    }
  }

  lemma {:induction false} InOrderFacts(m: map<nat, Item>, below: nat)
    requires forall k :: 0 <= k < below ==> k in m
    ensures |InOrder(m, below)| == below
    ensures forall k :: 0 <= k < below ==> InOrder(m, below)[k] == m[k]
  {
    if below > 0 { InOrderFacts(m, below - 1); }
  }

  /** Everything a client may rely on in a completed stream of `n` items. */
  ghost predicate Sound(ids: nat -> string, wire: seq<Event>, output: seq<Item>) {
    && Numbered(wire)
    && Announced(wire) == UpTo(|output|)
    && (forall i :: 0 <= i < |output| ==> output[i].id == ids(i) && Told(Life(wire, i), output[i]))
    && (forall i :: i >= |output| ==> Life(wire, i) == [])
  }

  lemma ToldText(life: seq<Body>, t: TextItem)
    requires TextGrows(life, t)
    ensures Told(life + [TextDone(t.id, t.text), PartDone(t.id, t.text), ItemDone(TextResult(t))], TextResult(t))
  {
    hide Glued;
    var whole := life + [TextDone(t.id, t.text), PartDone(t.id, t.text), ItemDone(TextResult(t))];
    assert whole[..|whole| - 3] == life;
  }

  lemma ToldTool(life: seq<Body>, b: ToolItem)
    requires ToolGrows(life, b)
    ensures Told(life + Closing(b), ToolResult(b))
  {
    hide Glued;
    var whole := life + Closing(b);
    assert whole[..|whole| - 2] == life;
  }

  /** Each item is told in full, by the wire and by the final response. */
  lemma ItemTold(s: State, k: nat)
    requires Inv(s) && k < s.next
    requires forall j :: 0 <= j < |s.order| ==> s.order[j] in s.tools
    ensures
      var t, m := CloseTools(CloseText(s), s.order), Results(s, s.order);
      k in m && m[k].id == s.ids(k) && Told(Life(t.wire, k), m[k])
  {
    hide Life, Announced, Glued, CloseText, CloseTools, Results, TextGrows, ToolGrows, Told, Closing;
    ResultsFacts(s, s.order);
    var a := CloseText(s);
    CloseTextFrame(s);
    CloseToolsAdds(a, s.order);
    assert Held(s, k);
    if s.text.Some? && s.text.value.out == k {
      CloseTextAdds(s);
      ToldText(Life(s.wire, k), s.text.value);
    } else {
      var i :| i in s.tools && s.tools[i].out == k;
      ToldTool(Life(s.wire, k), s.tools[i]);
    }
  }

  lemma CloseTextFrame(s: State)
    requires Inv(s)
    ensures
      var t := CloseText(s);
      && SameButWire(s, t)
      && t.number == |t.wire| && Numbered(t.wire) && Announced(t.wire) == Announced(s.wire)
      && forall k :: (s.text.Some? ==> k != s.text.value.out) ==> Life(t.wire, k) == Life(s.wire, k)
  {
    hide Life, Announced;
    if s.text.Some? { CloseTextAdds(s); }
  }

  /** What a finished stream looks like from a consistent state. */
  ghost predicate FinishesWell(s: State) {
    && (forall k :: 0 <= k < |s.order| ==> s.order[k] in s.tools)
    && var t := Finish(s);
    && |t.wire| > 0
    && var last := t.wire[|t.wire| - 1].body;
    && last.Finished? && |last.output| == s.next
    && Life(t.wire, -1) == [Created, InProgress, last]
    && Sound(s.ids, t.wire, last.output)
  }

  lemma FinishIsSound(s: State)
    requires Inv(s)
    ensures FinishesWell(s)
  {
    hide Life, Announced, Glued, CloseText, CloseTools, Results, InOrder, Told, TextGrows, ToolGrows, Incomplete;
    assert forall k :: 0 <= k < |s.order| ==> s.order[k] in s.order;
    CloseTextFrame(s);
    var a := CloseTools(CloseText(s), s.order);
    CloseToolsAdds(CloseText(s), s.order);
    var m := Results(s, s.order);
    forall k: nat | k < s.next
      ensures k in m && m[k].id == s.ids(k) && Told(Life(a.wire, k), m[k])
    {
      ItemTold(s, k);
    }
    InOrderFacts(m, s.next);
    var body := Finished(Incomplete(s.finish), s.model, InOrder(m, s.next));
    WriteFacts(a, -1, body);
    assert [Created, InProgress] + [body] == [Created, InProgress, body];
    assert Life(a.wire, -1) == [Created, InProgress];
    assert forall i :: 0 <= i < s.next ==> Told(Life(a.wire, i), body.output[i]);
  }

  /** Whatever the upstream sends: a completed stream numbers its events from 0
      without a gap, announces its items as 0, 1, 2, ..., tells each of them in
      full, and lists them in the same order in the final response. */
  lemma CompletedStreamIsSound(ids: nat -> string, model: string, lines: seq<Line>)
    ensures
      var s := OnLines(Start(ids, model), lines);
      FinishesWell(s) && s.ids == ids
  {
    hide Inv, FinishesWell, OnLines;
    StartInv(ids, model);
    OnLinesInv(Start(ids, model), lines);
    KeepsIds(Start(ids, model), lines);
    FinishIsSound(OnLines(Start(ids, model), lines));
  }

  lemma {:induction false} KeepsIds(s: State, lines: seq<Line>)
    ensures OnLines(s, lines).ids == s.ids
    decreases |lines|
  {
    if lines != [] {
      if lines[0].Chunk? && lines[0].choice.Some? {
        var c := lines[0].choice.value;
        ToolsKeepIds(OnText(s.(finish := NonEmpty(c.finish, s.finish), model := NonEmpty(lines[0].model, s.model)),
                            c.content), c.tools);
      }
      hide OnText, OnTools;
      KeepsIds(OnLine(s, lines[0]), lines[1..]);
    }
  }

  lemma {:induction false} ToolsKeepIds(s: State, ps: seq<ToolPart>)
    ensures OnTools(s, ps).ids == s.ids
    decreases |ps|
  {
    if ps != [] { ToolsKeepIds(OnTool(s, ps[0]), ps[1..]); }
  }

  // ---- Nothing is taken back -------------------------------------------

  lemma {:induction false} ToolsGrow(s: State, ps: seq<ToolPart>)
    ensures s.wire <= OnTools(s, ps).wire
    decreases |ps|
  {
    if ps != [] { ToolsGrow(OnTool(s, ps[0]), ps[1..]); }
  }

  lemma LineGrows(s: State, line: Line)
    ensures s.wire <= OnLine(s, line).wire
  {
    hide OnTools;
    if line.Chunk? && line.choice.Some? {
      var c := line.choice.value;
      var a := s.(finish := NonEmpty(c.finish, s.finish), model := NonEmpty(line.model, s.model));
      ToolsGrow(OnText(a, c.content), c.tools);
    }
  }

  lemma {:induction false} LinesGrow(s: State, lines: seq<Line>)
    ensures s.wire <= OnLines(s, lines).wire
    decreases |lines|
  {
    hide OnLine;
    if lines != [] {
      LineGrows(s, lines[0]);
      LinesGrow(OnLine(s, lines[0]), lines[1..]);
    }
  }

  lemma {:induction false} CloseToolsGrow(s: State, todo: seq<int>)
    requires forall k :: 0 <= k < |todo| ==> todo[k] in s.tools
    ensures s.wire <= CloseTools(s, todo).wire
    decreases |todo|
  {
    if todo != [] { CloseToolsGrow(CloseTool(s, s.tools[todo[0]]), todo[1..]); }
  }

  lemma FinishCanStart(s: State)
    requires FinishesWell(s)
    ensures forall k :: 0 <= k < |s.order| ==> s.order[k] in s.tools
  {
    hide Finish, Sound, Life;
  }

  lemma {:induction false} OnLinesSnoc(s: State, lines: seq<Line>, line: Line)
    ensures OnLines(s, lines + [line]) == OnLine(OnLines(s, lines), line)
    decreases |lines|
  {
    hide OnLine;
    if lines == [] {
      assert lines + [line] == [line];
      assert OnLines(s, [line]) == OnLines(OnLine(s, line), [line][1..]);
    } else {
      assert (lines + [line])[1..] == lines[1..] + [line];
      OnLinesSnoc(OnLine(s, lines[0]), lines[1..], line);
    }
  }
}
