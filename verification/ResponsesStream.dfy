/** The Responses stream of the Zen gateway step by step. A write may fail at
    any moment; it raises, so nothing is written after it. */
module ResponsesHandler {
  import opened Common
  import opened Responses
  import opened ResponsesContent
  import Lines

  class ResponsesStream {
    const ids: nat -> string
    var wire: seq<Event>
    var number: nat
    var text: Option<TextItem>
    var tools: map<int, ToolItem>
    var order: seq<int>
    var next: nat
    var finish: string
    var model: string
    var buffer: seq<bv8>
    var failed: bool

    function Abs(): State
      reads this
    {
      State(ids, wire, number, text, tools, order, next, finish, model)
    }

    /** The state is `t`, or a write failed and the wire is a beginning of
        `t`'s. */
    twostate predicate Follows(t: State)
      reads this
    {
      old(wire) <= wire <= t.wire && (!failed ==> Abs() == t)
    }

    constructor (ids: nat -> string, model: string)
      ensures Abs() == State(ids, [], 0, None, map[], [], 0, "", model) && !failed && buffer == []
    {
      this.ids, this.model := ids, model;
      wire, number, text, tools, order, next, finish, buffer, failed := [], 0, None, map[], [], 0, "", [], false;
    }

    /** Takes the next sequence number and writes one event. */
    method WriteEvent(out: int, body: Body) returns (ok: bool)
      requires !failed
      modifies this`wire, this`number, this`failed
      ensures Follows(Write(old(Abs()), out, body)) && ok == !failed
    {
      var event := Event(number, out, body);
      number := number + 1;
      ok := *;
      if ok { wire := wire + [event]; } else { failed := true; }
    }

    method Begin() returns (ok: bool)
      requires !failed && Abs() == State(ids, [], 0, None, map[], [], 0, "", model)
      modifies this`wire, this`number, this`failed
      ensures Follows(Start(ids, old(model))) && ok == !failed
    {
      ok := WriteEvent(-1, Created);
      if ok { ok := WriteEvent(-1, InProgress); }
    }

    // ---- Streaming -----------------------------------------------------

    /** The message item is announced with its first text. */
    method OpenTextItem() returns (ok: bool)
      requires !failed
      modifies this
      ensures Follows(OpenText(old(Abs()))) && ok == !failed && buffer == old(buffer)
    {
      if text.Some? { return true; }
      var item := TextItem(next, ids(next), "");
      text := Some(item);
      next := next + 1;
      ok := WriteEvent(item.out, ItemAdded(Message(item.id, "")));
      if ok { ok := WriteEvent(item.out, PartAdded(item.id)); }
    }

    method HandleText(delta: string) returns (ok: bool)
      requires !failed
      modifies this
      ensures Follows(OnText(old(Abs()), delta)) && ok == !failed && buffer == old(buffer)
    {
      hide OpenText;
      if delta == "" { return true; }
      ok := OpenTextItem();
      if !ok { return; }
      text := Some(text.value.(text := text.value.text + delta));
      ok := WriteEvent(text.value.out, TextDelta(text.value.id, delta));
    }

    /** The first delta of a call registers and announces its item; a later one
        may still name the call. */
    method OpenToolItem(p: ToolPart) returns (ok: bool)
      requires !failed
      modifies this
      ensures Follows(OpenTool(old(Abs()), p)) && ok == !failed && buffer == old(buffer)
    {
      var known := p.index in tools;
      if !known {
        tools := tools[p.index := ToolItem(next, ids(next), "", "", "")];
        next := next + 1;
        order := order + [p.index];
      }
      var b := tools[p.index];
      if p.id != "" { b := b.(callId := p.id); }
      if p.name != "" { b := b.(name := p.name); }
      tools := tools[p.index := b];
      if known { return true; }
      ok := WriteEvent(b.out, ItemAdded(Call(b.id, NonEmpty(b.callId, b.id), b.name, "")));
    }

    method HandleToolPart(p: ToolPart) returns (ok: bool)
      requires !failed
      modifies this
      ensures Follows(OnTool(old(Abs()), p)) && ok == !failed && buffer == old(buffer)
    {
      hide OpenTool;
      ok := OpenToolItem(p);
      if !ok || p.arguments == "" { return; }
      var b := tools[p.index];
      tools := tools[p.index := b.(arguments := b.arguments + p.arguments)];
      ok := WriteEvent(b.out, ArgsDelta(b.id, p.arguments));
    }

    method HandleToolParts(parts: seq<ToolPart>) returns (ok: bool)
      requires !failed
      modifies this
      ensures Follows(OnTools(old(Abs()), parts)) && ok == !failed && buffer == old(buffer)
    {
      hide OnTool;
      ghost var goal := OnTools(Abs(), parts);
      ok := true;
      ToolsGrow(Abs(), parts);
      for k := 0 to |parts|
        invariant !failed && ok && buffer == old(buffer)
        invariant old(wire) <= wire && OnTools(Abs(), parts[k..]) == goal
      {
        assert parts[k..][1..] == parts[k + 1..];
        ToolsGrow(OnTool(Abs(), parts[k]), parts[k + 1..]);
        ok := HandleToolPart(parts[k]);
        if !ok { return; }
      }
    }

    method HandleLine(line: Line) returns (ok: bool)
      requires !failed
      modifies this
      ensures Follows(OnLine(old(Abs()), line)) && ok == !failed && buffer == old(buffer)
    {
      hide OnText, OnTools;
      if !line.Chunk? { return true; }
      if line.model != "" { model := line.model; }
      if line.choice.None? { return true; }
      var c := line.choice.value;
      if c.finish != "" { finish := c.finish; }
      ghost var mid := OnText(Abs(), c.content);
      ToolsGrow(mid, c.tools);
      ok := HandleText(c.content);
      if ok { ok := HandleToolParts(c.tools); }
    }

    // ---- Finishing -----------------------------------------------------

    method CloseTextItem() returns (ok: bool)
      requires !failed
      modifies this`wire, this`number, this`failed
      ensures Follows(CloseText(old(Abs()))) && ok == !failed
    {
      if text.None? { return true; }
      var t := text.value;
      ok := WriteEvent(t.out, TextDone(t.id, t.text));
      if ok { ok := WriteEvent(t.out, PartDone(t.id, t.text)); }
      if ok { ok := WriteEvent(t.out, ItemDone(TextResult(t))); }
    }

    /** Finishes the calls in the order in which they were announced, and
        collects the finished items. */
    method CloseToolItems() returns (ok: bool, items: map<nat, Item>)
      requires !failed && forall k :: 0 <= k < |order| ==> order[k] in tools
      modifies this`wire, this`number, this`failed
      ensures Follows(CloseTools(old(Abs()), order)) && ok == !failed
      ensures ok ==> items == Results(old(Abs()), order)
    {
      hide Results, CloseTool, TextResult, ToolResult;
      ghost var start, goal := Abs(), CloseTools(Abs(), order);
      items := if text.None? then map[] else map[text.value.out := TextResult(text.value)];
      ResultsSteps(start, order);
      ok := true;
      CloseToolsGrow(start, order);
      for k := 0 to |order|
        invariant !failed && ok && old(wire) <= wire
        invariant Abs() == start.(wire := wire, number := number)
        invariant CloseTools(Abs(), order[k..]) == goal
        invariant items == Results(start, order[..k])
      {
        var b := tools[order[k]];
        assert order[k..][1..] == order[k + 1..];
        CloseToolFrame(Abs(), b);
        CloseToolsGrow(CloseTool(Abs(), b), order[k + 1..]);
        ok := CloseToolItem(b);
        if !ok { return; }
        items := items[b.out := ToolResult(b)];
      }
      assert order[..|order|] == order;
    }

    method CloseToolItem(b: ToolItem) returns (ok: bool)
      requires !failed
      modifies this`wire, this`number, this`failed
      ensures Follows(CloseTool(old(Abs()), b)) && ok == !failed
    {
      ok := WriteEvent(b.out, ArgsDone(b.id, NonEmpty(b.arguments, "{}")));
      if ok { ok := WriteEvent(b.out, ItemDone(ToolResult(b))); }
    }

    method FinishStream() returns (ok: bool)
      requires !failed && forall k :: 0 <= k < |order| ==> order[k] in tools
      modifies this`wire, this`number, this`failed
      ensures Follows(Finish(old(Abs()))) && ok == !failed
    {
      hide CloseTools, Results, InOrder, Incomplete;
      ghost var s := Abs();
      var items: map<nat, Item>;
      CloseToolsGrow(CloseText(s), order);
      ResultsOfClosed(s, order);
      ok := CloseTextItem();
      if !ok { return; }
      ok, items := CloseToolItems();
      if !ok { return; }
      ok := WriteEvent(-1, Finished(Incomplete(finish), model, InOrder(items, next)));
    }

    // ---- Reading -------------------------------------------------------

    /** Handles lines in order until one reports an error or a write fails. */
    method HandleLines(lines: seq<Line>) returns (ok: bool)
      requires !failed
      modifies this
      ensures Follows(Served(old(Abs()), lines)) && buffer == old(buffer)
      ensures ok <==> !failed && Failure !in lines
    {
      hide OnLine;
      ghost var goal := Served(Abs(), lines);
      ServedGrows(Abs(), lines);
      for k := 0 to |lines|
        invariant !failed && old(wire) <= wire <= goal.wire && buffer == old(buffer)
        invariant Failure !in lines[..k] && Served(Abs(), lines[k..]) == goal
      {
        var rest := lines[k..];
        assert rest[0] == lines[k] && rest[1..] == lines[k + 1..] && lines[..k + 1] == lines[..k] + [lines[k]];
        ServedGrows(OnLine(Abs(), lines[k]), lines[k + 1..]);
        if lines[k].Failure? { return false; }
        ok := HandleLine(lines[k]);
        if !ok { return; }
      }
      assert lines[..|lines|] == lines;
      ok := true;
    }

    /** One chunk from the network: its complete lines are handled, and the
        rest waits for the next one. */
    method Feed(chunk: seq<bv8>, decode: seq<bv8> -> Line) returns (ok: bool)
      requires !failed
      modifies this
      ensures
        var lines := Decoded(Lines.Complete(old(buffer) + chunk, 0x0a), decode);
        Follows(Served(old(Abs()), lines)) && (ok <==> !failed && Failure !in lines)
      ensures buffer == Lines.Tail(old(buffer) + chunk, 0x0a)
    {
      hide Lines.Complete, Lines.Tail, Served;
      var raw: seq<seq<bv8>>;
      raw, buffer := Lines.TakeLines([], buffer + chunk, 0x0a);
      assert [] + Lines.Complete(old(buffer) + chunk, 0x0a) == Lines.Complete(old(buffer) + chunk, 0x0a);
      ok := HandleLines(Decoded(raw, decode));
    }
  }

  lemma CloseToolFrame(s: State, b: ToolItem)
    ensures
      var t := CloseTool(s, b);
      t == s.(wire := t.wire, number := t.number)
  {}

  lemma ResultsSteps(s: State, todo: seq<int>)
    requires forall k :: 0 <= k < |todo| ==> todo[k] in s.tools
    ensures Results(s, []) == if s.text.None? then map[] else map[s.text.value.out := TextResult(s.text.value)]
    ensures forall k :: 0 <= k < |todo| ==>
      var b := s.tools[todo[k]];
      Results(s, todo[..k + 1]) == Results(s, todo[..k])[b.out := ToolResult(b)]
  {
    forall k | 0 <= k < |todo|
      ensures
        var b := s.tools[todo[k]];
        Results(s, todo[..k + 1]) == Results(s, todo[..k])[b.out := ToolResult(b)]
    {
      assert todo[..k + 1][..k] == todo[..k];
    }
  }

  lemma {:induction false} ResultsOfClosed(s: State, todo: seq<int>)
    requires forall k :: 0 <= k < |todo| ==> todo[k] in s.tools
    ensures Results(CloseText(s), todo) == Results(s, todo)
    decreases |todo|
  {
    if todo != [] { ResultsOfClosed(s, todo[..|todo| - 1]); }
  }

  function Decoded(lines: seq<seq<bv8>>, decode: seq<bv8> -> Line): seq<Line> {
    if lines == [] then [] else [decode(lines[0])] + Decoded(lines[1..], decode)
  }

  lemma {:induction false} DecodedAppend(a: seq<seq<bv8>>, b: seq<seq<bv8>>, decode: seq<bv8> -> Line)
    ensures Decoded(a + b, decode) == Decoded(a, decode) + Decoded(b, decode)
  {
    if a == [] {
      assert a + b == b;
    } else {
      assert (a + b)[1..] == a[1..] + b;
      DecodedAppend(a[1..], b, decode);
    }
  }

  /** The lines before the first error. */
  function BeforeFailure(lines: seq<Line>): (r: seq<Line>)
    ensures r <= lines && Failure !in r
    ensures r == lines <==> Failure !in lines
    ensures r != lines ==> lines[|r|] == Failure
  {
    if lines == [] || lines[0].Failure? then [] else [lines[0]] + BeforeFailure(lines[1..])
  }

  /** The lines up to the first error. */
  function Served(s: State, lines: seq<Line>): State
    decreases |lines|
  {
    if lines == [] || lines[0].Failure? then s else Served(OnLine(s, lines[0]), lines[1..])
  }

  lemma {:induction false} ServedMeans(s: State, lines: seq<Line>)
    ensures Served(s, lines) == OnLines(s, BeforeFailure(lines))
    decreases |lines|
  {
    hide OnLine;
    if lines != [] && !lines[0].Failure? {
      ServedMeans(OnLine(s, lines[0]), lines[1..]);
      assert BeforeFailure(lines)[1..] == BeforeFailure(lines[1..]);
    }
  }

  lemma ServedGrows(s: State, lines: seq<Line>)
    ensures s.wire <= Served(s, lines).wire
  {
    ServedMeans(s, lines);
    LinesGrow(s, BeforeFailure(lines));
  }

  lemma {:induction false} ServedAppend(s: State, a: seq<Line>, b: seq<Line>)
    ensures Served(s, a + b) == if Failure in a then Served(s, a) else Served(Served(s, a), b)
    decreases |a|
  {
    hide OnLine;
    if a == [] {
      assert a + b == b;
    } else {
      assert (a + b)[1..] == a[1..] + b;
      if !a[0].Failure? { ServedAppend(OnLine(s, a[0]), a[1..], b); }
    }
  }

  /** What a connection that holds would carry: the whole stream, or what was
      written before the upstream reported an error. */
  ghost function Whole(ids: nat -> string, model: string, lines: seq<Line>): seq<Event> {
    var s := Served(Start(ids, model), lines);
    if Failure in lines || !FinishesWell(s) then s.wire else Finish(s).wire
  }

  lemma ServedFinishesWell(ids: nat -> string, model: string, lines: seq<Line>)
    ensures FinishesWell(Served(Start(ids, model), lines))
  {
    hide FinishesWell;
    ServedMeans(Start(ids, model), lines);
    CompletedStreamIsSound(ids, model, BeforeFailure(lines));
  }

  lemma FinishGrows(s: State)
    requires FinishesWell(s)
    ensures s.wire <= Finish(s).wire
  {
    hide Sound, Life;
    CloseToolsGrow(CloseText(s), s.order);
  }

  lemma WholeGrows(ids: nat -> string, model: string, lines: seq<Line>, part: seq<Line>)
    requires part <= lines
    ensures Served(Start(ids, model), part).wire <= Whole(ids, model, lines)
    ensures Failure in part ==> Failure in lines && Served(Start(ids, model), part).wire == Whole(ids, model, lines)
  {
    hide FinishesWell, Start, Served, Finish;
    var s := Start(ids, model);
    var rest := lines[|part|..];
    assert lines == part + rest;
    ServedAppend(s, part, rest);
    ServedGrows(Served(s, part), rest);
    ServedFinishesWell(ids, model, lines);
    FinishGrows(Served(s, lines));
  }

  /** Serves one request. What is written depends only on the bytes received,
      not on how they arrived: the events of a sound stream, or a beginning of
      them if the upstream reports an error or a write fails. */
  method RealStream(ids: nat -> string, model: string, chunks: seq<seq<bv8>>, decode: seq<bv8> -> Line)
    returns (wire: seq<Event>, completed: bool, failed: bool)
    ensures
      var lines := Decoded(Lines.Complete(Lines.Flatten(chunks), 0x0a), decode);
      && wire <= Whole(ids, model, lines)
      && (!failed ==> wire == Whole(ids, model, lines))
      && (completed <==> !failed && Failure !in lines)
      && FinishesWell(Served(Start(ids, model), lines))
      && (completed ==> Reports(wire, ids, model, lines))
      && (!failed ==> Carries(wire, Pieces(BeforeFailure(lines))))
  {
    hide FinishesWell, Reports, Carries, Pieces, Lines.Complete, Lines.Tail, Lines.Flatten, Finish, Start, Served;
    hide Whole;
    ghost var goal := Decoded(Lines.Complete(Lines.Flatten(chunks), 0x0a), decode);
    ServedFinishesWell(ids, model, goal);
    WholeReports(ids, model, goal);
    var h := new ResponsesStream(ids, model);
    ghost var done: seq<Line> := [];
    WholeGrows(ids, model, goal, []);
    assert Served(Start(ids, model), []) == Start(ids, model) by { NothingServed(Start(ids, model)); }
    var ok := h.Begin();
    if !ok { return h.wire, false, true; }
    NoBytes(decode);
    assert chunks[..0] == [];
    for k := 0 to |chunks|
      invariant !h.failed && h.ids == ids && Failure !in done
      invariant done == Decoded(Lines.Complete(Lines.Flatten(chunks[..k]), 0x0a), decode)
      invariant h.buffer == Lines.Tail(Lines.Flatten(chunks[..k]), 0x0a)
      invariant h.Abs() == Served(Start(ids, model), done)
    {
      ghost var before, more := done, Decoded(Lines.Complete(h.buffer + chunks[k], 0x0a), decode);
      MoreLines(chunks, k, decode);
      ok := h.Feed(chunks[k], decode);
      done := done + more;
      ServedAppend(Start(ids, model), before, more);
      WholeGrows(ids, model, goal, done);
      if !ok { return h.wire, false, h.failed; }
    }
    assert chunks[..|chunks|] == chunks;
    FinishGrows(h.Abs());
    assert forall k :: 0 <= k < |h.order| ==> h.order[k] in h.tools by { FinishCanStart(h.Abs()); }
    assert Whole(ids, model, goal) == Finish(h.Abs()).wire by { WholeOfGood(ids, model, goal); }
    ok := h.FinishStream();
    return h.wire, ok, !ok;
  }

  lemma WholeOfGood(ids: nat -> string, model: string, lines: seq<Line>)
    requires Failure !in lines && FinishesWell(Served(Start(ids, model), lines))
    ensures Whole(ids, model, lines) == Finish(Served(Start(ids, model), lines)).wire
  {
    hide FinishesWell, Finish, Served;
  }

  lemma WholeReports(ids: nat -> string, model: string, lines: seq<Line>)
    ensures Failure !in lines ==> Reports(Whole(ids, model, lines), ids, model, lines)
    ensures Carries(Whole(ids, model, lines), Pieces(BeforeFailure(lines)))
  {
    hide FinishesWell, Finish, Start, Served, Carries, Pieces;
    ServedMeans(Start(ids, model), lines);
    if Failure in lines {
      LinesCarry(ids, model, BeforeFailure(lines));
    } else {
      ServedFinishesWell(ids, model, lines);
      WholeOfGood(ids, model, lines);
      StreamReports(ids, model, lines);
    }
  }

  lemma NothingServed(s: State)
    ensures Served(s, []) == s
  {}

  lemma NoBytes(decode: seq<bv8> -> Line)
    ensures
      var none: seq<seq<bv8>> := [];
      Decoded(Lines.Complete(Lines.Flatten(none), 0x0a), decode) == [] && Lines.Tail(Lines.Flatten(none), 0x0a) == []
  {}

  /** More bytes add the lines that they complete. */
  lemma MoreBytes(before: seq<bv8>, more: seq<bv8>, decode: seq<bv8> -> Line)
    ensures
      var input := Lines.Tail(before, 0x0a) + more;
      && Decoded(Lines.Complete(before + more, 0x0a), decode)
         == Decoded(Lines.Complete(before, 0x0a), decode) + Decoded(Lines.Complete(input, 0x0a), decode)
      && Lines.Tail(before + more, 0x0a) == Lines.Tail(input, 0x0a)
  {
    hide *;
    Lines.CompleteAppend(before, more, 0x0a);
    DecodedAppend(Lines.Complete(before, 0x0a), Lines.Complete(Lines.Tail(before, 0x0a) + more, 0x0a), decode);
  }

  lemma NextChunk(head: seq<seq<bv8>>, chunk: seq<bv8>, decode: seq<bv8> -> Line)
    ensures
      var before, after := Lines.Flatten(head), Lines.Flatten(head + [chunk]);
      var input := Lines.Tail(before, 0x0a) + chunk;
      && Decoded(Lines.Complete(after, 0x0a), decode)
         == Decoded(Lines.Complete(before, 0x0a), decode) + Decoded(Lines.Complete(input, 0x0a), decode)
      && Lines.Tail(after, 0x0a) == Lines.Tail(input, 0x0a)
  {
    hide *;
    Lines.FlattenSnoc(head, chunk);
    MoreBytes(Lines.Flatten(head), chunk, decode);
  }

  lemma LaterChunks(head: seq<seq<bv8>>, rest: seq<seq<bv8>>, decode: seq<bv8> -> Line)
    ensures Decoded(Lines.Complete(Lines.Flatten(head), 0x0a), decode)
            <= Decoded(Lines.Complete(Lines.Flatten(head + rest), 0x0a), decode)
  {
    hide *;
    Lines.FlattenAppend(head, rest);
    MoreBytes(Lines.Flatten(head), Lines.Flatten(rest), decode);
  }

  lemma Cut<T>(s: seq<T>, k: nat)
    requires k < |s|
    ensures s[..k] + [s[k]] == s[..k + 1] && s[..k + 1] + s[k + 1..] == s
  {}

  /** One more chunk adds the lines that it completes. */
  lemma MoreLines(chunks: seq<seq<bv8>>, k: nat, decode: seq<bv8> -> Line)
    requires k < |chunks|
    ensures
      var before, after := Lines.Flatten(chunks[..k]), Lines.Flatten(chunks[..k + 1]);
      var input := Lines.Tail(before, 0x0a) + chunks[k];
      && Decoded(Lines.Complete(after, 0x0a), decode)
         == Decoded(Lines.Complete(before, 0x0a), decode) + Decoded(Lines.Complete(input, 0x0a), decode)
      && Lines.Tail(after, 0x0a) == Lines.Tail(input, 0x0a)
      && Decoded(Lines.Complete(after, 0x0a), decode) <= Decoded(Lines.Complete(Lines.Flatten(chunks), 0x0a), decode)
  {
    hide *;
    var head, part := chunks[..k], chunks[..k + 1];
    Cut(chunks, k);
    NextChunk(head, chunks[k], decode);
    LaterChunks(part, chunks[k + 1..], decode);
  }
}
