/** What each step of the handler lets an Anthropic client hear of tool calls,
    as long as the open tool is the last call heard. */
module AnthropicCalls {
  import opened Common
  import opened ToolParser
  import opened AnthropicWire
  import opened AnthropicSpec
  import opened AnthropicShape

  /** A client opens a call at each tool block and adds JSON to the last one. */
  function Hear(calls: seq<ToolCall>, e: Event): seq<ToolCall> {
    if e.Start? && e.kind == Tool then calls + [ToolCall(e.name, "")]
    else if e.Delta? && e.kind == Tool then More(calls, e.body)
    else calls
  }

  function Heard(calls: seq<ToolCall>, w: seq<Event>): seq<ToolCall>
    decreases |w|
  {
    if w == [] then calls else Heard(Hear(calls, w[0]), w[1..])
  }

  function Hears(s: Stream): seq<ToolCall> { Heard([], s.wire) }

  lemma {:induction false} HeardAppend(calls: seq<ToolCall>, a: seq<Event>, b: seq<Event>)
    ensures Heard(calls, a + b) == Heard(Heard(calls, a), b)
    decreases |a|
  {
    if a == [] {
      assert a + b == b;
    } else {
      HeardAppend(Hear(calls, a[0]), a[1..], b);
      assert (a + b)[1..] == a[1..] + b;
    }
  }

  lemma PutHeard(s: Stream, e: Event)
    ensures Hears(Put(s, e)) == Hear(Hears(s), e)
  {
    hide Body, ShapeOf;
    HeardAppend([], s.wire, [e]);
    assert [e][1..] == [];
  }

  lemma {:induction false} DeltasHeard(calls: seq<ToolCall>, i: int, bodies: seq<string>)
    ensures Heard(calls, Deltas(i, Tool, bodies)) == More(calls, Concat(bodies))
    decreases |bodies|
  {
    if bodies == [] {
      MoreNothing(calls);
    } else {
      assert Deltas(i, Tool, bodies)[1..] == Deltas(i, Tool, bodies[1..]);
      DeltasHeard(More(calls, bodies[0]), i, bodies[1..]);
      MoreMore(calls, bodies[0], Concat(bodies[1..]));
    }
  }

  // ---- The open tool is the last call -----------------------------------

  /** The same calls, the last one with these arguments. */
  function WithLast(calls: seq<ToolCall>, json: string): seq<ToolCall>
    requires calls != []
  {
    var n := |calls| - 1;
    calls[..n] + [calls[n].(arguments := json)]
  }

  /** The open tool is the last call heard, with exactly the JSON sent for it. */
  predicate OpenIsLast(s: Stream) {
    s.tool.Some? ==>
      var calls := Hears(s);
      calls != [] && calls[|calls| - 1] == ToolCall(s.tool.value.name, s.tool.value.jsonBuf)
  }

  /** The calls that are complete: all but the last one while a tool is open. */
  function Settled(s: Stream): seq<ToolCall> {
    if (s.tool.Some? || s.blockType == NativeTool) && Hears(s) != [] then Hears(s)[..|Hears(s)| - 1] else Hears(s)
  }

  /** `t` still has every call that was complete in `s`, in the same place. */
  predicate KeepsCalls(s: Stream, t: Stream) {
    OpenIsLast(s) ==> OpenIsLast(t) && Settled(s) <= Settled(t)
  }

  lemma PiecesHeard(s: Stream, json: string)
    requires OpenIsLast(s) && s.tool.Some?
    ensures
      var t := EmitPieces(s, json);
      Hears(t) == WithLast(Hears(s), t.tool.value.jsonBuf) && OpenIsLast(t)
  {
    hide Body, ShapeOf, Heard, Deltas;
    var i := s.tool.value.blockIdx;
    HeardAppend([], s.wire, Deltas(i, Tool, Chunks(json)));
    DeltasHeard(Hears(s), i, Chunks(json));
  }

  lemma {:induction false} DrainHeard(s: Stream)
    requires OpenIsLast(s) && s.tool.Some?
    ensures
      var t := Drain(s);
      Hears(t) == WithLast(Hears(s), t.tool.value.jsonBuf) && OpenIsLast(t)
    decreases |s.parser.deltas|
  {
    hide Body, ShapeOf, Heard, EmitPieces, Consume, Solid, Json;
    var (d, p) := Consume(s.parser);
    if d.Some? {
      PiecesHeard(s.(parser := p), d.value.json);
      DrainHeard(EmitPieces(s.(parser := p), d.value.json));
    }
  }

  lemma CompletedHeard(s: Stream, expected: Option<string>)
    requires OpenIsLast(s) && s.tool.Some?
    ensures
      var t := Completed(s, expected);
      Hears(t) == WithLast(Hears(s), t.tool.value.jsonBuf) && OpenIsLast(t)
  {
    hide Body, ShapeOf, Heard, EmitPieces, Drain, FinalJson, Missing, Solid, Json;
    DrainHeard(s);
    var a := Drain(s);
    var (json, p) := FinalJson(a.parser);
    PiecesHeard(a.(parser := p), json);
    var b := EmitFinal(a);
    if expected.Some? { PiecesHeard(b, Missing(b.codec, b.tool.value.jsonBuf, expected.value)); }
  }

  lemma FlushHeard(s: Stream, expected: Option<string>)
    requires OpenIsLast(s) && s.tool.Some?
    ensures Hears(Flush(s, expected)) == WithLast(Hears(s), Completed(s, expected).tool.value.jsonBuf)
  {
    hide Body, ShapeOf, Heard, Completed;
    CompletedHeard(s, expected);
    var a := Completed(s, expected);
    PutHeard(a, Stop(a.tool.value.blockIdx));
  }

  /** Finishing the open tool completes the last call's arguments and changes
      no other call. */
  lemma FinishHeard(s: Stream, expected: Option<string>)
    requires OpenIsLast(s) && s.tool.Some?
    ensures
      var t := Finish(s, expected);
      Hears(t) == WithLast(Hears(s), Completed(s, expected).tool.value.jsonBuf) && KeepsCalls(s, t)
  {
    hide Body, ShapeOf, Heard, Completed, Flush;
    FlushHeard(s, expected);
  }

  // ---- What each step lets the client hear ------------------------------

  lemma CloseHeard(s: Stream)
    ensures Hears(CloseBlock(s)) == Hears(s)
  {
    hide Body, ShapeOf, Heard;
    PutHeard(s, Stop(s.blockIdx));
  }

  lemma OpenHeard(s: Stream, bt: BlockType, k: Kind, name: string)
    ensures Hears(OpenBlock(s, bt, k, name)) == if k == Tool then Hears(s) + [ToolCall(name, "")] else Hears(s)
  {
    hide Body, ShapeOf, Heard;
    PutHeard(s.(blockIdx := s.blockIdx + 1), Start(s.blockIdx + 1, k, name));
  }

  /** A delta of the open tool's name is added to the last call. Another one
      completes that call and opens a new one with its name and JSON. */
  lemma DeltaHeard(s: Stream, d: ToolDelta)
    requires OpenIsLast(s)
    ensures
      var t, before := ApplyDelta(s, d), Hears(s);
      && KeepsCalls(s, t)
      && Hears(t) ==
         if s.tool.Some? && s.tool.value.name == d.name then WithLast(before, s.tool.value.jsonBuf + d.json)
         else (if s.tool.Some? then WithLast(before, Completed(CloseOther(s), None).tool.value.jsonBuf) else before)
              + [ToolCall(d.name, d.json)]
  {
    hide Body, ShapeOf, Heard, CloseBlock, OpenBlock, Flush, EmitPieces, Completed;
    CloseHeard(s);
    var a := CloseOther(s);
    if s.tool.Some? && s.tool.value.name == d.name {
      PiecesHeard(a, d.json);
    } else {
      if s.tool.Some? { FlushHeard(a, None); }
      var b := LeaveTool(a, d.name);
      OpenHeard(b, ToolUse, Tool, d.name);
      var c := EnterTool(b, d.name);
      assert (Hears(b) + [ToolCall(d.name, "")])[..|Hears(b)|] == Hears(b);
      PiecesHeard(c, d.json);
      assert "" + d.json == d.json;
    }
  }

  /** What is heard once the open tool, if any, is completed. */
  function Closed(s: Stream, expected: Option<string>): seq<ToolCall> {
    if s.tool.Some? && Hears(s) != [] then WithLast(Hears(s), Completed(s, expected).tool.value.jsonBuf) else Hears(s)
  }

  /** Thinking completes the open tool and adds no call. */
  lemma ThinkingHeard(s: Stream, content: string)
    requires OpenIsLast(s)
    ensures Hears(SendThinking(s, content)) == Closed(s, None) && KeepsCalls(s, SendThinking(s, content))
  {
    hide Body, ShapeOf, Heard, Finish, CloseBlock, OpenBlock, Completed;
    if s.tool.Some? { FinishHeard(s, None); }
    CloseHeard(s);
    var a := LeaveForThinking(s);
    CloseHeard(a);
    OpenHeard(if a.blockType != NoBlock then CloseBlock(a) else a, ThinkingBlock, Thinking, "");
    var b := EnterThinking(a);
    PutHeard(b, Delta(b.blockIdx, Thinking, content));
  }

  /** New text completes the open tool and adds no call. */
  lemma TextHeard(s: Stream, current: string)
    requires OpenIsLast(s)
    ensures
      var t := GrownText(s, current);
      && Hears(t) == (if Grown(s.lastSafe, current) == "" then Hears(s)
                      else Closed(s.(lastSafe := Mark(s.lastSafe, current)), None))
      && KeepsCalls(s, t)
  {
    hide Body, ShapeOf, Heard, Finish, TextDelta, Completed, Grown, Mark;
    var a := s.(lastSafe := Mark(s.lastSafe, current));
    if a.tool.Some? { FinishHeard(a, None); }
    TextDeltaHeard(if a.tool.Some? then Finish(a, None) else a, Grown(s.lastSafe, current));
  }

  lemma TextDeltaHeard(s: Stream, text: string)
    requires s.tool.None?
    ensures Hears(TextDelta(s, text)) == Hears(s)
  {
    hide Body, ShapeOf, Heard, CloseBlock, OpenBlock;
    CloseHeard(s);
    OpenHeard(if s.blockType == ThinkingBlock then CloseBlock(s) else s, TextBlock, Text, "");
    var a :=
      if s.blockType == TextBlock then s
      else OpenBlock(if s.blockType == ThinkingBlock then CloseBlock(s) else s, TextBlock, Text, "");
    PutHeard(a, Delta(a.blockIdx, Text, text));
  }

  /** Calls as they are sent whole: by name and printed arguments. */
  function Rendered(c: Codec, calls: seq<ToolCall>): (r: seq<ToolCall>)
    ensures |r| == |calls|
    ensures forall k :: 0 <= k < |r| ==> r[k] == ToolCall(calls[k].name, c.render(calls[k].arguments))
  {
    if calls == [] then []
    else [ToolCall(calls[0].name, c.render(calls[0].arguments))] + Rendered(c, calls[1..])
  }

  lemma OneHeard(calls: seq<ToolCall>, e: Event)
    ensures Heard(calls, [e]) == Hear(calls, e)
  {
    assert [e][1..] == [];
  }

  lemma CallHeard(before: seq<ToolCall>, i: int, c: Codec, call: ToolCall)
    ensures Heard(before, BlockEvents(i, CallBlock(c, call)))
            == before + [ToolCall(call.name, c.render(call.arguments))]
  {
    hide Heard, Deltas, Chunks, More;
    var bodies := Chunks(c.render(call.arguments));
    var begun := before + [ToolCall(call.name, "")];
    HeardAppend(before, [Start(i, Tool, call.name)] + Deltas(i, Tool, bodies), [Stop(i)]);
    HeardAppend(before, [Start(i, Tool, call.name)], Deltas(i, Tool, bodies));
    OneHeard(before, Start(i, Tool, call.name));
    DeltasHeard(begun, i, bodies);
    MoreLast(before, ToolCall(call.name, ""), Concat(bodies));
    OneHeard(More(begun, Concat(bodies)), Stop(i));
    assert "" + Concat(bodies) == c.render(call.arguments);
  }

  lemma RenderedCons(c: Codec, calls: seq<ToolCall>)
    requires calls != []
    ensures Rendered(c, calls)
            == [ToolCall(calls[0].name, c.render(calls[0].arguments))] + Rendered(c, calls[1..])
  {}

  lemma NothingRendered(c: Codec)
    ensures Rendered(c, []) == []
  {}

  lemma FirstBlockHeard(s: Stream, calls: seq<ToolCall>, t: Stream)
    requires calls != []
    requires t == s.(blockIdx := s.blockIdx + 1,
                     wire := s.wire + BlockEvents(s.blockIdx + 1, CallBlock(s.codec, calls[0])))
    ensures Hears(t) + Rendered(t.codec, calls[1..]) == Hears(s) + Rendered(s.codec, calls)
  {
    hide Body, ShapeOf, Heard, BlockEvents, Rendered, CallBlock;
    HeardAppend([], s.wire, BlockEvents(s.blockIdx + 1, CallBlock(s.codec, calls[0])));
    CallHeard(Hears(s), s.blockIdx + 1, s.codec, calls[0]);
    RenderedCons(s.codec, calls);
  }

  /** Whole calls arrive in order, by name and printed arguments. */
  lemma {:induction false} ToolBlocksHeard(s: Stream, calls: seq<ToolCall>)
    ensures Hears(ToolBlocks(s, calls)) == Hears(s) + Rendered(s.codec, calls)
    decreases |calls|
  {
    if calls == [] {
      hide Body, ShapeOf, Heard;
      assert Hears(s) + [] == Hears(s);
    } else {
      hide *;
      var t := s.(blockIdx := s.blockIdx + 1,
                  wire := s.wire + BlockEvents(s.blockIdx + 1, CallBlock(s.codec, calls[0])));
      FirstBlockHeard(s, calls, t);
      ToolBlocksCons(s, calls);
      ToolBlocksHeard(t, calls[1..]);
    }
  }

  lemma EmitReadyHeard(s: Stream, ready: seq<ToolCall>)
    requires s.tool.None?
    ensures Hears(EmitReady(s, ready)) == Hears(s) + Rendered(s.codec, ready)
    ensures EmitReady(s, ready).tool.None?
  {
    hide Body, ShapeOf, Heard, ToolBlocks, CloseBlock;
    CloseHeard(s);
    ToolBlocksHeard(if s.blockType != NoBlock then CloseBlock(s) else s, ready);
    assert Hears(s) + [] == Hears(s);
  }

  /** Ready calls complete the open tool, which stands for them, or all arrive
      whole when no tool is open. */
  lemma ReadyHeard(s: Stream, ready: seq<ToolCall>)
    requires OpenIsLast(s)
    ensures
      var t := HandleReady(s, ready);
      && (ready != [] && s.tool.Some? ==>
            Hears(t) == Closed(s.(streamed := s.streamed + ready), ExpectedArguments(ready, s.tool.value.name)))
      && (ready == [] || s.tool.None? ==> Hears(t) == Hears(s) + Rendered(s.codec, ready))
      && KeepsCalls(s, t)
  {
    hide Body, ShapeOf, Heard, Finish, EmitReady, ExpectedArguments, Completed;
    assert Hears(s) + [] == Hears(s);
    if ready != [] {
      var a := s.(streamed := s.streamed + ready);
      if a.tool.Some? {
        FinishHeard(a, ExpectedArguments(ready, a.tool.value.name));
      } else {
        EmitReadyHeard(a, ready);
      }
    }
  }

  // ---- Unfolding -------------------------------------------------------

  lemma SameCalls(s: Stream, t: Stream)
    requires s.wire == t.wire && s.tool == t.tool
    ensures OpenIsLast(s) == OpenIsLast(t)
  {}

  lemma AnswerIs(s: Stream, p: Parser, ready: seq<ToolCall>)
    ensures AnswerStep(s, p, ready)
            == HandleReady(GrownText(PartialThinking(StreamTools(s.(parser := p))), p.text), ready)
  {
    hide Body, ShapeOf, HandleReady, GrownText, PartialThinking, StreamTools, Grown, Mark, Carries, Quiet, Keeps;
  }

  // ---- The end of the stream --------------------------------------------

  lemma SettlingKeepsCalls(s: Stream)
    ensures Hears(EnsureStart(Reconcile(CloseNative(s)))) == Hears(s)
    ensures EnsureStart(Reconcile(CloseNative(s))).tool == s.tool
  {
    hide Body, ShapeOf, Heard, CloseBlock;
    CloseHeard(s);
    PutHeard(Reconcile(CloseNative(s)), MessageStart);
  }

  /** In the end the calls not counted as sent arrive whole. */
  lemma PostStreamHeard(s: Stream)
    ensures Hears(PostStream(s)) == Hears(s) + Rendered(s.codec, Unsent(s))
  {
    hide Body, ShapeOf, Heard, ToolBlocks, CloseBlock, Unsent, Merged, Rendered;
    CloseHeard(s);
    var a := if s.blockType != NoBlock then CloseBlock(s) else s;
    ToolBlocksHeard(a, Unsent(s));
    var b := ToolBlocks(a, Unsent(s));
    PutHeard(b, MessageDelta(Merged(s) != [] || s.pending > 0));
    PutHeard(Put(b, MessageDelta(Merged(s) != [] || s.pending > 0)), MessageStop);
  }

  lemma PostStreamEnds(s: Stream)
    ensures
      var w := PostStream(s).wire;
      |w| >= 2 && w[|w| - 2..] == [MessageDelta(Merged(s) != [] || s.pending > 0), MessageStop]
  {
    hide Body, ShapeOf, ToolBlocks, CloseBlock, Unsent, Merged;
  }

  /** The calls announced as ready. */
  function Announced(es: seq<Upstream>): seq<ToolCall> {
    if es == [] then [] else (if es[0].Answer? then es[0].ready else []) + Announced(es[1..])
  }

  predicate NoLateCalls(p: Parser) { TakeReady(p).0 == [] && TakeReady(TakeReady(p).1).0 == [] }

  lemma {:induction false} RenderedAppend(c: Codec, a: seq<ToolCall>, b: seq<ToolCall>)
    ensures Rendered(c, a + b) == Rendered(c, a) + Rendered(c, b)
  {
    assert forall k :: 0 <= k < |a| ==> (a + b)[k] == a[k];
    assert forall k :: 0 <= k < |b| ==> (a + b)[|a| + k] == b[k];
  }

  lemma EmitReadyFrame(s: Stream, ready: seq<ToolCall>)
    ensures
      var t := EmitReady(s, ready);
      && t == s.(blockIdx := t.blockIdx, blockType := t.blockType, wire := t.wire, pending := s.pending + |ready|)
      && t.blockType == if ready == [] then s.blockType else NoBlock
  {
    hide Body, ShapeOf, ToolBlocks, CloseBlock;
  }

  lemma EventsUnfold(s: Stream, es: seq<Upstream>)
    ensures Events(s, es) == if es == [] then s else Events(Dispatch(s, es[0]), es[1..])
  {
    hide Body, ShapeOf, Dispatch, Keeps;
  }
}
