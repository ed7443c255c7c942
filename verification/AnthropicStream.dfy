/** The Anthropic stream handler step by step, on a connection on which any
    write may fail. Every method is proved to do what its function in
    `AnthropicSpec` says for as long as the connection holds, and to leave a
    beginning of that trace on the wire once it does not. */
module AnthropicStreamHandler {
  import opened Common
  import opened ToolParser
  import opened AnthropicWire
  import opened AnthropicSpec
  import opened AnthropicShape

  class AnthropicStream {
    const codec: Codec
    var blockIdx: int
    var blockType: BlockType
    var tool: Option<StreamTool>
    var lastSafe: nat
    var lastThinking: nat
    var pending: nat
    var streamed: seq<ToolCall>
    var blocksSent: nat
    var started: bool
    var allCalls: seq<ToolCall>
    var parser: Parser
    var wire: seq<Event>
    var disconnected: bool

    function Abs(): Stream
      reads this
    {
      Stream(codec, blockIdx, blockType, tool, lastSafe, lastThinking, pending, streamed, blocksSent,
             started, allCalls, parser, wire)
    }

    /** While the connection holds the state is `t`; in any case the wire has
        grown to a beginning of `t`'s, and not at all after a failed write. */
    twostate predicate Follows(t: Stream)
      reads this
    {
      && old(wire) <= wire <= t.wire
      && (old(disconnected) ==> disconnected && wire == old(wire))
      && (!disconnected ==> Abs() == t)
    }

    constructor (codec: Codec)
      ensures Abs() == Init(codec) && !disconnected
    {
      this.codec := codec;
      blockIdx, blockType, tool := -1, NoBlock, None;
      lastSafe, lastThinking, pending := 0, 0, 0;
      streamed, blocksSent, started, allCalls := [], 0, false, [];
      parser, wire, disconnected := Unfed, [], false;
    }

    // ---- Writing -------------------------------------------------------

    /** One write; it fails for good at a moment nobody can foresee. */
    method Emit(e: Event) returns (ok: bool)
      modifies this`wire, this`disconnected
      ensures Follows(Put(old(Abs()), e)) && ok == !disconnected
    {
      if disconnected { return false; }
      var up: bool := *;
      if up { wire := wire + [e]; } else { disconnected := true; }
      ok := up;
    }

    /** Writes until one write fails. */
    method EmitAll(es: seq<Event>) returns (ok: bool)
      modifies this`wire, this`disconnected
      ensures old(wire) <= wire <= old(wire) + es
      ensures old(disconnected) ==> disconnected && wire == old(wire)
      ensures !disconnected ==> ok && wire == old(wire) + es
      ensures es != [] ==> ok == !disconnected
    {
      hide ShapeOf, Body;
      for k := 0 to |es|
        invariant disconnected == old(disconnected) && (k > 0 ==> !disconnected)
        invariant wire == old(wire) + es[..k]
      {
        assert es == es[..k] + [es[k]] + es[k + 1..];
        assert wire + [es[k]] == old(wire) + es[..k + 1];
        ok := Emit(es[k]);
        if !ok { return; }
      }
      ok := true;
    }

    method EnsureMessageStart()
      modifies this
      ensures Follows(EnsureStart(old(Abs())))
    {
      if started || disconnected { return; }
      var _ := Emit(MessageStart);
      started := true;
    }

    method CloseOpenBlock()
      modifies this
      ensures Follows(CloseBlock(old(Abs())))
    {
      if blockIdx >= 0 { var _ := Emit(Stop(blockIdx)); }
      blockType := NoBlock;
    }

    method StartBlock(bt: BlockType, k: Kind, name: string) returns (ok: bool)
      modifies this
      ensures Follows(OpenBlock(old(Abs()), bt, k, name)) && ok == !disconnected
    {
      hide ShapeOf, Body;
      blockIdx := blockIdx + 1;
      ok := Emit(Start(blockIdx, k, name));
      if ok { blockType := bt; }
    }

    // ---- Streamed tool JSON -------------------------------------------

    method EmitToolJsonPieces(json: string) returns (ok: bool)
      requires tool.Some?
      modifies this`wire, this`disconnected, this`tool
      ensures tool.Some? && tool.value.blockIdx == old(tool).value.blockIdx
      ensures Follows(EmitPieces(old(Abs()), json)) && (!disconnected ==> ok)
    {
      hide ShapeOf, Body, Deltas, Concat;
      tool := Some(tool.value.(jsonBuf := tool.value.jsonBuf + json));
      ok := EmitAll(Deltas(tool.value.blockIdx, Tool, Chunks(json)));
    }

    method ConsumeDelta() returns (d: Option<ToolDelta>)
      modifies this`parser
      ensures (d, parser) == Consume(old(parser))
    {
      var r := Consume(parser);
      d, parser := r.0, r.1;
    }

    method DrainParserDeltas() returns (ok: bool)
      requires tool.Some?
      modifies this`wire, this`disconnected, this`tool, this`parser
      ensures tool.Some? && Follows(Drain(old(Abs()))) && (!disconnected ==> ok)
      decreases |parser.deltas|
    {
      hide EmitPieces, Consume, ShapeOf, Body, Json, Solid;
      var d := ConsumeDelta();
      if d.None? { return true; }
      ok := EmitToolJsonPieces(d.value.json);
      if !ok { return; }
      ok := DrainParserDeltas();
    }

    method EmitFinalDelta() returns (ok: bool)
      requires tool.Some?
      modifies this`wire, this`disconnected, this`tool, this`parser
      ensures tool.Some? && Follows(EmitFinal(old(Abs()))) && (!disconnected ==> ok)
    {
      hide EmitPieces, FinalJson, ShapeOf, Body;
      var (json, p) := FinalJson(parser);
      parser := p;
      if json == "" { return true; }
      ok := EmitToolJsonPieces(json);
    }

    method SyncJsonBuf(expected: string) returns (ok: bool)
      requires tool.Some?
      modifies this`wire, this`disconnected, this`tool
      ensures tool.Some? && Follows(Sync(old(Abs()), expected)) && (!disconnected ==> ok)
    {
      hide EmitPieces, JsonEqual, ShapeOf, Body;
      var buf := tool.value.jsonBuf;
      if JsonEqual(codec, buf, expected) { return true; }
      if buf <= expected && |expected| > |buf| {
        ok := EmitToolJsonPieces(expected[|buf|..]);
        return;
      }
      ok := true;
    }

    method CompleteToolJson(expected: Option<string>) returns (ok: bool)
      requires tool.Some?
      modifies this`wire, this`disconnected, this`tool, this`parser
      ensures tool.Some? && Follows(Completed(old(Abs()), expected)) && (!disconnected ==> ok)
    {
      hide Drain, EmitFinal, Sync, ShapeOf, Body;
      ok := DrainParserDeltas();
      if !ok { return; }
      ok := EmitFinalDelta();
      if !ok { return; }
      if expected.Some? && expected.value != "" { ok := SyncJsonBuf(expected.value); }
    }

    /** Completes and stops the open tool's block; the caller forgets the tool. */
    method FlushOpenStreamTool(expected: Option<string>) returns (ok: bool)
      requires tool.Some?
      modifies this`wire, this`disconnected, this`tool, this`parser
      ensures Follows(Flush(old(Abs()), expected)) && ok == !disconnected
    {
      hide Completed, Put, ShapeOf, Body;
      ok := CompleteToolJson(expected);
      if !ok { return; }
      ok := Emit(Stop(tool.value.blockIdx));
    }

    /** `FlushOpenStreamTool` and what every caller but one does next. */
    method FinishStreamTool(expected: Option<string>) returns (ok: bool)
      requires tool.Some?
      modifies this
      ensures Follows(Finish(old(Abs()), expected)) && ok == !disconnected
    {
      hide Flush, ShapeOf, Body;
      ok := FlushOpenStreamTool(expected);
      if ok { tool, blockType := None, NoBlock; }
    }

    method ApplyStreamingToolJsonDelta(d: ToolDelta) returns (ok: bool)
      modifies this
      ensures Follows(ApplyDelta(old(Abs()), d)) && ok == !disconnected
      ensures !disconnected ==> |parser.deltas| <= |old(parser.deltas)|
    {
      hide EmitPieces, CloseOther, LeaveTool, EnterTool, ShapeOf, Body;
      CloseOtherBlock();
      ok := LeaveOtherTool(d.name);
      if !ok { return; }
      ok := EnterNamedTool(d.name);
      if !ok { return; }
      ok := EmitToolJsonPieces(d.json);
      ok := ok && !disconnected;
    }

    method CloseOtherBlock()
      modifies this
      ensures Follows(CloseOther(old(Abs())))
    {
      hide CloseBlock, ShapeOf, Body;
      if blockType != NoBlock && blockType != ToolUse { CloseOpenBlock(); }
    }

    method LeaveOtherTool(name: string) returns (ok: bool)
      modifies this
      ensures Follows(LeaveTool(old(Abs()), name)) && (!disconnected ==> ok)
    {
      hide Flush, ShapeOf, Body;
      if tool.Some? && tool.value.name != name {
        ok := FlushOpenStreamTool(None);
        if !ok { return; }
        tool := None;
      }
      ok := true;
    }

    method EnterNamedTool(name: string) returns (ok: bool)
      modifies this
      ensures Follows(EnterTool(old(Abs()), name)) && ok == !disconnected
      ensures ok ==> tool.Some?
    {
      hide OpenBlock, ShapeOf, Body;
      if tool.None? {
        ok := StartBlock(ToolUse, Tool, name);
        if !ok { return; }
        tool := Some(StreamTool(blockIdx, name, ""));
      }
      ok := !disconnected;
    }

    method EmitStreamingToolDeltas() returns (ok: bool)
      modifies this
      ensures Follows(StreamDeltas(old(Abs()))) && (!disconnected ==> ok)
      decreases |parser.deltas|
    {
      hide ApplyDelta, Consume, ShapeOf, Body;
      var d := ConsumeDelta();
      if d.None? { return true; }
      ok := ApplyStreamingToolJsonDelta(d.value);
      if !ok { return; }
      ok := EmitStreamingToolDeltas();
    }

    // ---- Thinking and text --------------------------------------------

    method SendThinkingDelta(content: string) returns (ok: bool)
      modifies this
      ensures Follows(SendThinking(old(Abs()), content)) && (!disconnected ==> ok)
    {
      hide LeaveForThinking, EnterThinking, Put, ShapeOf, Body;
      ok := LeaveBlockForThinking();
      if !ok { return; }
      ok := EnterThinkingBlock();
      if !ok { return; }
      if content != "" { ok := Emit(Delta(blockIdx, Thinking, content)); }
    }

    method LeaveBlockForThinking() returns (ok: bool)
      modifies this
      ensures Follows(LeaveForThinking(old(Abs()))) && (!disconnected ==> ok)
    {
      hide Finish, CloseBlock, ShapeOf, Body;
      ok := true;
      if tool.Some? {
        ok := FinishStreamTool(None);
      } else if blockType == TextBlock {
        CloseOpenBlock();
      }
    }

    method EnterThinkingBlock() returns (ok: bool)
      modifies this
      ensures Follows(EnterThinking(old(Abs()))) && (!disconnected ==> ok)
    {
      hide CloseBlock, OpenBlock, ShapeOf, Body;
      ok := true;
      if blockType != ThinkingBlock {
        if blockType != NoBlock { CloseOpenBlock(); }
        ok := StartBlock(ThinkingBlock, Thinking, "");
      }
    }

    method EmitPartialThinking() returns (ok: bool)
      modifies this
      ensures Follows(PartialThinking(old(Abs()))) && (!disconnected ==> ok)
    {
      hide SendThinking, Grown, Mark, ShapeOf, Body;
      var grown := Grown(lastThinking, parser.thinking);
      lastThinking := Mark(lastThinking, parser.thinking);
      if grown == "" { return true; }
      ok := SendThinkingDelta(grown);
    }

    method EmitTextDelta(text: string) returns (ok: bool)
      requires tool.None?
      modifies this
      ensures Follows(TextDelta(old(Abs()), text)) && (!disconnected ==> ok)
    {
      hide Put, CloseBlock, OpenBlock, ShapeOf, Body;
      if blockType != TextBlock {
        if blockType == ThinkingBlock { CloseOpenBlock(); }
        ok := StartBlock(TextBlock, Text, "");
        if !ok { return; }
      }
      ok := Emit(Delta(blockIdx, Text, text));
    }

    method EmitSafeTextDelta(current: string) returns (ok: bool)
      modifies this
      ensures Follows(GrownText(old(Abs()), current)) && (!disconnected ==> ok)
    {
      hide Finish, TextDelta, Grown, Mark, ShapeOf, Body;
      var grown := Grown(lastSafe, current);
      lastSafe := Mark(lastSafe, current);
      if grown == "" { return true; }
      if tool.Some? {
        ok := FinishStreamTool(None);
        if !ok { return; }
      }
      ok := EmitTextDelta(grown);
    }

    // ---- Complete tool calls ------------------------------------------

    method SendToolUseBlocks(calls: seq<ToolCall>)
      modifies this`wire, this`disconnected, this`blockIdx
      ensures Follows(ToolBlocks(old(Abs()), calls))
      decreases |calls|
    {
      hide BlockEvents, CallBlock, ShapeOf, Body;
      if calls == [] { return; }
      blockIdx := blockIdx + 1;
      var es := BlockEvents(blockIdx, CallBlock(codec, calls[0]));
      ghost var first := Abs().(wire := wire + es);
      assert ToolBlocks(old(Abs()), calls) == ToolBlocks(first, calls[1..]);
      var ok := EmitAll(es);
      if ok { SendToolUseBlocks(calls[1..]); }
    }

    method EmitReadyToolCalls(ready: seq<ToolCall>) returns (ok: bool)
      modifies this
      ensures Follows(EmitReady(old(Abs()), ready)) && (!disconnected ==> ok)
    {
      hide CloseBlock, ToolBlocks, ShapeOf, Body;
      if ready == [] { return true; }
      if blockType != NoBlock { CloseOpenBlock(); }
      SendToolUseBlocks(ready);
      if disconnected { return false; }
      pending := pending + |ready|;
      ok := true;
    }

    method HandleReadyToolCalls(ready: seq<ToolCall>) returns (ok: bool)
      modifies this
      ensures Follows(HandleReady(old(Abs()), ready)) && (!disconnected ==> ok)
    {
      hide Finish, EmitReady, ExpectedArguments, ShapeOf, Body;
      if ready == [] { return true; }
      streamed := streamed + ready;
      if tool.Some? {
        ok := FinishStreamTool(ExpectedArguments(ready, tool.value.name));
        if !ok { return; }
        pending := pending + |ready|;
        return;
      }
      ok := EmitReadyToolCalls(ready);
    }

    // ---- One upstream event -------------------------------------------

    method ProcessAnswer(p: Parser, ready: seq<ToolCall>) returns (ok: bool)
      modifies this
      ensures Follows(AnswerStep(old(Abs()), p, ready)) && (!disconnected ==> ok)
    {
      hide StreamTools, ThinkThenText, HandleReady, ShapeOf, Body, Grown, Mark;
      parser := p;
      ok := CountStreamingTools();
      if !ok { return; }
      ok := EmitThinkingThenText();
      if !ok { return; }
      ok := HandleReadyToolCalls(ready);
    }

    method CountStreamingTools() returns (ok: bool)
      modifies this
      ensures Follows(StreamTools(old(Abs()))) && (!disconnected ==> ok)
    {
      hide StreamDeltas, ShapeOf, Body, Solid;
      var hadTool := tool.Some?;
      ok := EmitStreamingToolDeltas();
      if !hadTool && tool.Some? { blocksSent := blocksSent + 1; }
    }

    method EmitThinkingThenText() returns (ok: bool)
      modifies this
      ensures Follows(ThinkThenText(old(Abs()), old(parser.text))) && (!disconnected ==> ok)
    {
      hide PartialThinking, GrownText, ShapeOf, Body, Grown, Mark;
      ok := EmitPartialThinking();
      if !ok { return; }
      ok := EmitSafeTextDelta(parser.text);
    }

    method ProcessNativeToolCall(hasId: bool, name: string, arguments: string) returns (ok: bool)
      modifies this
      ensures Follows(NativeStep(old(Abs()), hasId, name, arguments)) && (!disconnected ==> ok)
    {
      hide Put, CloseBlock, OpenBlock, ShapeOf, Body;
      if hasId {
        if blockType != NoBlock { CloseOpenBlock(); }
        ok := StartBlock(NativeTool, Tool, name);
        if !ok { return; }
        pending := pending + 1;
      }
      if arguments != "" && blockType == NativeTool {
        ok := Emit(Delta(blockIdx, Tool, arguments));
        return;
      }
      ok := true;
    }

    method DispatchEvent(e: Upstream) returns (ok: bool)
      modifies this
      ensures Follows(Dispatch(old(Abs()), e)) && (!disconnected ==> ok)
    {
      hide EnsureStart, SendThinking, AnswerStep, NativeStep, ShapeOf, Body, Grown, Mark;
      if Announces(e) { EnsureMessageStart(); }
      if disconnected { return true; }
      if !started { return true; }
      match e
      case ThinkingPart(content) =>
        if content == "" { return true; }
        ok := SendThinkingDelta(content);
      case Answer(p, ready) =>
        ok := ProcessAnswer(p, ready);
      case Native(_, hasId, _, name, arguments) =>
        ok := ProcessNativeToolCall(hasId, name, arguments);
      case _ =>
        ok := true;
    }

    /** The event loop stops when the connection is gone. */
    method ProcessEvents(es: seq<Upstream>)
      modifies this
      ensures Follows(Events(old(Abs()), es))
      decreases |es|
    {
      hide Dispatch, ShapeOf, Body;
      if es == [] || disconnected { return; }
      var ok := DispatchEvent(es[0]);
      if ok { ProcessEvents(es[1..]); }
    }

    // ---- The end of the stream ----------------------------------------

    method FlushRemainingText(text: string) returns (ok: bool)
      requires !disconnected ==> Apart(Abs())
      modifies this
      ensures !old(disconnected) ==> Follows(RemainingText(old(Abs()), text)) && (!disconnected ==> ok)
      ensures old(disconnected) ==> disconnected && wire == old(wire)
    {
      hide GrownText, TextDelta, Grown, Mark, ShapeOf, Body;
      if disconnected { return true; }
      if Grown(lastSafe, text) == "" && blockType == ThinkingBlock && !parser.hasCalls {
        lastSafe := Mark(lastSafe, text);
        ok := EmitTextDelta("");
      } else {
        ok := EmitSafeTextDelta(text);
      }
    }

    method HandleOpenStreamToolAtEnd() returns (ok: bool)
      requires tool.Some?
      modifies this
      ensures Follows(OpenToolAtEnd(old(Abs()))) && (!disconnected ==> ok)
    {
      hide Finish, ShapeOf, Body;
      ok := FinishStreamTool(if allCalls == [] then None else Some(allCalls[0].arguments));
      if !ok { return; }
      if parser.closed || allCalls != [] { pending := pending + 1; }
    }

    method FinalizeOpenTools() returns (ok: bool)
      modifies this
      ensures Follows(FinalizeTools(old(Abs()))) && (!disconnected ==> ok)
    {
      hide HandleReady, EmitReady, OpenToolAtEnd, ShapeOf, Body;
      if disconnected { return true; }
      var (late, p) := TakeReady(parser);
      parser := p;
      if late != [] {
        var (again, q) := TakeReady(parser);
        parser := q;
        ok := HandleReadyToolCalls(again);
      } else if tool.Some? {
        ok := HandleOpenStreamToolAtEnd();
      } else {
        var (again, q) := TakeReady(parser);
        parser := q;
        ok := EmitReadyToolCalls(again);
      }
    }

    method ReconcileToolCalls()
      modifies this`allCalls, this`pending
      ensures Follows(Reconcile(old(Abs())))
    {
      hide ShapeOf, Body;
      if allCalls == [] { allCalls := streamed; }
      var least := if |allCalls| < blocksSent then |allCalls| else blocksSent;
      if least > pending { pending := least; }
    }

    method SettleTools()
      modifies this
      ensures Follows(EnsureStart(Reconcile(CloseNative(old(Abs())))))
    {
      hide CloseBlock, Reconcile, EnsureStart, ShapeOf, Body;
      if blockType == NativeTool && !disconnected { CloseOpenBlock(); }
      ReconcileToolCalls();
      EnsureMessageStart();
    }

    method FlushLeftovers(text: string) returns (ok: bool)
      requires Apart(Abs()) && !disconnected
      modifies this
      ensures Follows(Leftovers(old(Abs()), text)) && (!disconnected ==> ok)
    {
      hide PartialThinking, RemainingText, ShapeOf, Body, Grown, Mark;
      ok := EmitPartialThinking();
      if !ok { return; }
      ok := FlushRemainingText(text);
    }

    /** Every phase of the end does nothing once the connection is gone. */
    method CompleteStream(end: Ending) returns (ok: bool)
      requires !disconnected ==> Apart(Abs())
      modifies this
      ensures !old(disconnected) ==> Follows(Complete(old(Abs()), end)) && (!disconnected ==> ok)
      ensures old(disconnected) ==> disconnected && wire == old(wire)
    {
      hide Leftovers, FinalizeTools, CloseNative, Reconcile, EnsureStart, ShapeOf, Body, FinalText, Grown, Mark;
      parser, allCalls := end.parser, end.calls;
      if !disconnected {
        ok := FlushLeftovers(FinalText(end));
        if !ok { return; }
      }
      ok := FinalizeOpenTools();
      if !ok { return; }
      SettleTools();
    }

    method SendPostStream()
      modifies this
      ensures Follows(PostStream(old(Abs())))
    {
      hide Put, CloseBlock, ToolBlocks, ShapeOf, Body;
      var calls := Merged(Abs());
      var unsent, toolUse := Unsent(Abs()), calls != [] || pending > 0;
      if blockType != NoBlock { CloseOpenBlock(); }
      SendToolUseBlocks(unsent);
      SendFinish(toolUse);
    }

    method SendFinish(toolUse: bool)
      modifies this
      ensures Follows(Put(Put(old(Abs()), MessageDelta(toolUse)), MessageStop))
    {
      hide Put, ShapeOf, Body;
      var _ := Emit(MessageDelta(toolUse));
      var _ := Emit(MessageStop);
    }
  }

  /** A whole request, whether it finishes, fails or is cancelled. Whatever
      write fails, the client has received a beginning of what a connection that
      holds would have carried. */
  method Handle(codec: Codec, es: seq<Upstream>, how: Outcome)
    returns (wire: seq<Event>, disconnected: bool)
    ensures wire <= Trace(codec, es, how)
    ensures !disconnected ==> wire == Trace(codec, es, how)
    ensures NoClash(codec, es, how) ==> ShapeOf(wire) != Broken
    ensures NoClash(codec, es, how) && !disconnected && how.Finished? ==> ShapeOf(wire) == Ended
    ensures NoClash(codec, es, how) && !disconnected && how.UpstreamError? ==> ShapeOf(wire) == Failed
  {
    hide Events, Complete, PostStream, NoClash, ShapeOf, Body, Grown, Mark, FinalText;
    var h := new AnthropicStream(codec);
    h.ProcessEvents(es);
    match how {
      case Finished(end) =>
        var ok := h.CompleteStream(end);
        if ok && !h.disconnected { h.SendPostStream(); }
      case UpstreamError => var _ := h.Emit(Error);
      case Cancelled =>
    }
    wire, disconnected := h.wire, h.disconnected;
    TraceIsWellFormed(codec, es, how);
    if NoClash(codec, es, how) { PrefixUnbroken(wire, Trace(codec, es, how)); }
  }
}
