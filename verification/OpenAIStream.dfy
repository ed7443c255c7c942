/** The OpenAI stream handler step by step, on a connection on which any write
    may fail. Every method is proved to do what its function in `OpenAISpec`
    says for as long as the connection holds, and to leave a beginning of that
    trace on the wire once it does not. */
module OpenAIStreamHandler {
  import opened Common
  import opened ToolParser
  import opened OpenAISpec
  import Theorems = OpenAITheorems

  lemma OneMore(before: seq<Chunk>, cs: seq<Chunk>, k: nat)
    requires k < |cs|
    ensures before + cs[..k] + [cs[k]] == before + cs[..k + 1]
    ensures before + cs[..k] <= before + cs && before + cs[..k + 1] <= before + cs
  {
    assert cs == cs[..k] + cs[k..] && cs == cs[..k + 1] + cs[k + 1..];
    assert before + cs == before + cs[..k] + cs[k..] && before + cs == before + cs[..k + 1] + cs[k + 1..];
  }

  lemma ChunksOf(json: string)
    ensures Chunks(json) == [] <==> json == ""
  {}

  class OpenAIStream {
    var pending: nat
    var tool: Option<StreamTool>
    var lastSafe: nat
    var lastThinking: nat
    var streamed: seq<ToolCall>
    var blocksSent: nat
    var nativeSent: nat
    var thought: string
    var parser: Parser
    var wire: seq<Chunk>
    var disconnected: bool

    function Abs(): Stream
      reads this
    {
      Stream(pending, tool, lastSafe, lastThinking, streamed, blocksSent, nativeSent, thought, parser, wire)
    }

    /** While the connection holds the state is `t`; in any case the wire has
        grown to a beginning of `t`'s, and not at all after a failed write. */
    twostate predicate Follows(t: Stream)
      reads this
    {
      && old(wire) <= wire <= t.wire
      && (old(disconnected) ==> disconnected && wire == old(wire))
      && (!disconnected ==> Abs() == t)
    }

    constructor ()
      ensures Abs() == Init && !disconnected
    {
      pending, tool, lastSafe, lastThinking := 0, None, 0, 0;
      streamed, blocksSent, nativeSent, thought := [], 0, 0, "";
      parser, wire, disconnected := Unfed, [], false;
    }

    // ---- Writing -------------------------------------------------------

    /** One write; it fails for good at a moment nobody can foresee. */
    method Emit(c: Chunk) returns (ok: bool)
      modifies this`wire, this`disconnected
      ensures Follows(Put(old(Abs()), c)) && ok == !disconnected
    {
      if disconnected { return false; }
      var up: bool := *;
      if up { wire := wire + [c]; } else { disconnected := true; }
      ok := up;
    }

    /** One header chunk per call, until a write fails. */
    method EmitToolCallChunks(calls: seq<ToolCall>, start: nat) returns (index: nat)
      modifies this`wire, this`disconnected
      ensures Follows(Tools(old(Abs()), Headers(start, calls)))
      ensures !disconnected ==> index == start + |calls|
    {
      hide Spoken, Quiet, Carries, Headers;
      var cs := Headers(start, calls);
      index := start;
      for k := 0 to |calls|
        invariant disconnected == old(disconnected) && (k > 0 ==> !disconnected)
        invariant wire == old(wire) + cs[..k] && index == start + k
      {
        OneMore(old(wire), cs, k);
        var ok := Emit(Header(index, calls[k].name, calls[k].arguments));
        if !ok { return; }
        index := index + 1;
      }
      assert cs[..|calls|] == cs;
    }

    // ---- Streamed tool calls -------------------------------------------

    /** The first piece of a tool goes out with the header. */
    method EmitPiece(piece: string) returns (ok: bool)
      requires tool.Some?
      modifies this`wire, this`disconnected, this`tool
      ensures old(wire) <= wire <= old(wire) + PieceChunks(old(tool.value), [piece]) && ok == !disconnected
      ensures old(disconnected) ==> !ok && wire == old(wire)
      ensures ok ==> wire == old(wire) + PieceChunks(old(tool.value), [piece])
      ensures tool == Some(old(tool.value).(headerSent := true))
    {
      hide Spoken, Quiet, Carries;
      var open_ := tool.value;
      tool := Some(open_.(headerSent := true));
      var c := if open_.headerSent then Args(open_.index, piece) else Header(open_.index, open_.name, piece);
      assert PieceChunks(open_, [piece]) == [c];
      ok := Emit(c);
    }

    method EmitStreamToolPieces(json: string) returns (ok: bool)
      requires tool.Some?
      modifies this`wire, this`disconnected, this`tool
      ensures Follows(EmitPieces(old(Abs()), json)) && (!disconnected ==> ok) && (json != "" ==> ok == !disconnected)
      ensures tool.Some?
    {
      hide Spoken, Quiet, Carries, PieceChunks, Chunks, Concat, Tools;
      ChunksOf(json);
      var pieces := Chunks(json);
      ghost var first := tool.value;
      ghost var cs := PieceChunks(first, pieces);
      ok := true;
      for k := 0 to |pieces|
        invariant disconnected == old(disconnected) && (k > 0 ==> !disconnected) && ok
        invariant wire == old(wire) + cs[..k]
        invariant tool == Some(first.(headerSent := first.headerSent || k > 0))
      {
        OneMore(old(wire), cs, k);
        assert PieceChunks(tool.value, [pieces[k]]) == [cs[k]];
        ok := EmitPiece(pieces[k]);
        if !ok { return; }
      }
      assert cs[..|pieces|] == cs;
    }

    /** A delta of another name is for a new tool with the next index. */
    method AimAt(name: string)
      modifies this`tool, this`pending
      ensures Abs() == Aim(old(Abs()), name) && tool.Some?
    {
      if tool.Some? && tool.value.name != name {
        tool := None;
        pending := pending + 1;
      }
      if tool.None? { tool := Some(StreamTool(pending, name, false)); }
    }

    method OnDelta(d: ToolDelta) returns (ok: bool)
      requires d.json != ""
      modifies this
      ensures Follows(ApplyDelta(old(Abs()), d)) && ok == !disconnected
    {
      hide Spoken, Quiet, Carries, EmitPieces, Aim;
      AimAt(d.name);
      ok := EmitStreamToolPieces(d.json);
    }

    method EmitStreamingToolDeltas() returns (ok: bool)
      modifies this
      ensures Follows(StreamDeltas(old(Abs()))) && (!disconnected ==> ok)
    {
      hide Spoken, Quiet, Carries, ApplyDelta, Consume;
      ghost var goal := StreamDeltas(Abs());
      while true
        invariant old(wire) <= wire && (old(disconnected) ==> disconnected && wire == old(wire))
        invariant wire <= goal.wire
        invariant !disconnected ==> StreamDeltas(Abs()) == goal
        decreases |parser.deltas|
      {
        var (d, p) := Consume(parser);
        if d.None? {
          parser := p;
          return true;
        }
        parser := p;
        ok := OnDelta(d.value);
        if !ok { return; }
      }
    }

    /** Whole calls that became ready. */
    method EmitReadyToolCalls(ready: seq<ToolCall>)
      modifies this
      ensures Follows(EmitReady(old(Abs()), ready))
    {
      hide Spoken, Quiet, Carries, Headers;
      streamed := streamed + ready;
      if tool.Some? {
        tool := None;
        pending := pending + |ready|;
        return;
      }
      pending := EmitToolCallChunks(ready, pending);
    }

    // ---- Text and thinking ---------------------------------------------

    method EmitPartialThinking() returns (ok: bool)
      modifies this
      ensures Follows(PartialThinking(old(Abs()))) && (!disconnected ==> ok)
    {
      hide Spoken, Quiet, Carries;
      var grown := Grown(lastThinking, parser.thinking);
      lastThinking := Mark(lastThinking, parser.thinking);
      if grown == "" { return true; }
      thought := thought + grown;
      ok := Emit(Reasoning(grown));
    }

    method EmitPartialText(text: string) returns (ok: bool)
      modifies this
      ensures Follows(PartialText(old(Abs()), text)) && (!disconnected ==> ok)
    {
      hide Spoken, Quiet, Carries;
      var grown := Grown(lastSafe, text);
      lastSafe := Mark(lastSafe, text);
      if grown == "" { return true; }
      ok := Emit(Content(grown));
    }

    // ---- One upstream event --------------------------------------------

    method ProcessThinking(content: string) returns (ok: bool)
      modifies this
      ensures Follows(ThinkingStep(old(Abs()), content)) && (!disconnected ==> ok)
    {
      hide Spoken, Quiet, Carries;
      thought := thought + content;
      if content == "" { return true; }
      ok := Emit(Reasoning(content));
    }

    method ProcessNativeToolCall(call: NativeCall) returns (ok: bool)
      modifies this
      ensures Follows(NativeStep(old(Abs()), call)) && (!disconnected ==> ok)
    {
      hide Spoken, Quiet, Carries;
      if call.hasId { nativeSent := nativeSent + 1; }
      var entry := call;
      if call.index.Some? { entry := call.(index := Some(pending + call.index.value)); }
      ok := Emit(Native(entry));
    }

    method EmitThinkingThenText() returns (ok: bool)
      modifies this
      ensures Follows(ThinkThenText(old(Abs()), old(parser.text))) && (!disconnected ==> ok)
    {
      hide Spoken, Quiet, Carries, PartialThinking, PartialText, Grown, Mark;
      ok := EmitPartialThinking();
      if !ok { return; }
      ok := EmitPartialText(parser.text);
    }

    method StreamTools(p: Parser) returns (ok: bool)
      modifies this
      ensures
        var s := old(Abs());
        Follows(CountBlock(s.tool, StreamDeltas(s.(parser := p)))) && (!disconnected ==> ok)
    {
      hide Spoken, Quiet, Carries, StreamDeltas;
      parser := p;
      var had := tool.Some?;
      ok := EmitStreamingToolDeltas();
      if !had && tool.Some? { blocksSent := blocksSent + 1; }
    }

    method ProcessAnswer(p: Parser, ready: seq<ToolCall>) returns (ok: bool)
      modifies this
      ensures Follows(AnswerStep(old(Abs()), p, ready)) && (!disconnected ==> ok)
    {
      hide Spoken, Quiet, Carries, StreamDeltas, ThinkThenText, EmitReady, Grown, Mark;
      ok := StreamTools(p);
      if !ok { return; }
      ok := EmitThinkingThenText();
      if !ok { return; }
      if ready != [] { EmitReadyToolCalls(ready); }
    }

    method ProcessEvent(e: Upstream) returns (ok: bool)
      modifies this
      ensures Follows(Step(old(Abs()), e)) && (!disconnected ==> ok)
    {
      hide Spoken, Quiet, Carries, AnswerStep, ThinkingStep, NativeStep, Grown, Mark;
      match e
      case ThinkingPart(content) => ok := ProcessThinking(content);
      case Answer(p, ready) => ok := ProcessAnswer(p, ready);
      case NativePart(call) => if call.Some? { ok := ProcessNativeToolCall(call.value); } else { ok := true; }
      case Other => ok := true;
    }

    /** Stops at the first event that finds the connection gone. */
    method ProcessEvents(es: seq<Upstream>)
      modifies this
      ensures Follows(Events(old(Abs()), es))
    {
      hide Spoken, Quiet, Carries, Step;
      ghost var goal := Events(Abs(), es);
      for k := 0 to |es|
        invariant old(wire) <= wire <= goal.wire
        invariant old(disconnected) ==> disconnected && wire == old(wire)
        invariant !disconnected ==> Events(Abs(), es[k..]) == goal
      {
        if disconnected { return; }
        assert es[k..][1..] == es[k + 1..];
        var ok := ProcessEvent(es[k]);
        if !ok { return; }
      }
    }

    // ---- The end of the stream -----------------------------------------

    method FlushRemainingThinkingAndText(text: string)
      modifies this
      ensures Follows(Leftovers(old(Abs()), text))
    {
      hide Spoken, Quiet, Carries, PartialThinking, PartialText, Grown, Mark;
      if disconnected { return; }
      var _ := EmitPartialThinking();
      if disconnected { return; }
      var grown := Grown(lastSafe, text);
      if grown == "" && thought != "" && !parser.hasCalls {
        var _ := EmitPartialText(text);
        var _ := Emit(Content(""));
      } else {
        var _ := EmitPartialText(text);
      }
    }

    method CompleteStreamTool(calls: seq<ToolCall>)
      requires tool.Some?
      modifies this
      ensures Follows(CompleteTool(old(Abs()), calls))
    {
      hide Spoken, Quiet, Carries, EmitPieces, FinalJson;
      var (json, q) := FinalJson(parser);
      parser := q;
      var _ := EmitStreamToolPieces(json);
      tool := None;
      if parser.closed || calls != [] { pending := pending + 1; }
    }

    method FinalizeStreamTool(calls: seq<ToolCall>)
      modifies this
      ensures Follows(FinalizeTool(old(Abs()), calls))
    {
      hide Spoken, Quiet, Carries, CompleteTool, EmitReady;
      if disconnected { return; }
      var (late, p) := TakeReady(parser);
      parser := p;
      if late != [] {
        EmitReadyToolCalls(late);
      } else if tool.Some? {
        CompleteStreamTool(calls);
      }
    }

    method SendUnsentCalls(calls: seq<ToolCall>, already: nat)
      modifies this`wire, this`disconnected
      ensures Follows(SendRemaining(old(Abs()), calls, already))
    {
      hide Spoken, Quiet, Carries, Headers, Tools;
      if already < |calls| { var _ := EmitToolCallChunks(calls[already..], already); }
    }

    method SendStreamFinish(calls: seq<ToolCall>, already: nat, usage: bool)
      modifies this`wire, this`disconnected
      ensures Follows(SendFinish(old(Abs()), calls, already, usage))
    {
      hide Spoken, Quiet, Carries, SendRemaining;
      SendUnsentCalls(calls, already);
      var _ := Emit(Finish(calls != [] || already > 0));
      if usage { var _ := Emit(Usage); }
      var _ := Emit(Done);
    }

    method ConcludeStream(end: Ending)
      modifies this
      ensures Follows(Conclude(old(Abs()), end))
    {
      hide Spoken, Quiet, Carries, Leftovers, FinalizeTool, FinalText, Grown, Mark;
      parser := end.parser;
      FlushRemainingThinkingAndText(FinalText(end));
      FinalizeStreamTool(end.calls);
    }

    method SettleStream(calls: seq<ToolCall>, usage: bool)
      modifies this
      ensures Follows(Settle(old(Abs()), calls, usage))
    {
      hide Spoken, Quiet, Carries, SendFinish, SendRemaining, Finale;
      var all := if calls != [] then calls else streamed;
      pending := Reconciled(pending, all, blocksSent);
      SendStreamFinish(all, pending + nativeSent, usage);
    }

    method FinishStream(end: Ending, usage: bool)
      modifies this
      ensures Follows(Complete(old(Abs()), end, usage))
    {
      hide Spoken, Quiet, Carries, Conclude, Settle, FinalText, Grown, Mark;
      ConcludeStream(end);
      SettleStream(end.calls, usage);
    }
  }

  /** A whole request. Whatever write fails, the client has received a
      beginning of what a connection that holds would have carried, with sound
      indices. */
  method Handle(es: seq<Upstream>, how: Outcome) returns (wire: seq<Chunk>, disconnected: bool)
    ensures wire <= Run(es, how).wire
    ensures !disconnected ==> wire == Run(es, how).wire
    ensures Theorems.HeadersIncrease(wire) && Theorems.ArgsFollow(wire)
  {
    hide Events, Complete, Spoken;
    var h := new OpenAIStream();
    h.ProcessEvents(es);
    match how {
      case Finished(end, usage) => if !h.disconnected { h.FinishStream(end, usage); }
      case Failed => var _ := h.Emit(Failure);
      case Cancelled => var _ := h.Emit(Done);
    }
    wire, disconnected := h.wire, h.disconnected;
    Theorems.IndicesAreSound(es, how);
    Theorems.PrefixIsSound(wire, Run(es, how).wire);
  }
}
