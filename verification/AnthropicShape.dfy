/** When the Anthropic stream is well formed on the wire: exactly when no event
    asks the handler to write through a block it has not got open. */
module AnthropicShape {
  import opened Common
  import opened ToolParser
  import opened AnthropicWire
  import opened AnthropicSpec

  function KindOf(bt: BlockType): Kind {
    match bt
    case TextBlock => Text
    case ThinkingBlock => Thinking
    case _ => Tool
  }

  /** The state's own account of what is open agrees with the wire. */
  ghost predicate Level(s: Stream) {
    && (if s.blockType == NoBlock then -1 <= s.blockIdx else 0 <= s.blockIdx)
    && (!s.started ==> s.blockIdx == -1)
    && ShapeOf(s.wire) ==
       if !s.started then Fresh
       else if s.blockType == NoBlock then Idle(s.blockIdx + 1)
       else Open(s.blockIdx, KindOf(s.blockType))
  }

  /** The open tool is the open block, or was left behind by a native call. */
  predicate Placed(s: Stream) {
    && (s.blockType == ToolUse ==> s.tool.Some?)
    && (s.tool.Some? ==>
          || (s.blockType == ToolUse && s.tool.value.blockIdx == s.blockIdx)
          || (s.blockType == NativeTool && 0 <= s.tool.value.blockIdx < s.blockIdx))
  }

  ghost predicate Coherent(s: Stream) { Level(s) && Placed(s) }

  /** A native call has started while the streamed tool was still open. */
  predicate Stale(s: Stream) { s.tool.Some? && s.blockType == NativeTool }

  lemma StaysBroken(a: Stream, b: Stream)
    requires a.wire <= b.wire && ShapeOf(a.wire) == Broken
    ensures ShapeOf(b.wire) == Broken
  {
    hide *;
    if ShapeOf(b.wire) != Broken { PrefixUnbroken(a.wire, b.wire); }
  }

  // ---- Streamed JSON ---------------------------------------------------

  lemma {:induction false} DeltasFrom(sh: Shape, i: int, bodies: seq<string>)
    ensures i >= 0 && sh == Open(i, Tool) ==> Advance(sh, Deltas(i, Tool, bodies)) == sh
    ensures !(i >= 0 && sh == Open(i, Tool)) && bodies != [] ==>
              Advance(sh, Deltas(i, Tool, bodies)) == Broken
  {
    if bodies != [] {
      var es := Deltas(i, Tool, bodies);
      if i >= 0 && sh == Open(i, Tool) {
        DeltasAdvance(i, Tool, bodies);
      } else {
        BrokenStays(es[1..]);
      }
    }
  }

  /** JSON for the open block keeps it open; JSON for any other breaks. */
  lemma PiecesShape(s: Stream, json: string)
    requires s.tool.Some? && s.tool.value.blockIdx >= 0
    ensures
      var t, i := EmitPieces(s, json), s.tool.value.blockIdx;
      ShapeOf(t.wire) ==
      if json == "" || ShapeOf(s.wire) == Open(i, Tool) then ShapeOf(s.wire) else Broken
  {
    var i := s.tool.value.blockIdx;
    var pieces := Chunks(json);
    AdvanceAppend(Fresh, s.wire, Deltas(i, Tool, pieces));
    DeltasFrom(ShapeOf(s.wire), i, pieces);
  }

  lemma {:induction false} DrainShape(s: Stream)
    requires s.tool.Some? && s.tool.value.blockIdx >= 0
    ensures ShapeOf(Drain(s).wire) == ShapeOf(s.wire)
            || (ShapeOf(Drain(s).wire) == Broken && ShapeOf(s.wire) != Open(s.tool.value.blockIdx, Tool))
    decreases |s.parser.deltas|
  {
    hide Body, EmitPieces, Consume;
    var (d, p) := Consume(s.parser);
    if d.Some? {
      var a := EmitPieces(s.(parser := p), d.value.json);
      PiecesShape(s.(parser := p), d.value.json);
      DrainShape(a);
    }
  }

  lemma CompletedShape(s: Stream, expected: Option<string>)
    requires s.tool.Some? && s.tool.value.blockIdx >= 0
    ensures ShapeOf(Completed(s, expected).wire) == ShapeOf(s.wire)
            || (ShapeOf(Completed(s, expected).wire) == Broken
                && ShapeOf(s.wire) != Open(s.tool.value.blockIdx, Tool))
  {
    hide Body, EmitPieces, Drain, Missing, FinalJson;
    DrainShape(s);
    var a := Drain(s);
    PiecesShape(a.(parser := FinalJson(a.parser).1), FinalJson(a.parser).0);
    var b := EmitFinal(a);
    if expected.Some? { PiecesShape(b, Missing(b.codec, b.tool.value.jsonBuf, expected.value)); }
  }

  /** Flushing the open block closes it; flushing any other block breaks. */
  lemma FlushShape(s: Stream, expected: Option<string>)
    requires s.tool.Some? && s.tool.value.blockIdx >= 0
    ensures
      var i, before, after := s.tool.value.blockIdx, ShapeOf(s.wire), ShapeOf(Flush(s, expected).wire);
      && (before == Open(i, Tool) ==> after == Idle(i + 1))
      && (!(before.Open? && before.index == i) ==> after == Broken)
  {
    hide Body, Completed;
    CompletedShape(s, expected);
  }

  lemma FinishShape(s: Stream, expected: Option<string>)
    requires Coherent(s) && s.tool.Some? && s.started
    ensures
      var t := Finish(s, expected);
      if Stale(s) then ShapeOf(t.wire) == Broken else Coherent(t)
  {
    hide Body, Flush;
    FlushShape(s, expected);
  }

  lemma ApplyDeltaShape(s: Stream, d: ToolDelta)
    requires Coherent(s) && s.started && d.json != ""
    ensures
      var t := ApplyDelta(s, d);
      if Stale(s) then ShapeOf(t.wire) == Broken
      else Coherent(t) && t.started && t.blockType == ToolUse
  {
    hide Body, Flush, EmitPieces;
    var a := CloseOther(s);
    var b := LeaveTool(a, d.name);
    var c := EnterTool(b, d.name);
    if s.tool.Some? {
      FlushShape(a, None);
      if Stale(s) && s.tool.value.name != d.name { StaysBroken(b, EmitPieces(c, d.json)); }
    }
    if !Stale(s) || s.tool.value.name == d.name { PiecesShape(c, d.json); }
  }

  lemma {:induction false} StreamDeltasShape(s: Stream)
    requires Coherent(s) && s.started
    ensures
      var t := StreamDeltas(s);
      if Stale(s) && Solid(s.parser.deltas) != [] then ShapeOf(t.wire) == Broken
      else Coherent(t) && t.started
           && (Solid(s.parser.deltas) != [] ==> t.blockType == ToolUse)
    decreases |s.parser.deltas|
  {
    hide Body, ApplyDelta, Consume;
    var (d, p) := Consume(s.parser);
    if d.Some? {
      var a := ApplyDelta(s.(parser := p), d.value);
      ApplyDeltaShape(s.(parser := p), d.value);
      if Stale(s) {
        StaysBroken(a, StreamDeltas(a));
      } else {
        StreamDeltasShape(a);
      }
    }
  }

  // ---- Thinking and text ----------------------------------------------

  lemma SendThinkingShape(s: Stream, content: string)
    requires Coherent(s) && s.started
    ensures
      var t := SendThinking(s, content);
      if Stale(s) then ShapeOf(t.wire) == Broken else Coherent(t) && t.started
  {
    hide Body, Finish, EnterThinking;
    var a := LeaveForThinking(s);
    if s.tool.Some? { FinishShape(s, None); }
    if Stale(s) { StaysBroken(a, SendThinking(s, content)); } else { EnterThinkingShape(a); }
  }

  lemma EnterThinkingShape(s: Stream)
    requires Coherent(s) && s.started && s.tool.None?
    ensures Coherent(EnterThinking(s)) && EnterThinking(s).started
  {
    hide Body;
  }

  lemma PartialThinkingShape(s: Stream)
    requires Coherent(s) && s.started
    ensures
      var t, gains := PartialThinking(s), Grown(s.lastThinking, s.parser.thinking) != "";
      if Stale(s) && gains then ShapeOf(t.wire) == Broken
      else Coherent(t) && t.started && (if gains then t.tool.None? && t.blockType == ThinkingBlock
                                        else t.tool == s.tool && t.blockType == s.blockType)
  {
    hide Body, SendThinking;
    SendThinkingShape(s.(lastThinking := Mark(s.lastThinking, s.parser.thinking)),
                      Grown(s.lastThinking, s.parser.thinking));
  }

  /** Text may not open over a native tool block, and does not otherwise break. */
  lemma TextDeltaShape(s: Stream, text: string)
    requires Coherent(s) && s.started && s.tool.None?
    ensures
      var t := TextDelta(s, text);
      if s.blockType == NativeTool then ShapeOf(t.wire) == Broken else Coherent(t) && t.started
  {
    hide Body;
  }

  lemma GrownTextShape(s: Stream, current: string)
    requires Coherent(s) && s.started
    ensures
      var t := GrownText(s, current);
      if Grown(s.lastSafe, current) == "" then
        Coherent(t) && t.started && t.tool == s.tool && t.blockType == s.blockType
      else if s.blockType == NativeTool then ShapeOf(t.wire) == Broken
      else Coherent(t) && t.started && t.tool.None?
  {
    hide Body, TextDelta, Finish;
    var grown, a := Grown(s.lastSafe, current), s.(lastSafe := Mark(s.lastSafe, current));
    if grown != "" {
      if a.tool.Some? {
        FinishShape(a, None);
        var b := Finish(a, None);
        if Stale(a) { StaysBroken(b, TextDelta(b, grown)); } else { TextDeltaShape(b, grown); }
      } else {
        TextDeltaShape(a, grown);
      }
    }
  }

  // ---- Complete calls --------------------------------------------------

  lemma {:induction false} ToolBlocksShape(s: Stream, calls: seq<ToolCall>)
    requires Level(s) && s.started && s.blockType == NoBlock
    ensures Level(ToolBlocks(s, calls))
    decreases |calls|
  {
    if calls != [] {
      var es := BlockEvents(s.blockIdx + 1, CallBlock(s.codec, calls[0]));
      AdvanceAppend(Fresh, s.wire, es);
      BlockAdvance(s.blockIdx + 1, CallBlock(s.codec, calls[0]));
      ToolBlocksShape(s.(blockIdx := s.blockIdx + 1, wire := s.wire + es), calls[1..]);
    }
  }

  lemma EmitReadyShape(s: Stream, ready: seq<ToolCall>)
    requires Coherent(s) && s.started && s.tool.None?
    ensures Coherent(EmitReady(s, ready)) && EmitReady(s, ready).started
  {
    hide Body, ToolBlocks;
    if ready != [] { ToolBlocksShape(if s.blockType != NoBlock then CloseBlock(s) else s, ready); }
  }

  lemma HandleReadyShape(s: Stream, ready: seq<ToolCall>)
    requires Coherent(s) && s.started
    ensures
      var t := HandleReady(s, ready);
      if Stale(s) && ready != [] then ShapeOf(t.wire) == Broken else Coherent(t) && t.started
  {
    hide Body, Finish, EmitReady, ExpectedArguments;
    if ready != [] {
      var a := s.(streamed := s.streamed + ready);
      if a.tool.Some? {
        FinishShape(a, ExpectedArguments(ready, a.tool.value.name));
      } else {
        EmitReadyShape(a, ready);
      }
    }
  }

  // ---- One event -------------------------------------------------------

  /** The events that make the handler write into a block that is not open:
      visible text over a native tool block, or anything that needs the
      streamed tool that a native call has left behind. Decided by the state
      before the event and by the event alone. */
  predicate Clashes(s: Stream, e: Upstream) {
    match e
    case ThinkingPart(content) => Stale(s) && content != ""
    case Answer(p, ready) =>
      var streams, thinks, speaks :=
        Solid(p.deltas) != [], Grown(s.lastThinking, p.thinking) != "", Grown(s.lastSafe, p.text) != "";
      if Stale(s) then streams || thinks || speaks || ready != []
      else s.blockType == NativeTool && !streams && !thinks && speaks
    case _ => false
  }

  lemma NativeShape(s: Stream, hasId: bool, name: string, arguments: string)
    requires Coherent(s) && s.started
    ensures Coherent(NativeStep(s, hasId, name, arguments))
  {
    hide Body;
  }

  lemma ThinkThenTextShape(s: Stream, current: string)
    requires Coherent(s) && s.started
    ensures
      var t, thinks, speaks :=
        ThinkThenText(s, current), Grown(s.lastThinking, s.parser.thinking) != "", Grown(s.lastSafe, current) != "";
      if (Stale(s) && (thinks || speaks)) || (s.blockType == NativeTool && !thinks && speaks)
      then ShapeOf(t.wire) == Broken
      else Coherent(t) && t.started && (!thinks && !speaks ==> t.tool == s.tool && t.blockType == s.blockType)
           && (thinks || speaks ==> t.tool.None?)
  {
    hide Body, PartialThinking, GrownText, Grown;
    PartialThinkingShape(s);
    var a := PartialThinking(s);
    if Stale(s) && Grown(s.lastThinking, s.parser.thinking) != "" {
      StaysBroken(a, GrownText(a, current));
    } else {
      GrownTextShape(a, current);
    }
  }

  lemma AnswerShape(s: Stream, p: Parser, ready: seq<ToolCall>)
    requires Coherent(s) && s.started
    ensures
      var t := AnswerStep(s, p, ready);
      if Clashes(s, Answer(p, ready)) then ShapeOf(t.wire) == Broken else Coherent(t)
  {
    hide Body, ThinkThenText, HandleReady, Grown, StreamDeltas, Solid;
    var a := s.(parser := p);
    StreamDeltasShape(a);
    var b := StreamTools(a);
    var c := ThinkThenText(b, p.text);
    if ShapeOf(b.wire) == Broken {
      StaysBroken(b, HandleReady(c, ready));
    } else {
      ThinkThenTextShape(b, p.text);
      if ShapeOf(c.wire) == Broken {
        StaysBroken(c, HandleReady(c, ready));
      } else {
        HandleReadyShape(c, ready);
      }
    }
  }

  lemma EnsureStartShape(s: Stream)
    requires Coherent(s)
    ensures Coherent(EnsureStart(s)) && EnsureStart(s).started
  {
    hide Body;
  }

  /** One event breaks the trace exactly when it clashes, and otherwise leaves
      the state in agreement with the wire. */
  lemma DispatchShape(s: Stream, e: Upstream)
    requires Coherent(s)
    ensures
      var t := Dispatch(s, e);
      if Clashes(s, e) then ShapeOf(t.wire) == Broken else Coherent(t) && ShapeOf(t.wire) != Broken
  {
    hide Body, SendThinking, AnswerStep, NativeStep, EnsureStart, Grown, Solid;
    EnsureStartShape(s);
    var a := if Announces(e) then EnsureStart(s) else s;
    if a.started {
      match e
      case ThinkingPart(content) => SendThinkingShape(a, content);
      case Answer(p, ready) => AnswerShape(a, p, ready);
      case Native(_, hasId, _, name, arguments) => NativeShape(a, hasId, name, arguments);
      case _ =>
    }
  }

  // ---- A whole run -----------------------------------------------------

  /** Some event clashes with the state it meets. */
  predicate RunClashes(s: Stream, es: seq<Upstream>)
    decreases |es|
  {
    es != [] && (Clashes(s, es[0]) || RunClashes(Dispatch(s, es[0]), es[1..]))
  }

  lemma {:induction false} EventsShape(s: Stream, es: seq<Upstream>)
    requires Coherent(s)
    ensures
      var t := Events(s, es);
      if RunClashes(s, es) then ShapeOf(t.wire) == Broken else Coherent(t) && ShapeOf(t.wire) != Broken
    decreases |es|
  {
    hide Body, Dispatch, Clashes;
    if es != [] {
      DispatchShape(s, es[0]);
      var a := Dispatch(s, es[0]);
      if Clashes(s, es[0]) {
        StaysBroken(a, Events(a, es[1..]));
      } else {
        EventsShape(a, es[1..]);
      }
    }
  }

  lemma DispatchStarts(s: Stream, e: Upstream)
    ensures Dispatch(s, e).started <==> s.started || Announces(e)
  {
    hide Body, ShapeOf, ContentStep, Carries;
  }

  /** The message is announced by a prompt, thinking, an answer, or anything that
      carries usage, and by nothing else. */
  lemma {:induction false} AnnouncedWhen(s: Stream, es: seq<Upstream>)
    ensures Events(s, es).started
            <==> s.started || exists e :: e in es && (e.PromptMeta? || e.ThinkingPart? || e.Answer?
                                                      || ((e.Native? || e.Other?) && e.usage))
    decreases |es|
  {
    hide Body, ShapeOf, Dispatch, Keeps, Carries;
    if es != [] {
      DispatchStarts(s, es[0]);
      AnnouncedWhen(Dispatch(s, es[0]), es[1..]);
      assert forall e :: e in es <==> e == es[0] || e in es[1..];
    }
  }

  /** The end of the stream clashes: leftovers for a message never announced,
      visible text over a native block, or a tool left behind that has to be
      completed. The parser is asked for ready calls twice. */
  predicate EndClashes(s: Stream, end: Ending) {
    var thinks, speaks :=
      Grown(s.lastThinking, end.parser.thinking) != "", Grown(s.lastSafe, FinalText(end)) != "";
    var (late, p) := TakeReady(end.parser);
    var again := TakeReady(p).0;
    if !s.started then thinks || speaks || again != []
    else if Stale(s) then thinks || speaks || late == [] || again != []
    else s.blockType == NativeTool && !thinks && speaks
  }

  lemma RemainingTextShape(s: Stream, text: string)
    requires Coherent(s) && s.started
    ensures
      var t := RemainingText(s, text);
      if Grown(s.lastSafe, text) != "" && s.blockType == NativeTool then ShapeOf(t.wire) == Broken
      else Coherent(t) && t.started && t.parser.ready == s.parser.ready
           && (Grown(s.lastSafe, text) == "" && s.tool.Some? ==> t.tool == s.tool && t.blockType == s.blockType)
           && (Grown(s.lastSafe, text) != "" ==> t.tool.None?)
           && (s.tool.None? ==> t.tool.None?)
  {
    hide Body, GrownText, TextDelta, Grown;
    GrownTextShape(s, text);
    if s.tool.None? { TextDeltaShape(s.(lastSafe := Mark(s.lastSafe, text)), ""); }
  }

  lemma OpenToolAtEndShape(s: Stream)
    requires Coherent(s) && s.started && s.tool.Some?
    ensures
      var t := OpenToolAtEnd(s);
      if Stale(s) then ShapeOf(t.wire) == Broken else Level(t) && t.started
  {
    hide Body, Finish;
    FinishShape(s, if s.allCalls == [] then None else Some(s.allCalls[0].arguments));
  }

  lemma FinalizeShape(s: Stream)
    requires Coherent(s) && s.started
    ensures
      var t := FinalizeTools(s);
      var (late, p) := TakeReady(s.parser);
      if Stale(s) && (late == [] || TakeReady(p).0 != []) then ShapeOf(t.wire) == Broken
      else Level(t) && t.started
  {
    hide Body, HandleReady, EmitReady, OpenToolAtEnd, TakeReady;
    var (late, p) := TakeReady(s.parser);
    var (again, q) := TakeReady(p);
    if late != [] {
      HandleReadyShape(s.(parser := q), again);
    } else if s.tool.None? {
      EmitReadyShape(s.(parser := q), again);
    } else {
      OpenToolAtEndShape(s.(parser := p));
    }
  }

  // Before the message is announced, any block breaks the trace.

  lemma UnannouncedThinking(s: Stream)
    requires Coherent(s) && !s.started
    ensures
      var t, gains := PartialThinking(s), Grown(s.lastThinking, s.parser.thinking) != "";
      if gains then ShapeOf(t.wire) == Broken
      else t == s.(lastThinking := Mark(s.lastThinking, s.parser.thinking))
  {
    hide Body, Finish, Grown;
  }

  lemma UnannouncedText(s: Stream, text: string)
    requires Coherent(s) && !s.started
    ensures
      var t, gains := RemainingText(s, text), Grown(s.lastSafe, text) != "";
      if gains then ShapeOf(t.wire) == Broken else t == s.(lastSafe := Mark(s.lastSafe, text))
  {
    hide Body, Finish, Grown;
  }

  lemma UnannouncedBlocks(s: Stream, calls: seq<ToolCall>)
    requires Coherent(s) && !s.started && calls != []
    ensures ShapeOf(ToolBlocks(s, calls).wire) == Broken
  {
    var es := BlockEvents(s.blockIdx + 1, CallBlock(s.codec, calls[0]));
    AdvanceAppend(Fresh, s.wire, es);
    BrokenStays(es[1..]);
    var a := s.(blockIdx := s.blockIdx + 1, wire := s.wire + es);
    StaysBroken(a, ToolBlocks(a, calls[1..]));
  }

  lemma UnannouncedTools(s: Stream)
    requires Coherent(s) && !s.started
    ensures
      var t, again := FinalizeTools(s), TakeReady(TakeReady(s.parser).1).0;
      if again != [] then ShapeOf(t.wire) == Broken
      else Coherent(t) && !t.started
  {
    hide Body, ToolBlocks, TakeReady;
    var q := TakeReady(TakeReady(s.parser).1);
    if q.0 != [] {
      UnannouncedBlocks(s.(parser := q.1), q.0);
      UnannouncedBlocks(s.(parser := q.1, streamed := s.streamed + q.0), q.0);
    }
  }

  lemma SettledShape(s: Stream)
    requires Level(s)
    ensures
      var t := EnsureStart(Reconcile(CloseNative(s)));
      Level(t) && t.started && ShapeOf(t.wire) != Broken
  {
    hide Body;
  }

  /** Finishing breaks the trace exactly when the end clashes. */
  lemma CompleteShape(s: Stream, end: Ending)
    requires Coherent(s)
    ensures
      var t := Complete(s, end);
      if EndClashes(s, end) then ShapeOf(t.wire) == Broken
      else Level(t) && t.started && ShapeOf(t.wire) != Broken
  {
    hide Body, PartialThinking, RemainingText, FinalizeTools, CloseNative, EnsureStart, Reconcile,
      FinalText, Grown, Mark, Next, Advance;
    var a := s.(parser := end.parser, allCalls := end.calls);
    var b := PartialThinking(a);
    var c := RemainingText(b, FinalText(end));
    var d := FinalizeTools(c);
    var t := EnsureStart(Reconcile(CloseNative(d)));
    if s.started {
      PartialThinkingShape(a);
    } else {
      UnannouncedThinking(a);
    }
    if ShapeOf(b.wire) == Broken {
      StaysBroken(b, t);
    } else {
      if s.started { RemainingTextShape(b, FinalText(end)); } else { UnannouncedText(b, FinalText(end)); }
      if ShapeOf(c.wire) == Broken {
        StaysBroken(c, t);
      } else {
        if s.started { FinalizeShape(c); } else { UnannouncedTools(c); }
        if ShapeOf(d.wire) == Broken { StaysBroken(d, t); } else { SettledShape(d); }
      }
    }
  }

  lemma PostStreamShape(s: Stream)
    requires Level(s) && s.started
    ensures ShapeOf(PostStream(s).wire) == Ended
  {
    hide Body, ToolBlocks;
    ToolBlocksShape(if s.blockType != NoBlock then CloseBlock(s) else s, Unsent(s));
  }

  /** Everything a completed request writes on a connection that holds. */
  function Run(codec: Codec, es: seq<Upstream>, end: Ending): Stream {
    PostStream(Complete(Events(Init(codec), es), end))
  }

  /** No event and not the end of the stream clash with the state they meet. */
  predicate Clean(codec: Codec, es: seq<Upstream>, end: Ending) {
    !RunClashes(Init(codec), es) && !EndClashes(Events(Init(codec), es), end)
  }

  /** For every upstream sequence and every parser: a completed request writes
      a complete, well-formed message exactly when the run is clean. */
  lemma RunIsWellFormed(codec: Codec, es: seq<Upstream>, end: Ending)
    ensures ShapeOf(Run(codec, es, end).wire) == Ended <==> Clean(codec, es, end)
    ensures !Clean(codec, es, end) ==> ShapeOf(Run(codec, es, end).wire) == Broken
  {
    hide Body, Dispatch, RunClashes, EndClashes, PostStream, Complete, Events;
    var a := Events(Init(codec), es);
    EventsShape(Init(codec), es);
    var b := Complete(a, end);
    if ShapeOf(a.wire) == Broken {
      StaysBroken(a, PostStream(b));
    } else {
      CompleteShape(a, end);
      if ShapeOf(b.wire) == Broken { StaysBroken(b, PostStream(b)); } else { PostStreamShape(b); }
    }
  }

  /** A clean run writes exactly the events of some list of blocks, in order
      and numbered from 0, between the message's start and its finish. */
  lemma CleanRunIsMessage(codec: Codec, es: seq<Upstream>, end: Ending)
    ensures Clean(codec, es, end) <==> exists blocks, t :: Run(codec, es, end).wire == Message(blocks, t)
  {
    hide *;
    RunIsWellFormed(codec, es, end);
    EndedIsGrammar(Run(codec, es, end).wire);
  }

  /** A request cut off by an upstream error ends in an error event after a
      well-formed beginning exactly when no event clashed before it. */
  lemma FailedRunIsWellFormed(codec: Codec, es: seq<Upstream>)
    ensures
      var t := Put(Events(Init(codec), es), Error);
      ShapeOf(t.wire) == if RunClashes(Init(codec), es) then Broken else Failed
  {
    hide Body, RunClashes, Events;
    EventsShape(Init(codec), es);
  }

  /** How the upstream ends: with the parser's last words, with an error, or
      because the request is cancelled, and then nothing more is written. */
  datatype Outcome = Finished(end: Ending) | UpstreamError | Cancelled

  /** Everything a request writes on a connection that holds. */
  function Trace(codec: Codec, es: seq<Upstream>, how: Outcome): seq<Event> {
    match how
    case Finished(end) => Run(codec, es, end).wire
    case UpstreamError => Put(Events(Init(codec), es), Error).wire
    case Cancelled => Events(Init(codec), es).wire
  }

  predicate NoClash(codec: Codec, es: seq<Upstream>, how: Outcome) {
    if how.Finished? then Clean(codec, es, how.end) else !RunClashes(Init(codec), es)
  }

  /** However it ends, what a request writes is malformed exactly when something
      clashes; otherwise a finished one is complete and a failed one ends in its
      error. */
  lemma TraceIsWellFormed(codec: Codec, es: seq<Upstream>, how: Outcome)
    ensures ShapeOf(Trace(codec, es, how)) == Broken <==> !NoClash(codec, es, how)
    ensures NoClash(codec, es, how) && how.Finished? ==> ShapeOf(Trace(codec, es, how)) == Ended
    ensures NoClash(codec, es, how) && how.UpstreamError? ==> ShapeOf(Trace(codec, es, how)) == Failed
  {
    hide Body, RunClashes, EndClashes, Events, Run, Clean, ShapeOf;
    match how
    case Finished(end) => RunIsWellFormed(codec, es, end);
    case UpstreamError => FailedRunIsWellFormed(codec, es);
    case Cancelled => EventsShape(Init(codec), es) by { InitIsCoherent(codec); }
  }

  lemma InitIsCoherent(codec: Codec)
    ensures Coherent(Init(codec))
  {}

  // ---- Which runs are clean --------------------------------------------

  lemma {:induction false} WithoutNativeTools(s: Stream, es: seq<Upstream>)
    requires Coherent(s) && Entml(s) && forall e :: e in es ==> !e.Native?
    ensures !RunClashes(s, es) && Entml(Events(s, es)) && Coherent(Events(s, es))
    ensures s.started || (exists e :: e in es && e.Answer?) ==> Events(s, es).started
    decreases |es|
  {
    hide Body, Dispatch;
    if es != [] {
      DispatchShape(s, es[0]);
      WithoutNativeTools(Dispatch(s, es[0]), es[1..]);
    }
  }

  /** What an unfed parser answers when it is finalized. */
  predicate Silent(end: Ending) {
    && end.parser.text == "" && end.parser.thinking == "" && end.finalText == ""
    && forall k :: 0 <= k < |end.parser.ready| ==> end.parser.ready[k] == []
  }

  /** Without native tool calls every request is well formed, provided only
      that a parser that was never fed has nothing to say. */
  lemma EntmlRunsAreClean(codec: Codec, es: seq<Upstream>, end: Ending)
    requires forall e :: e in es ==> !e.Native?
    requires (exists e :: e in es && e.Answer?) || Silent(end)
    ensures Clean(codec, es, end)
  {
    hide Body, Events, RunClashes;
    WithoutNativeTools(Init(codec), es);
  }

  /** Text after a native tool call is written over the open block, whatever
      the call and the text are and whatever follows. */
  lemma TextAfterNativeCallBreaks(codec: Codec, index: int, name: string, arguments: string, text: string,
                                  more: seq<Upstream>, end: Ending)
    requires text != ""
    ensures
      var call, said := Native(false, true, index, name, arguments), Answer(Unfed.(text := text), []);
      !Clean(codec, [PromptMeta, call, said] + more, end)
  {
    hide Body, ShapeOf;
    var call, said := Native(false, true, index, name, arguments), Answer(Unfed.(text := text), []);
    var a := Dispatch(Init(codec), PromptMeta);
    var b := Dispatch(a, call);
    assert b.tool.None? && b.blockType == NativeTool && b.lastSafe == 0;
    assert Clashes(b, said) && RunClashes(b, [said] + more);
    var es := [PromptMeta, call, said] + more;
    assert es[1..] == [call, said] + more && es[1..][1..] == [said] + more;
    assert RunClashes(a, es[1..]);
  }

  lemma StreamedTool(codec: Codec, d: ToolDelta)
    requires d.json != ""
    ensures
      var t := Dispatch(Init(codec), Answer(Unfed.(deltas := [d]), []));
      t.tool.Some? && t.started
  {
    hide Body, ShapeOf, StreamDeltas;
    assert Solid([d]) == [d] + Solid([]);
  }

  /** A native call over an open streamed tool leaves that tool behind: the next
      delta of it, or of another, is written to a block that is not open. */
  lemma NativeOverStreamedToolBreaks(codec: Codec, d: ToolDelta, index: int, name: string, arguments: string,
                                     e: ToolDelta, more: seq<Upstream>, end: Ending)
    requires d.json != "" && e.json != ""
    ensures
      var call := Native(false, true, index, name, arguments);
      var first, next := Answer(Unfed.(deltas := [d]), []), Answer(Unfed.(deltas := [e]), []);
      !Clean(codec, [first, call, next] + more, end)
  {
    hide Body, ShapeOf, AnswerStep;
    var call := Native(false, true, index, name, arguments);
    var first, next := Answer(Unfed.(deltas := [d]), []), Answer(Unfed.(deltas := [e]), []);
    StreamedTool(codec, d);
    var a := Dispatch(Init(codec), first);
    var b := Dispatch(a, call);
    assert Stale(b);
    assert Solid([e]) == [e] + Solid([]);
    assert Clashes(b, next) && RunClashes(b, [next] + more);
    var es := [first, call, next] + more;
    assert es[1..] == [call, next] + more && es[1..][1..] == [next] + more;
    assert RunClashes(a, es[1..]);
  }
}
