/** What the Anthropic stream carries: no visible character is lost or sent
    twice, and the JSON of every streamed tool call is what the handler
    believes it has sent. */
module AnthropicContent {
  import opened Common
  import opened ToolParser
  import opened AnthropicWire
  import opened AnthropicSpec
  import opened AnthropicShape

  // ---- Text and thinking ----------------------------------------------

  /** The parser's visible text only ever extends what it was before. */
  predicate Growing(sent: string, es: seq<Upstream>)
    decreases |es|
  {
    es != [] ==>
      if es[0].Answer? then sent <= es[0].parser.text && Growing(es[0].parser.text, es[1..])
      else Growing(sent, es[1..])
  }

  /** The parser's visible text after the last event. */
  function LastText(sent: string, es: seq<Upstream>): string
    decreases |es|
  {
    if es == [] then sent else LastText(if es[0].Answer? then es[0].parser.text else sent, es[1..])
  }

  /** After every answer the wire shows exactly the parser's visible text. */
  predicate InStep(s: Stream, es: seq<Upstream>)
    decreases |es|
  {
    es != [] ==>
      var t := Dispatch(s, es[0]);
      (es[0].Answer? ==> Body(t.wire, Text) == es[0].parser.text) && InStep(t, es[1..])
  }

  /** One event: the text sent stays the parser's text exactly when the parser
      extended it. */
  lemma DispatchText(s: Stream, sent: string, e: Upstream)
    requires Body(s.wire, Text) == sent && s.lastSafe == |sent|
    ensures
      var t := Dispatch(s, e);
      if e.Answer? then
        && (Body(t.wire, Text) == e.parser.text <==> sent <= e.parser.text)
        && (sent <= e.parser.text ==> t.lastSafe == |e.parser.text|)
      else Body(t.wire, Text) == sent && t.lastSafe == |sent|
  {
    hide Dispatch, Body;
    var t := Dispatch(s, e);
    if e.Answer? {
      var text := e.parser.text;
      assert Body(t.wire, Text) == sent + Grown(|sent|, text);
      GrownCompletes(sent, text);
    } else {
      assert sent + "" == sent;
    }
  }

  /** The client's text keeps up with the parser exactly when the parser's
      text only grows. */
  lemma {:induction false} TextKeepsUp(s: Stream, sent: string, es: seq<Upstream>)
    requires Body(s.wire, Text) == sent && s.lastSafe == |sent|
    ensures InStep(s, es) <==> Growing(sent, es)
    ensures Growing(sent, es) ==>
              var t := Events(s, es);
              Body(t.wire, Text) == LastText(sent, es) && t.lastSafe == |LastText(sent, es)|
    decreases |es|
  {
    hide Dispatch, Body;
    if es != [] {
      var e := es[0];
      DispatchText(s, sent, e);
      if !e.Answer? {
        TextKeepsUp(Dispatch(s, e), sent, es[1..]);
      } else if sent <= e.parser.text {
        TextKeepsUp(Dispatch(s, e), e.parser.text, es[1..]);
      }
    }
  }

  lemma NothingSaidYet(codec: Codec, k: Kind)
    ensures Body(Init(codec).wire, k) == ""
  {}

  /** A completed request shows exactly the final visible text, whatever
      thinking and tool calls came in between, if and only if the final text
      extends the last one. */
  lemma TextIsConserved(codec: Codec, es: seq<Upstream>, end: Ending)
    requires Growing("", es)
    ensures
      var final := if end.parser.hasCalls || end.finalText == "" then end.parser.text else end.finalText;
      Body(Run(codec, es, end).wire, Text) == final <==> LastText("", es) <= final
  {
    hide Events, Complete, PostStream, Body, Grown, Mark, Growing, LastText, InStep, ShapeOf;
    NothingSaidYet(codec, Text);
    TextKeepsUp(Init(codec), "", es);
    GrownCompletes(LastText("", es), FinalText(end));
  }

  /** The thinking the client should see: what the upstream thought, and in
      between what the parser found in the answer. */
  function ThinkingSaid(last: nat, es: seq<Upstream>): string
    decreases |es|
  {
    if es == [] then ""
    else
      match es[0]
      case ThinkingPart(content) => content + ThinkingSaid(last, es[1..])
      case Answer(p, _) => Grown(last, p.thinking) + ThinkingSaid(Mark(last, p.thinking), es[1..])
      case _ => ThinkingSaid(last, es[1..])
  }

  lemma SaidStep(last: nat, s: Stream, es: seq<Upstream>)
    requires es != [] && last == s.lastThinking
    ensures ThinkingSaid(last, es)
            == ThinkingGain(s, es[0]) + ThinkingSaid(Dispatch(s, es[0]).lastThinking, es[1..])
  {
    hide Dispatch, Body, ShapeOf, Grown, Mark;
  }

  lemma {:induction false} EventsThinking(s: Stream, es: seq<Upstream>)
    ensures Body(Events(s, es).wire, Thinking) == Body(s.wire, Thinking) + ThinkingSaid(s.lastThinking, es)
    decreases |es|
  {
    hide Dispatch, Body, ShapeOf, Grown, Mark, ThinkingGain;
    if es != [] {
      hide ThinkingSaid;
      SaidStep(s.lastThinking, s, es);
      EventsThinking(Dispatch(s, es[0]), es[1..]);
    }
  }

  /** A completed request shows the thinking in the order it happened. */
  lemma {:induction false} EventsSnoc(s: Stream, es: seq<Upstream>, e: Upstream)
    ensures Events(s, es + [e]) == Dispatch(Events(s, es), e)
    decreases |es|
  {
    hide Dispatch, Body, ShapeOf, Keeps, Carries;
    if es == [] {
      assert es + [e] == [e] && [e][1..] == [];
      assert Events(s, [e]) == Events(Dispatch(s, e), []);
    } else {
      assert (es + [e])[1..] == es[1..] + [e];
      EventsSnoc(Dispatch(s, es[0]), es[1..], e);
    }
  }

  /** If nothing follows some thinking, the client still gets a text block, with
      one empty text. */
  lemma ThinkingAloneGetsText(codec: Codec, es: seq<Upstream>, content: string, end: Ending)
    requires content != "" && Silent(end) && !end.parser.hasCalls
    requires !RunClashes(Init(codec), es + [ThinkingPart(content)])
    ensures
      var a := Events(Init(codec), es + [ThinkingPart(content)]);
      a.wire + [Stop(a.blockIdx), Start(a.blockIdx + 1, Text, ""), Delta(a.blockIdx + 1, Text, "")]
      <= Run(codec, es + [ThinkingPart(content)], end).wire
  {
    hide Body, ShapeOf, Events, RunClashes, SendThinking, Complete, PostStream;
    var all := es + [ThinkingPart(content)];
    var a := Events(Init(codec), all);
    InitIsCoherent(codec);
    EventsShape(Init(codec), all);
    EventsSnoc(Init(codec), es, ThinkingPart(content));
    ThinkingLeavesText(a, end);
  }

  lemma ThinkingLeavesText(s: Stream, end: Ending)
    requires s.blockType == ThinkingBlock && s.tool.None? && s.blockIdx >= 0
    requires Silent(end) && !end.parser.hasCalls
    ensures
      s.wire + [Stop(s.blockIdx), Start(s.blockIdx + 1, Text, ""), Delta(s.blockIdx + 1, Text, "")]
      <= Complete(s, end).wire
  {
    hide Body, ShapeOf, FinalizeTools, CloseNative, Reconcile, EnsureStart, Finish, GrownText, SendThinking;
    var i := s.blockIdx;
    var b := s.(parser := end.parser, allCalls := end.calls);
    var a := b.(wire := s.wire + [Stop(i)] + [Start(i + 1, Text, "")] + [Delta(i + 1, Text, "")]);
    assert Leftovers(b, FinalText(end)).wire == a.wire;
    assert a.wire == s.wire + [Stop(i), Start(i + 1, Text, ""), Delta(i + 1, Text, "")];
  }

  lemma ThinkingIsConserved(codec: Codec, es: seq<Upstream>, end: Ending)
    ensures
      var last := Events(Init(codec), es).lastThinking;
      Body(Run(codec, es, end).wire, Thinking) == ThinkingSaid(0, es) + Grown(last, end.parser.thinking)
  {
    hide Events, Complete, PostStream, Grown, Body, ShapeOf, ThinkingSaid;
    NothingSaidYet(codec, Thinking);
    EventsThinking(Init(codec), es);
  }

  // ---- Streamed tool JSON ---------------------------------------------

  /** The open tool's JSON is what its block carries on the wire, and no block
      that has not been opened yet carries anything. */
  ghost predicate Faithful(s: Stream) {
    && -1 <= s.blockIdx
    && (s.tool.Some? ==>
          var tool := s.tool.value;
          && 0 <= tool.blockIdx <= s.blockIdx
          && (s.blockType == NativeTool ==> tool.blockIdx < s.blockIdx)
          && BlockBody(s.wire, tool.blockIdx) == tool.jsonBuf)
    && forall j :: j > s.blockIdx ==> BlockBody(s.wire, j) == ""
  }

  /** Nothing is added to any block but `i`. */
  ghost predicate Only(a: seq<Event>, b: seq<Event>, i: int) {
    forall j :: j != i ==> BlockBody(b, j) == BlockBody(a, j)
  }

  lemma {:induction false} DeltasBlockBody(i: int, k: Kind, bodies: seq<string>, j: int)
    ensures BlockBody(Deltas(i, k, bodies), j) == if j == i then Concat(bodies) else ""
  {
    if bodies != [] {
      assert Deltas(i, k, bodies)[1..] == Deltas(i, k, bodies[1..]);
      DeltasBlockBody(i, k, bodies[1..], j);
    }
  }

  lemma PutBlockBody(s: Stream, e: Event, j: int)
    ensures BlockBody(Put(s, e).wire, j)
            == BlockBody(s.wire, j) + if e.Delta? && e.index == j then e.body else ""
  {
    BlockBodyAppend(s.wire, [e], j);
    assert [e][1..] == [];
  }

  lemma {:induction false} BlockEventsBody(i: int, b: Block, j: int)
    requires j != i
    ensures BlockBody(BlockEvents(i, b), j) == ""
  {
    var head, last := [Start(i, b.kind, b.name)], [Stop(i)];
    BlockBodyAppend(head + Deltas(i, b.kind, b.bodies), last, j);
    BlockBodyAppend(head, Deltas(i, b.kind, b.bodies), j);
    DeltasBlockBody(i, b.kind, b.bodies, j);
    assert head[1..] == [] && last[1..] == [];
  }

  /** JSON is sent as pieces of at most 20 characters for the tool's own block
      that glue together to exactly what was asked for. */
  lemma PiecesBody(s: Stream, json: string)
    requires s.tool.Some?
    ensures
      var t, i := EmitPieces(s, json), s.tool.value.blockIdx;
      && BlockBody(t.wire, i) == BlockBody(s.wire, i) + json
      && Only(s.wire, t.wire, i)
      && forall k :: |s.wire| <= k < |t.wire| ==>
           t.wire[k].Delta? && t.wire[k].index == i && 0 < |t.wire[k].body| <= STREAM_CHUNK_SIZE
  {
    var i, pieces := s.tool.value.blockIdx, Chunks(json);
    var es := Deltas(i, Tool, pieces);
    forall j ensures BlockBody(s.wire + es, j) == BlockBody(s.wire, j) + if j == i then json else "" {
      BlockBodyAppend(s.wire, es, j);
      DeltasBlockBody(i, Tool, pieces, j);
    }
    forall k | 0 <= k < |es| ensures es[k] == Delta(i, Tool, pieces[k]) { DeltaAt(i, Tool, pieces, k); }
  }

  lemma {:induction false} DeltaAt(i: int, k: Kind, bodies: seq<string>, n: nat)
    requires n < |bodies|
    ensures Deltas(i, k, bodies)[n] == Delta(i, k, bodies[n])
  {
    if n > 0 { DeltaAt(i, k, bodies[1..], n - 1); }
  }

  lemma {:induction false} DrainBody(s: Stream)
    requires s.tool.Some?
    ensures
      var t, i := Drain(s), s.tool.value.blockIdx;
      && BlockBody(t.wire, i) == BlockBody(s.wire, i) + Json(Solid(s.parser.deltas))
      && Only(s.wire, t.wire, i)
    decreases |s.parser.deltas|
  {
    hide Body, ShapeOf, EmitPieces, Consume, BlockBody;
    var (d, p) := Consume(s.parser);
    if d.Some? {
      var a := EmitPieces(s.(parser := p), d.value.json);
      PiecesBody(s.(parser := p), d.value.json);
      DrainBody(a);
      assert Solid(s.parser.deltas)[1..] == Solid(p.deltas);
    }
  }

  lemma CompletedBody(s: Stream, expected: Option<string>)
    requires s.tool.Some? && BlockBody(s.wire, s.tool.value.blockIdx) == s.tool.value.jsonBuf
    ensures
      var t, i := Completed(s, expected), s.tool.value.blockIdx;
      BlockBody(t.wire, i) == t.tool.value.jsonBuf && Only(s.wire, t.wire, i)
  {
    hide Body, ShapeOf, EmitPieces, Drain, Missing, FinalJson, BlockBody;
    DrainBody(s);
    var a := Drain(s);
    PiecesBody(a.(parser := FinalJson(a.parser).1), FinalJson(a.parser).0);
    var b := EmitFinal(a);
    if expected.Some? { PiecesBody(b, Missing(b.codec, b.tool.value.jsonBuf, expected.value)); }
  }

  /** Completing a tool's JSON against the arguments it should end with: the
      block ends up agreeing with them, as text or as JSON, exactly when what
      had been streamed was a beginning of them or already agreed. */
  lemma CompletionAgrees(s: Stream, expected: string)
    requires Faithful(s) && s.tool.Some? && expected != ""
    ensures
      var t, i := Flush(s, Some(expected)), s.tool.value.blockIdx;
      var buf := s.tool.value.jsonBuf + Json(Solid(s.parser.deltas))
                 + FinalJson(s.parser.(deltas := [])).0;
      var sent := BlockBody(t.wire, i);
      && (sent == expected || JsonEqual(s.codec, sent, expected)
          <==> buf <= expected || JsonEqual(s.codec, buf, expected))
      && buf <= sent
  {
    hide Body, ShapeOf, EmitPieces, Drain, BlockBody, Flush, JsonEqual;
    var i := s.tool.value.blockIdx;
    CompletedBody(s, Some(expected));
    var a := Completed(s, Some(expected));
    FlushBody(s, Some(expected));
    var buf := EmitFinal(Drain(s)).tool.value.jsonBuf;
    var tail := Missing(s.codec, buf, expected);
    assert a.tool.value.jsonBuf == buf + tail by { if tail == "" { assert buf + "" == buf; } }
  }

  lemma FlushBody(s: Stream, expected: Option<string>)
    requires s.tool.Some?
    ensures forall j :: BlockBody(Flush(s, expected).wire, j) == BlockBody(Completed(s, expected).wire, j)
  {
    hide Body, ShapeOf, Completed, BlockBody;
    var a := Completed(s, expected);
    forall j ensures BlockBody(Flush(s, expected).wire, j) == BlockBody(a.wire, j) {
      PutBlockBody(a, Stop(a.tool.value.blockIdx), j);
    }
  }

  lemma QuietPut(s: Stream, e: Event)
    requires !e.Delta?
    ensures forall j :: BlockBody(Put(s, e).wire, j) == BlockBody(s.wire, j)
  {
    hide Body, ShapeOf, BlockBody;
    forall j ensures BlockBody(Put(s, e).wire, j) == BlockBody(s.wire, j) { PutBlockBody(s, e, j); }
  }

  lemma DeltaPut(s: Stream, k: Kind, body: string)
    ensures Only(s.wire, Put(s, Delta(s.blockIdx, k, body)).wire, s.blockIdx)
  {
    hide Body, ShapeOf, BlockBody;
    var e := Delta(s.blockIdx, k, body);
    forall j ensures j != s.blockIdx ==> BlockBody(Put(s, e).wire, j) == BlockBody(s.wire, j) {
      PutBlockBody(s, e, j);
    }
  }

  lemma CloseFaithful(s: Stream)
    requires Faithful(s)
    ensures Faithful(CloseBlock(s))
  {
    hide Body, ShapeOf, BlockBody;
    QuietPut(s, Stop(s.blockIdx));
  }

  lemma OpenFaithful(s: Stream, bt: BlockType, k: Kind, name: string)
    requires Faithful(s)
    ensures Faithful(OpenBlock(s, bt, k, name))
    ensures BlockBody(OpenBlock(s, bt, k, name).wire, s.blockIdx + 1) == ""
  {
    hide Body, ShapeOf, BlockBody;
    QuietPut(s.(blockIdx := s.blockIdx + 1), Start(s.blockIdx + 1, k, name));
  }

  lemma FlushFaithful(s: Stream, expected: Option<string>)
    requires Faithful(s) && s.tool.Some?
    ensures Faithful(Flush(s, expected)) && Faithful(Flush(s, expected).(tool := None))
    ensures Faithful(Finish(s, expected))
  {
    hide Body, ShapeOf, BlockBody, Completed;
    CompletedBody(s, expected);
    FlushBody(s, expected);
  }

  lemma ApplyDeltaFaithful(s: Stream, d: ToolDelta)
    requires Faithful(s)
    ensures Faithful(ApplyDelta(s, d))
  {
    hide Body, ShapeOf, BlockBody, Flush, EmitPieces, CloseBlock, OpenBlock;
    CloseFaithful(s);
    var a := CloseOther(s);
    if a.tool.Some? { FlushFaithful(a, None); }
    var b := LeaveTool(a, d.name);
    OpenFaithful(b, ToolUse, Tool, d.name);
    var c := EnterTool(b, d.name);
    PiecesBody(c, d.json);
  }

  lemma {:induction false} StreamDeltasFaithful(s: Stream)
    requires Faithful(s)
    ensures Faithful(StreamDeltas(s))
    decreases |s.parser.deltas|
  {
    hide Body, ShapeOf, ApplyDelta, Consume, BlockBody;
    var (d, p) := Consume(s.parser);
    if d.Some? {
      ApplyDeltaFaithful(s.(parser := p), d.value);
      StreamDeltasFaithful(ApplyDelta(s.(parser := p), d.value));
    }
  }

  lemma SendThinkingFaithful(s: Stream, content: string)
    requires Faithful(s)
    ensures Faithful(SendThinking(s, content))
  {
    hide Body, ShapeOf, BlockBody, Finish, CloseBlock, OpenBlock;
    if s.tool.Some? { FlushFaithful(s, None); } else { CloseFaithful(s); }
    var a := LeaveForThinking(s);
    CloseFaithful(a);
    OpenFaithful(if a.blockType != NoBlock then CloseBlock(a) else a, ThinkingBlock, Thinking, "");
    DeltaPut(EnterThinking(a), Thinking, content);
  }

  lemma TextDeltaFaithful(s: Stream, text: string)
    requires Faithful(s) && s.tool.None?
    ensures Faithful(TextDelta(s, text))
  {
    hide Body, ShapeOf, BlockBody, CloseBlock, OpenBlock;
    CloseFaithful(s);
    var a := if s.blockType == ThinkingBlock then CloseBlock(s) else s;
    OpenFaithful(a, TextBlock, Text, "");
    DeltaPut(if s.blockType == TextBlock then s else OpenBlock(a, TextBlock, Text, ""), Text, text);
  }

  lemma GrownTextFaithful(s: Stream, current: string)
    requires Faithful(s)
    ensures Faithful(GrownText(s, current))
  {
    hide Body, ShapeOf, BlockBody, Finish, TextDelta;
    var a := s.(lastSafe := Mark(s.lastSafe, current));
    if a.tool.Some? { FlushFaithful(a, None); }
    TextDeltaFaithful(if a.tool.Some? then Finish(a, None) else a, Grown(s.lastSafe, current));
  }

  lemma NextBlockFaithful(s: Stream, call: ToolCall)
    requires Faithful(s) && s.tool.None?
    ensures
      var es := BlockEvents(s.blockIdx + 1, CallBlock(s.codec, call));
      Faithful(s.(blockIdx := s.blockIdx + 1, wire := s.wire + es))
  {
    hide Body, ShapeOf, BlockBody, BlockEvents, CallBlock;
    var b, i := CallBlock(s.codec, call), s.blockIdx + 1;
    forall j | j > i ensures BlockBody(s.wire + BlockEvents(i, b), j) == "" {
      BlockBodyAppend(s.wire, BlockEvents(i, b), j);
      BlockEventsBody(i, b, j);
    }
  }

  lemma {:induction false} ToolBlocksFaithful(s: Stream, calls: seq<ToolCall>)
    requires Faithful(s) && s.tool.None?
    ensures Faithful(ToolBlocks(s, calls))
    decreases |calls|
  {
    if calls != [] {
      hide *;
      NextBlockFaithful(s, calls[0]);
      ToolBlocksCons(s, calls);
      var es := BlockEvents(s.blockIdx + 1, CallBlock(s.codec, calls[0]));
      ToolBlocksFaithful(s.(blockIdx := s.blockIdx + 1, wire := s.wire + es), calls[1..]);
    }
  }

  lemma EmitReadyFaithful(s: Stream, ready: seq<ToolCall>)
    requires Faithful(s) && s.tool.None?
    ensures Faithful(EmitReady(s, ready))
  {
    hide Body, ShapeOf, BlockBody, ToolBlocks, CloseBlock;
    CloseFaithful(s);
    ToolBlocksFaithful(if s.blockType != NoBlock then CloseBlock(s) else s, ready);
  }

  lemma HandleReadyFaithful(s: Stream, ready: seq<ToolCall>)
    requires Faithful(s)
    ensures Faithful(HandleReady(s, ready))
  {
    hide Body, ShapeOf, BlockBody, Finish, EmitReady, ExpectedArguments;
    var a := s.(streamed := s.streamed + ready);
    if a.tool.Some? {
      FlushFaithful(a, ExpectedArguments(ready, a.tool.value.name));
    } else {
      EmitReadyFaithful(a, ready);
    }
  }

  lemma AnswerFaithful(s: Stream, p: Parser, ready: seq<ToolCall>)
    requires Faithful(s)
    ensures Faithful(AnswerStep(s, p, ready))
  {
    hide Body, ShapeOf, BlockBody, StreamDeltas, SendThinking, GrownText, HandleReady, Grown;
    StreamDeltasFaithful(s.(parser := p));
    var b := StreamTools(s.(parser := p));
    SendThinkingFaithful(b.(lastThinking := Mark(b.lastThinking, b.parser.thinking)),
                         Grown(b.lastThinking, b.parser.thinking));
    var c := PartialThinking(b);
    GrownTextFaithful(c, p.text);
    HandleReadyFaithful(GrownText(c, p.text), ready);
  }

  lemma NativeFaithful(s: Stream, hasId: bool, name: string, arguments: string)
    requires Faithful(s)
    ensures Faithful(NativeStep(s, hasId, name, arguments))
  {
    hide Body, ShapeOf, BlockBody, CloseBlock, OpenBlock;
    CloseFaithful(s);
    var a := if s.blockType != NoBlock then CloseBlock(s) else s;
    OpenFaithful(a, NativeTool, Tool, name);
    var b := if hasId then OpenBlock(a, NativeTool, Tool, name).(pending := s.pending + 1) else s;
    DeltaPut(b, Tool, arguments);
  }

  lemma DispatchFaithful(s: Stream, e: Upstream)
    requires Faithful(s)
    ensures Faithful(Dispatch(s, e))
  {
    hide Body, ShapeOf, BlockBody, SendThinking, AnswerStep, NativeStep;
    QuietPut(s, MessageStart);
    var a := if Announces(e) then EnsureStart(s) else s;
    match e
    case ThinkingPart(content) => SendThinkingFaithful(a, content);
    case Answer(p, ready) => AnswerFaithful(a, p, ready);
    case Native(_, hasId, _, name, arguments) => NativeFaithful(a, hasId, name, arguments);
    case _ =>
  }

  /** In every reachable state, clean or not, the JSON the handler believes it
      has sent for the open tool is what the tool's block carries. */
  lemma {:induction false} EventsFaithful(s: Stream, es: seq<Upstream>)
    requires Faithful(s)
    ensures Faithful(Events(s, es))
    decreases |es|
  {
    hide Body, ShapeOf, Dispatch, BlockBody;
    if es != [] {
      DispatchFaithful(s, es[0]);
      EventsFaithful(Dispatch(s, es[0]), es[1..]);
    }
  }

  // ---- Which tool a delta reaches --------------------------------------

  lemma SameNameDelta(s: Stream, d: ToolDelta)
    requires s.tool.Some? && s.tool.value.name == d.name && s.blockType == ToolUse
    ensures ApplyDelta(s, d) == EmitPieces(s, d.json)
  {
    hide Body, ShapeOf, EmitPieces, Flush;
  }

  /** As long as the parser keeps to one name, its deltas are glued together in
      that tool's block. */
  lemma {:induction false} OneNameOneBlock(s: Stream, name: string)
    requires s.tool.Some? && s.tool.value.name == name && s.blockType == ToolUse
    requires forall d :: d in Solid(s.parser.deltas) ==> d.name == name
    ensures StreamDeltas(s).tool
            == Some(s.tool.value.(jsonBuf := s.tool.value.jsonBuf + Json(Solid(s.parser.deltas))))
    decreases |s.parser.deltas|
  {
    hide Body, ShapeOf, Consume, EmitPieces, ApplyDelta, Solid;
    var (d, p) := Consume(s.parser);
    var buf := s.tool.value.jsonBuf;
    if d.None? {
      NoneSolid();
      assert Solid(s.parser.deltas) == [];
      assert buf + "" == buf;
    } else {
      var rest := Solid(p.deltas);
      assert Solid(s.parser.deltas) == [d.value] + rest;
      assert d.value in [d.value] + rest && forall e :: e in rest ==> e in [d.value] + rest;
      SameNameDelta(s.(parser := p), d.value);
      OneNameOneBlock(EmitPieces(s.(parser := p), d.value.json), name);
      assert ([d.value] + rest)[1..] == rest;
      assert buf + (d.value.json + Json(rest)) == (buf + d.value.json) + Json(rest);
    }
  }

  /** When a delta brings a new name while others are queued behind it, the old
      tool is completed with everything queued: only the first delta of the
      new name reaches the new block. */
  lemma NameChangeDrainsQueue(s: Stream, d: ToolDelta, rest: seq<ToolDelta>)
    requires Faithful(s) && s.tool.Some? && s.blockType == ToolUse
    requires Solid(s.parser.deltas) == [d] + rest && d.name != s.tool.value.name
    ensures
      var t, left := StreamDeltas(s), s.tool.value;
      && t.tool == Some(StreamTool(s.blockIdx + 1, d.name, d.json))
      && BlockBody(t.wire, left.blockIdx)
         == left.jsonBuf + Json(rest) + FinalJson(s.parser.(deltas := [])).0
  {
    hide Body, ShapeOf, Consume, ApplyDelta, Solid, BlockBody, Json, FinalJson;
    FirstSolid(s.parser, d, rest);
    var a := s.(parser := Consume(s.parser).1);
    SwitchBody(a, d);
    var b := ApplyDelta(a, d);
    assert Solid([]) == [] by { NoneSolid(); }
    assert StreamDeltas(b) == b.(parser := b.parser.(deltas := []));
  }

  lemma NoneSolid()
    ensures Solid([]) == []
  {}

  lemma FirstSolid(p: Parser, d: ToolDelta, rest: seq<ToolDelta>)
    requires Solid(p.deltas) == [d] + rest
    ensures Consume(p).0 == Some(d) && Solid(Consume(p).1.deltas) == rest
  {
    hide Consume, Solid;
    var (c, q) := Consume(p);
    assert ([d] + rest)[0] == d && ([d] + rest)[1..] == rest;
    assert c.Some? ==> [c.value] + Solid(q.deltas) == [d] + rest;
    if c.Some? {
      assert ([c.value] + Solid(q.deltas))[0] == c.value && ([c.value] + Solid(q.deltas))[1..] == Solid(q.deltas);
    } else {
      assert ([] + Solid(q.deltas)) == Solid(q.deltas);
      NoneSolid();
    }
  }

  lemma SwitchBody(s: Stream, d: ToolDelta)
    requires Faithful(s) && s.tool.Some? && s.blockType == ToolUse && d.name != s.tool.value.name
    ensures
      var t, left := ApplyDelta(s, d), s.tool.value;
      && t.tool == Some(StreamTool(s.blockIdx + 1, d.name, d.json))
      && t.parser.deltas == []
      && BlockBody(t.wire, left.blockIdx)
         == left.jsonBuf + Json(Solid(s.parser.deltas)) + FinalJson(s.parser.(deltas := [])).0
  {
    hide Body, ShapeOf, EmitPieces, BlockBody, Drain, FinalJson, Json, Solid;
    CompletedBody(s, None);
    FlushBody(s, None);
    var b := LeaveTool(s, d.name);
    QuietPut(b.(blockIdx := b.blockIdx + 1), Start(b.blockIdx + 1, Tool, d.name));
    PiecesBody(EnterTool(b, d.name), d.json);
    assert "" + d.json == d.json;
  }

  /** The queued deltas of one name. */
  function Of(name: string, ds: seq<ToolDelta>): seq<ToolDelta> {
    if ds == [] then [] else (if ds[0].name == name then [ds[0]] else []) + Of(name, ds[1..])
  }

  lemma {:induction false} OfSolid(name: string, ds: seq<ToolDelta>)
    requires forall d :: d in ds ==> d.json != ""
    ensures Json(Of(name, ds)) == "" <==> Of(name, ds) == []
  {
    if ds != [] {
      OfSolid(name, ds[1..]);
      if ds[0].name == name {
        assert Of(name, ds) == [ds[0]] + Of(name, ds[1..]);
        assert |Json(Of(name, ds))| >= |ds[0].json|;
      } else {
        assert Of(name, ds) == Of(name, ds[1..]);
      }
    }
  }

  lemma {:induction false} SolidHasJson(ds: seq<ToolDelta>)
    ensures forall d :: d in Solid(ds) ==> d.json != ""
  {
    if ds != [] { SolidHasJson(ds[1..]); }
  }

  /** A new tool receives all JSON queued under its name exactly when nothing
      more of that name was queued behind the delta that introduced it. */
  lemma NewToolGetsItsJson(s: Stream, d: ToolDelta, rest: seq<ToolDelta>)
    requires Faithful(s) && s.tool.Some? && s.blockType == ToolUse
    requires Solid(s.parser.deltas) == [d] + rest && d.name != s.tool.value.name
    ensures StreamDeltas(s).tool.Some?
    ensures StreamDeltas(s).tool.value.jsonBuf == d.json + Json(Of(d.name, rest)) <==> Of(d.name, rest) == []
  {
    hide Body, ShapeOf, StreamDeltas, Faithful;
    NameChangeDrainsQueue(s, d, rest);
    SolidHasJson(s.parser.deltas);
    assert forall e :: e in rest ==> e in [d] + rest;
    OfSolid(d.name, rest);
    if Json(Of(d.name, rest)) != "" {
      assert |d.json + Json(Of(d.name, rest))| > |d.json|;
    } else {
      assert d.json + "" == d.json;
    }
  }
}
