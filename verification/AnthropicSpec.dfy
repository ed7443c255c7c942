/** What the Anthropic stream handler does on a connection that never fails,
    as functions from the handler's state to its next state. The methods of
    `AnthropicStream` are proved against these functions; what the handler
    promises is proved about them in `AnthropicShape`, `AnthropicContent`,
    `AnthropicTalk` and `AnthropicNative`. */
module AnthropicSpec {
  import opened Common
  import opened ToolParser
  import opened AnthropicWire

  datatype BlockType = NoBlock | TextBlock | ThinkingBlock | ToolUse | NativeTool

  /** The tool_use block that is open for streamed JSON. */
  datatype StreamTool = StreamTool(blockIdx: int, name: string, jsonBuf: string)

  /** JSON as the handler uses it: `loads` decodes a text (None when it is not
      JSON), `render` prints the input object of a call's arguments. */
  datatype Codec = Codec(loads: string -> Option<string>, render: string -> string)

  datatype Stream = Stream(
    codec: Codec,
    blockIdx: int,
    blockType: BlockType,
    tool: Option<StreamTool>,
    lastSafe: nat,
    lastThinking: nat,
    pending: nat,
    streamed: seq<ToolCall>,
    blocksSent: nat,
    started: bool,
    allCalls: seq<ToolCall>,
    parser: Parser,
    wire: seq<Event>)

  function Init(codec: Codec): Stream {
    Stream(codec, -1, NoBlock, None, 0, 0, 0, [], 0, false, [], Unfed, [])
  }

  /** Upstream events. `usage` tells whether the event carries token usage. The
      `index` of a native delta says which of the upstream's calls it is for; the
      handler does not look at it. */
  datatype Upstream =
    | PromptMeta
    | ResponseCreated
    | ThinkingPart(content: string)
    | Answer(parser: Parser, ready: seq<ToolCall>)
    | Native(usage: bool, hasId: bool, index: int, name: string, arguments: string)
    | Other(usage: bool)

  /** What the parser says when it is finalized. */
  datatype Ending = Ending(parser: Parser, finalText: string, calls: seq<ToolCall>)

  /** `t` follows `s` on the wire and adds exactly this text and thinking. */
  ghost predicate Carries(s: Stream, t: Stream, text: string, thinking: string) {
    && t.codec == s.codec
    && s.wire <= t.wire
    && Body(t.wire, Text) == Body(s.wire, Text) + text
    && Body(t.wire, Thinking) == Body(s.wire, Thinking) + thinking
  }

  /** `t` follows `s` on the wire without adding text or thinking. */
  ghost predicate Quiet(s: Stream, t: Stream) {
    && t.codec == s.codec
    && s.wire <= t.wire
    && Body(t.wire, Text) == Body(s.wire, Text)
    && Body(t.wire, Thinking) == Body(s.wire, Thinking)
  }

  lemma QuietCarries(s: Stream, t: Stream)
    requires Quiet(s, t)
    ensures Carries(s, t, "", "")
  {}

  /** No tool is open beside a text or thinking block. */
  predicate Apart(s: Stream) {
    s.tool.Some? ==> s.blockType != TextBlock && s.blockType != ThinkingBlock
  }

  predicate Keeps(s: Stream, t: Stream) {
    (Apart(s) ==> Apart(t)) && (s.started ==> t.started)
  }

  /** No native tool block is open. */
  predicate Entml(s: Stream) { s.blockType != NativeTool }

  function TextIn(e: Event): string { if e.Delta? && e.kind == Text then e.body else "" }

  function ThinkingIn(e: Event): string { if e.Delta? && e.kind == Thinking then e.body else "" }

  // ---- Writing ---------------------------------------------------------

  function Put(s: Stream, e: Event): (t: Stream)
    ensures Carries(s, t, TextIn(e), ThinkingIn(e))
    ensures ShapeOf(t.wire) == Next(ShapeOf(s.wire), e)
    ensures t == s.(wire := t.wire)
  {
    BodyAppend(s.wire, [e], Text);
    BodyAppend(s.wire, [e], Thinking);
    AdvanceAppend(Fresh, s.wire, [e]);
    assert [e][1..] == [];
    s.(wire := s.wire + [e])
  }

  function EnsureStart(s: Stream): (t: Stream)
    ensures Quiet(s, t)
    ensures t == s.(started := true, wire := t.wire)
  {
    if s.started then s else Put(s, MessageStart).(started := true)
  }

  function CloseBlock(s: Stream): (t: Stream)
    ensures Quiet(s, t)
    ensures t == s.(wire := t.wire, blockType := NoBlock)
  {
    (if s.blockIdx >= 0 then Put(s, Stop(s.blockIdx)) else s).(blockType := NoBlock)
  }

  function OpenBlock(s: Stream, bt: BlockType, k: Kind, name: string): (t: Stream)
    ensures Quiet(s, t)
    ensures t == s.(blockIdx := s.blockIdx + 1, blockType := bt, wire := t.wire)
  {
    Put(s.(blockIdx := s.blockIdx + 1), Start(s.blockIdx + 1, k, name)).(blockType := bt)
  }

  // ---- Streamed tool JSON ---------------------------------------------

  lemma {:induction false} DeltasBody(i: int, bodies: seq<string>, k: Kind)
    requires k != Tool
    ensures Body(Deltas(i, Tool, bodies), k) == ""
  {
    if bodies != [] {
      assert Deltas(i, Tool, bodies)[1..] == Deltas(i, Tool, bodies[1..]);
      DeltasBody(i, bodies[1..], k);
    }
  }

  function EmitPieces(s: Stream, json: string): (t: Stream)
    requires s.tool.Some?
    ensures Quiet(s, t)
    ensures t == s.(tool := t.tool, wire := t.wire)
    ensures t.tool == Some(s.tool.value.(jsonBuf := s.tool.value.jsonBuf + json))
  {
    var tool := s.tool.value;
    var es := Deltas(tool.blockIdx, Tool, Chunks(json));
    DeltasBody(tool.blockIdx, Chunks(json), Text);
    DeltasBody(tool.blockIdx, Chunks(json), Thinking);
    BodyAppend(s.wire, es, Text);
    BodyAppend(s.wire, es, Thinking);
    s.(tool := Some(tool.(jsonBuf := tool.jsonBuf + json)), wire := s.wire + es)
  }

  /** Everything queued goes into the open tool, whatever name it carries. */
  function Drain(s: Stream): (t: Stream)
    requires s.tool.Some?
    ensures Quiet(s, t)
    ensures t == s.(tool := t.tool, wire := t.wire, parser := s.parser.(deltas := []))
    ensures t.tool == Some(s.tool.value.(jsonBuf := s.tool.value.jsonBuf + Json(Solid(s.parser.deltas))))
    decreases |s.parser.deltas|
  {
    hide EmitPieces, Consume;
    var (d, p) := Consume(s.parser);
    var buf := s.tool.value.jsonBuf;
    if d.None? then
      assert buf + "" == buf;
      s.(parser := p)
    else
      var rest := Json(Solid(p.deltas));
      assert Solid(s.parser.deltas)[1..] == Solid(p.deltas);
      assert (buf + d.value.json) + rest == buf + (d.value.json + rest);
      Drain(EmitPieces(s.(parser := p), d.value.json))
  }

  function EmitFinal(s: Stream): (t: Stream)
    requires s.tool.Some?
    ensures Quiet(s, t)
    ensures t == s.(tool := t.tool, wire := t.wire, parser := FinalJson(s.parser).1)
    ensures t.tool == Some(s.tool.value.(jsonBuf := s.tool.value.jsonBuf + FinalJson(s.parser).0))
  {
    var (json, p) := FinalJson(s.parser);
    assert s.tool.value.jsonBuf + "" == s.tool.value.jsonBuf;
    if json == "" then s.(parser := p) else EmitPieces(s.(parser := p), json)
  }

  predicate JsonEqual(c: Codec, l: string, r: string) {
    l == r || (c.loads(l).Some? && c.loads(l) == c.loads(r))
  }

  /** What is still missing from `buf` to reach the expected arguments; nothing
      when they already agree or when `buf` cannot be extended to them. */
  function Missing(c: Codec, buf: string, expected: string): (tail: string)
    ensures (buf + tail == expected || JsonEqual(c, buf + tail, expected))
            <==> (buf <= expected || JsonEqual(c, buf, expected))
    ensures tail != "" ==> buf + tail == expected
  {
    assert buf + "" == buf;
    if JsonEqual(c, buf, expected) then ""
    else if buf <= expected && |expected| > |buf| then expected[|buf|..]
    else ""
  }

  function Sync(s: Stream, expected: string): (t: Stream)
    requires s.tool.Some?
    ensures Quiet(s, t)
    ensures t == s.(tool := t.tool, wire := t.wire)
    ensures t.tool.Some? && t.tool.value == s.tool.value.(jsonBuf := t.tool.value.jsonBuf)
  {
    var tail := Missing(s.codec, s.tool.value.jsonBuf, expected);
    if tail == "" then s else EmitPieces(s, tail)
  }

  /** The open tool's JSON once it has been completed, before its block stops. */
  function Completed(s: Stream, expected: Option<string>): (t: Stream)
    requires s.tool.Some?
    ensures Quiet(s, t)
    ensures t == s.(tool := t.tool, wire := t.wire, parser := t.parser)
    ensures t.tool.Some? && t.tool.value == s.tool.value.(jsonBuf := t.tool.value.jsonBuf)
    ensures t.parser.deltas == [] && t.parser.text == s.parser.text
    ensures t.parser.thinking == s.parser.thinking && t.parser.ready == s.parser.ready
    ensures t.parser.hasCalls == s.parser.hasCalls
  {
    var a := EmitFinal(Drain(s));
    if expected.Some? && expected.value != "" then Sync(a, expected.value) else a
  }

  /** Completes the open tool's JSON and stops its block. */
  function Flush(s: Stream, expected: Option<string>): (t: Stream)
    requires s.tool.Some?
    ensures Quiet(s, t)
    ensures t == s.(tool := t.tool, wire := t.wire, parser := t.parser)
    ensures t.parser.deltas == [] && t.parser.text == s.parser.text
    ensures t.parser.thinking == s.parser.thinking && t.parser.ready == s.parser.ready
    ensures t.parser.hasCalls == s.parser.hasCalls
  {
    var a := Completed(s, expected);
    Put(a, Stop(a.tool.value.blockIdx))
  }

  function Finish(s: Stream, expected: Option<string>): (t: Stream)
    requires s.tool.Some?
    ensures Quiet(s, t)
    ensures t == s.(tool := None, blockType := NoBlock, wire := t.wire, parser := t.parser)
    ensures t.parser.deltas == [] && t.parser.text == s.parser.text
    ensures t.parser.thinking == s.parser.thinking && t.parser.ready == s.parser.ready
    ensures t.parser.hasCalls == s.parser.hasCalls
  {
    Flush(s, expected).(tool := None, blockType := NoBlock)
  }

  /** Closes a block that is not a tool_use block. */
  function CloseOther(s: Stream): (t: Stream)
    ensures Quiet(s, t)
    ensures t == s.(blockType := t.blockType, wire := t.wire)
  {
    if s.blockType != NoBlock && s.blockType != ToolUse then CloseBlock(s) else s
  }

  /** Completes the open tool if it has another name. Its block type is kept. */
  function LeaveTool(s: Stream, name: string): (t: Stream)
    ensures Quiet(s, t)
    ensures t == s.(tool := t.tool, wire := t.wire, parser := t.parser)
    ensures |t.parser.deltas| <= |s.parser.deltas| && t.parser.text == s.parser.text
    ensures t.parser.thinking == s.parser.thinking && t.parser.ready == s.parser.ready
  {
    if s.tool.Some? && s.tool.value.name != name then Flush(s, None).(tool := None) else s
  }

  function EnterTool(s: Stream, name: string): (t: Stream)
    ensures Quiet(s, t)
    ensures t == s.(tool := t.tool, wire := t.wire, blockIdx := t.blockIdx, blockType := t.blockType)
    ensures t.tool.Some?
  {
    if s.tool.None? then
      OpenBlock(s, ToolUse, Tool, name).(tool := Some(StreamTool(s.blockIdx + 1, name, "")))
    else s
  }

  function ApplyDelta(s: Stream, d: ToolDelta): (t: Stream)
    ensures Keeps(s, t) && (Entml(s) ==> Entml(t))
    ensures Quiet(s, t)
    ensures t == s.(blockIdx := t.blockIdx, blockType := t.blockType, tool := t.tool,
                    wire := t.wire, parser := t.parser)
    ensures |t.parser.deltas| <= |s.parser.deltas| && t.parser.text == s.parser.text
    ensures t.parser.thinking == s.parser.thinking && t.parser.ready == s.parser.ready
    ensures t.tool.Some?
  {
    EmitPieces(EnterTool(LeaveTool(CloseOther(s), d.name), d.name), d.json)
  }

  function StreamDeltas(s: Stream): (t: Stream)
    ensures Keeps(s, t) && (Entml(s) ==> Entml(t))
    ensures Quiet(s, t)
    ensures t.parser.text == s.parser.text && t.parser.thinking == s.parser.thinking
    ensures t.parser.ready == s.parser.ready
    ensures t.lastSafe == s.lastSafe && t.lastThinking == s.lastThinking
    ensures Solid(s.parser.deltas) != [] ==> t.tool.Some?
    ensures Solid(s.parser.deltas) == [] ==> t == s.(parser := s.parser.(deltas := []))
    decreases |s.parser.deltas|
  {
    var (d, p) := Consume(s.parser);
    if d.None? then s.(parser := p) else StreamDeltas(ApplyDelta(s.(parser := p), d.value))
  }

  /** A run of deltas that opens a tool where none was open counts one block. */
  function StreamTools(s: Stream): (t: Stream)
    ensures Keeps(s, t) && (Entml(s) ==> Entml(t))
    ensures Quiet(s, t)
    ensures t.parser.text == s.parser.text && t.parser.thinking == s.parser.thinking
    ensures t.parser.ready == s.parser.ready
    ensures t.lastSafe == s.lastSafe && t.lastThinking == s.lastThinking
  {
    var a := StreamDeltas(s);
    if s.tool.None? && a.tool.Some? then a.(blocksSent := a.blocksSent + 1) else a
  }

  // ---- Thinking and text ----------------------------------------------

  /** Ends a streamed tool or a text block. */
  function LeaveForThinking(s: Stream): (t: Stream)
    ensures Quiet(s, t) && t.tool.None?
    ensures t == s.(tool := t.tool, blockType := t.blockType, wire := t.wire, parser := t.parser)
    ensures t.parser.text == s.parser.text && t.parser.ready == s.parser.ready
    ensures t.parser.thinking == s.parser.thinking && t.parser.hasCalls == s.parser.hasCalls
  {
    if s.tool.Some? then Finish(s, None)
    else if s.blockType == TextBlock then CloseBlock(s)
    else s
  }

  function EnterThinking(s: Stream): (t: Stream)
    ensures Quiet(s, t) && t.blockType == ThinkingBlock
    ensures t == s.(blockIdx := t.blockIdx, blockType := ThinkingBlock, wire := t.wire)
  {
    if s.blockType == ThinkingBlock then s
    else OpenBlock(if s.blockType != NoBlock then CloseBlock(s) else s, ThinkingBlock, Thinking, "")
  }

  function SendThinking(s: Stream, content: string): (t: Stream)
    ensures Carries(s, t, "", content)
    ensures t.parser.text == s.parser.text && t.parser.ready == s.parser.ready
    ensures t.parser.thinking == s.parser.thinking && t.parser.hasCalls == s.parser.hasCalls
    ensures t.lastSafe == s.lastSafe && t.lastThinking == s.lastThinking
    ensures t.tool.None? && t.blockType == ThinkingBlock && t.started == s.started
  {
    hide LeaveForThinking, EnterThinking, ShapeOf, Body;
    var a := EnterThinking(LeaveForThinking(s));
    if content == "" then a else Put(a, Delta(a.blockIdx, Thinking, content))
  }

  /** The thinking the parser has gained since it was last asked. */
  function PartialThinking(s: Stream): (t: Stream)
    ensures Keeps(s, t) && (Entml(s) ==> Entml(t))
    ensures Carries(s, t, "", Grown(s.lastThinking, s.parser.thinking))
    ensures t.parser.text == s.parser.text && t.parser.ready == s.parser.ready
    ensures t.parser.hasCalls == s.parser.hasCalls
    ensures t.lastSafe == s.lastSafe && t.lastThinking == Mark(s.lastThinking, s.parser.thinking)
  {
    hide SendThinking;
    var grown := Grown(s.lastThinking, s.parser.thinking);
    var a := s.(lastThinking := Mark(s.lastThinking, s.parser.thinking));
    if grown == "" then a else SendThinking(a, grown)
  }

  /** Opens a text block if none is open. Only a thinking block is closed
      first, as in the handler. */
  function TextDelta(s: Stream, text: string): (t: Stream)
    requires s.tool.None?
    ensures Carries(s, t, text, "")
    ensures t.lastSafe == s.lastSafe && t.lastThinking == s.lastThinking
    ensures t.parser == s.parser && t.tool.None? && t.started == s.started && t.blockType == TextBlock
  {
    var a :=
      if s.blockType == TextBlock then s
      else OpenBlock(if s.blockType == ThinkingBlock then CloseBlock(s) else s, TextBlock, Text, "");
    Put(a, Delta(a.blockIdx, Text, text))
  }

  /** The visible text gained relative to what has been sent. */
  function GrownText(s: Stream, current: string): (t: Stream)
    ensures Keeps(s, t) && (Entml(s) ==> Entml(t))
    ensures Carries(s, t, Grown(s.lastSafe, current), "")
    ensures t.lastSafe == Mark(s.lastSafe, current) && t.lastThinking == s.lastThinking
    ensures t.parser.ready == s.parser.ready && t.parser.hasCalls == s.parser.hasCalls
  {
    hide Finish, TextDelta, ShapeOf;
    var grown := Grown(s.lastSafe, current);
    var a := s.(lastSafe := Mark(s.lastSafe, current));
    if grown == "" then a
    else TextDelta(if a.tool.Some? then Finish(a, None) else a, grown)
  }

  function ThinkThenText(s: Stream, current: string): (t: Stream)
    ensures Keeps(s, t) && (Entml(s) ==> Entml(t))
    ensures Carries(s, t, Grown(s.lastSafe, current), Grown(s.lastThinking, s.parser.thinking))
    ensures t.lastSafe == Mark(s.lastSafe, current)
    ensures t.lastThinking == Mark(s.lastThinking, s.parser.thinking)
  {
    hide GrownText, PartialThinking;
    GrownText(PartialThinking(s), current)
  }

  // ---- Complete tool calls --------------------------------------------

  function CallBlock(c: Codec, call: ToolCall): Block {
    Block(Tool, call.name, Chunks(c.render(call.arguments)))
  }

  lemma CallBlockBody(i: int, b: Block, k: Kind)
    requires b.kind == Tool && k != Tool
    ensures Body(BlockEvents(i, b), k) == ""
  {
    var head, body, last := [Start(i, Tool, b.name)], Deltas(i, Tool, b.bodies), [Stop(i)];
    BodyAppend(head + body, last, k);
    BodyAppend(head, body, k);
    DeltasBody(i, b.bodies, k);
    assert head[1..] == [] && last[1..] == [];
  }

  /** One complete tool_use block for each call. */
  function ToolBlocks(s: Stream, calls: seq<ToolCall>): (t: Stream)
    ensures Quiet(s, t)
    ensures t == s.(blockIdx := s.blockIdx + |calls|, wire := t.wire)
    decreases |calls|
  {
    if calls == [] then s
    else
      var b := CallBlock(s.codec, calls[0]);
      var es := BlockEvents(s.blockIdx + 1, b);
      CallBlockBody(s.blockIdx + 1, b, Text);
      CallBlockBody(s.blockIdx + 1, b, Thinking);
      BodyAppend(s.wire, es, Text);
      BodyAppend(s.wire, es, Thinking);
      ToolBlocks(s.(blockIdx := s.blockIdx + 1, wire := s.wire + es), calls[1..])
  }

  lemma ToolBlocksCons(s: Stream, calls: seq<ToolCall>)
    requires calls != []
    ensures
      var es := BlockEvents(s.blockIdx + 1, CallBlock(s.codec, calls[0]));
      ToolBlocks(s, calls) == ToolBlocks(s.(blockIdx := s.blockIdx + 1, wire := s.wire + es), calls[1..])
  {
    hide Body, ShapeOf, BlockEvents;
  }

  function EmitReady(s: Stream, ready: seq<ToolCall>): (t: Stream)
    ensures Keeps(s, t) && (Entml(s) ==> Entml(t))
    ensures Quiet(s, t)
    ensures t.lastSafe == s.lastSafe && t.lastThinking == s.lastThinking
  {
    if ready == [] then s
    else
      ToolBlocks(if s.blockType != NoBlock then CloseBlock(s) else s, ready)
        .(pending := s.pending + |ready|)
  }

  /** The arguments the open tool should end with: those of the first call of
      its name, or of the only call. */
  function ExpectedArguments(calls: seq<ToolCall>, name: string): Option<string> {
    var named := Named(calls, name);
    if named.Some? then named
    else if |calls| == 1 then Some(calls[0].arguments)
    else None
  }

  function Named(calls: seq<ToolCall>, name: string): Option<string> {
    if calls == [] then None
    else if calls[0].name == name then Some(calls[0].arguments)
    else Named(calls[1..], name)
  }

  function HandleReady(s: Stream, ready: seq<ToolCall>): (t: Stream)
    ensures Keeps(s, t) && (Entml(s) ==> Entml(t))
    ensures Quiet(s, t)
    ensures t.lastSafe == s.lastSafe && t.lastThinking == s.lastThinking
  {
    if ready == [] then s
    else
      var a := s.(streamed := s.streamed + ready);
      if a.tool.Some? then
        Finish(a, ExpectedArguments(ready, a.tool.value.name)).(pending := a.pending + |ready|)
      else EmitReady(a, ready)
  }

  // ---- One upstream event ---------------------------------------------

  function AnswerStep(s: Stream, p: Parser, ready: seq<ToolCall>): (t: Stream)
    ensures Keeps(s, t) && (Entml(s) ==> Entml(t))
    ensures Carries(s, t, Grown(s.lastSafe, p.text), Grown(s.lastThinking, p.thinking))
    ensures t.lastSafe == Mark(s.lastSafe, p.text)
    ensures t.lastThinking == Mark(s.lastThinking, p.thinking)
  {
    var a := StreamTools(s.(parser := p));
    HandleReady(ThinkThenText(a, p.text), ready)
  }

  /** A tool-call delta passed through from an upstream with native tools. */
  function NativeStep(s: Stream, hasId: bool, name: string, arguments: string): (t: Stream)
    ensures Keeps(s, t)
    ensures Quiet(s, t)
    ensures t.lastSafe == s.lastSafe && t.lastThinking == s.lastThinking
  {
    var a :=
      if hasId then
        OpenBlock(if s.blockType != NoBlock then CloseBlock(s) else s, NativeTool, Tool, name)
          .(pending := s.pending + 1)
      else s;
    if arguments != "" && a.blockType == NativeTool then Put(a, Delta(a.blockIdx, Tool, arguments))
    else a
  }

  function ThinkingStep(s: Stream, content: string): (t: Stream)
    ensures Keeps(s, t) && (Entml(s) ==> Entml(t))
    ensures Carries(s, t, "", content)
    ensures t.lastSafe == s.lastSafe && t.lastThinking == s.lastThinking
  {
    hide SendThinking, ShapeOf;
    if content == "" then s else SendThinking(s, content)
  }

  /** The visible text and the thinking one event adds to the wire. */
  function TextGain(s: Stream, e: Upstream): string {
    if e.Answer? then Grown(s.lastSafe, e.parser.text) else ""
  }

  function ThinkingGain(s: Stream, e: Upstream): string {
    match e
    case ThinkingPart(content) => content
    case Answer(p, _) => Grown(s.lastThinking, p.thinking)
    case _ => ""
  }

  lemma AnswerGains(s: Stream, e: Upstream)
    requires e.Answer?
    ensures TextGain(s, e) == Grown(s.lastSafe, e.parser.text)
    ensures ThinkingGain(s, e) == Grown(s.lastThinking, e.parser.thinking)
  {}

  /** The events that announce the message if it has not been announced. */
  predicate Announces(e: Upstream) {
    match e
    case PromptMeta => true
    case ResponseCreated => false
    case ThinkingPart(_) => true
    case Answer(_, _) => true
    case Native(usage, _, _, _, _) => usage
    case Other(usage) => usage
  }

  /** The content of an event that does not feed the parser. */
  function DirectStep(s: Stream, e: Upstream): (t: Stream)
    requires !e.Answer?
    ensures Keeps(s, t)
    ensures Entml(s) && !e.Native? ==> Entml(t)
    ensures Carries(s, t, TextGain(s, e), ThinkingGain(s, e))
    ensures t.lastSafe == s.lastSafe && t.lastThinking == s.lastThinking
  {
    hide ThinkingStep, NativeStep, ShapeOf, Body;
    match e
    case ThinkingPart(content) => ThinkingStep(s, content)
    case Native(_, hasId, _, name, arguments) =>
      QuietCarries(s, NativeStep(s, hasId, name, arguments));
      NativeStep(s, hasId, name, arguments)
    case _ =>
      QuietCarries(s, s);
      s
  }

  function ContentStep(s: Stream, e: Upstream): (t: Stream)
    ensures Keeps(s, t)
    ensures Entml(s) && !e.Native? ==> Entml(t)
    ensures Carries(s, t, TextGain(s, e), ThinkingGain(s, e))
    ensures t.lastSafe == if e.Answer? then Mark(s.lastSafe, e.parser.text) else s.lastSafe
    ensures t.lastThinking == if e.Answer? then Mark(s.lastThinking, e.parser.thinking) else s.lastThinking
  {
    hide DirectStep, AnswerStep, Grown, Mark, ShapeOf, Body, Carries, TextGain, ThinkingGain;
    if e.Answer? then
      AnswerGains(s, e);
      AnswerStep(s, e.parser, e.ready)
    else DirectStep(s, e)
  }

  /** Events before the message is announced are dropped, except those that
      announce it. */
  function Dispatch(s: Stream, e: Upstream): (t: Stream)
    ensures Keeps(s, t)
    ensures e.Answer? ==> t.started
    ensures Entml(s) && !e.Native? ==> Entml(t)
    ensures s.started || Announces(e) ==> Carries(s, t, TextGain(s, e), ThinkingGain(s, e))
    ensures !s.started && !Announces(e) ==> t == s
    ensures t.lastSafe == if e.Answer? then Mark(s.lastSafe, e.parser.text) else s.lastSafe
    ensures t.lastThinking == if e.Answer? then Mark(s.lastThinking, e.parser.thinking) else s.lastThinking
  {
    hide EnsureStart, ContentStep;
    var a := if Announces(e) then EnsureStart(s) else s;
    if a.started then ContentStep(a, e) else s
  }

  function Events(s: Stream, es: seq<Upstream>): (t: Stream)
    ensures Keeps(s, t)
    ensures t.codec == s.codec && s.wire <= t.wire
    decreases |es|
  {
    hide Dispatch;
    if es == [] then s else Events(Dispatch(s, es[0]), es[1..])
  }

  // ---- The end of the stream ------------------------------------------

  function FinalText(end: Ending): string {
    if end.parser.hasCalls || end.finalText == "" then end.parser.text else end.finalText
  }

  /** An upstream that only thought still gets an (empty) text block. */
  function RemainingText(s: Stream, text: string): (t: Stream)
    requires Apart(s)
    ensures Carries(s, t, Grown(s.lastSafe, text), "")
  {
    if Grown(s.lastSafe, text) == "" && s.blockType == ThinkingBlock && !s.parser.hasCalls
    then TextDelta(s.(lastSafe := Mark(s.lastSafe, text)), "")
    else GrownText(s, text)
  }

  function Leftovers(s: Stream, text: string): (t: Stream)
    requires Apart(s)
    ensures Carries(s, t, Grown(s.lastSafe, text), Grown(s.lastThinking, s.parser.thinking))
  {
    hide RemainingText, PartialThinking;
    RemainingText(PartialThinking(s), text)
  }

  function OpenToolAtEnd(s: Stream): (t: Stream)
    requires s.tool.Some?
    ensures Quiet(s, t)
  {
    var expected := if s.allCalls == [] then None else Some(s.allCalls[0].arguments);
    var a := Finish(s, expected);
    if a.parser.closed || s.allCalls != [] then a.(pending := a.pending + 1) else a
  }

  function FinalizeTools(s: Stream): (t: Stream)
    ensures Quiet(s, t)
  {
    var (late, p) := TakeReady(s.parser);
    var a := s.(parser := p);
    if late != [] || s.tool.None? then
      var (again, q) := TakeReady(p);
      var b := a.(parser := q);
      if late != [] then HandleReady(b, again) else EmitReady(b, again)
    else OpenToolAtEnd(a)
  }

  function CloseNative(s: Stream): (t: Stream)
    ensures Quiet(s, t)
  {
    if s.blockType == NativeTool then CloseBlock(s) else s
  }

  function Reconcile(s: Stream): (t: Stream)
    ensures Quiet(s, t)
  {
    var calls := if s.allCalls == [] then s.streamed else s.allCalls;
    var least := if |calls| < s.blocksSent then |calls| else s.blocksSent;
    s.(allCalls := calls, pending := if least > s.pending then least else s.pending)
  }

  function Complete(s: Stream, end: Ending): (t: Stream)
    requires Apart(s)
    ensures Carries(s, t, Grown(s.lastSafe, FinalText(end)), Grown(s.lastThinking, end.parser.thinking))
  {
    var a := Leftovers(s.(parser := end.parser, allCalls := end.calls), FinalText(end));
    EnsureStart(Reconcile(CloseNative(FinalizeTools(a))))
  }

  function Merged(s: Stream): seq<ToolCall> {
    if s.allCalls == [] then s.streamed else s.allCalls
  }

  /** The calls not counted as sent. */
  function Unsent(s: Stream): seq<ToolCall> {
    if s.pending < |Merged(s)| then Merged(s)[s.pending..] else []
  }

  /** Closes what is open, sends the calls not sent yet, and finishes. */
  function PostStream(s: Stream): (t: Stream)
    ensures Quiet(s, t)
  {
    hide ToolBlocks, CloseBlock, Put, Merged, Unsent, ShapeOf;
    var a := ToolBlocks(if s.blockType != NoBlock then CloseBlock(s) else s, Unsent(s));
    Put(Put(a, MessageDelta(Merged(s) != [] || s.pending > 0)), MessageStop)
  }
}
