/** What the OpenAI stream handler does on a connection that never fails, as
    functions from the handler's state to its next state. The methods of
    `OpenAIStream` are proved against these functions; what the handler
    promises is proved about them in `OpenAITheorems`. */
module OpenAISpec {
  import opened Common
  import opened ToolParser

  /** A tool call is one header chunk, with the name and the first part of the
      arguments, and then arguments-only chunks. */
  datatype Chunk =
    | Header(index: int, name: string, args: string)
    | Args(index: int, args: string)
    | Native(call: NativeCall)
    | Reasoning(text: string)
    | Content(text: string)
    | Finish(toolCalls: bool)
    | Usage
    | Done
    | Failure

  /** A tool-call delta of an upstream with native tools. `payload` stands for
      everything in it but its index and whether it has an id. */
  datatype NativeCall = NativeCall(hasId: bool, index: Option<int>, payload: string)

  datatype StreamTool = StreamTool(index: nat, name: string, headerSent: bool)

  datatype Stream = Stream(
    pending: nat,
    tool: Option<StreamTool>,
    lastSafe: nat,
    lastThinking: nat,
    streamed: seq<ToolCall>,
    blocksSent: nat,
    nativeSent: nat,
    thought: string,
    parser: Parser,
    wire: seq<Chunk>)

  const Init := Stream(0, None, 0, 0, [], 0, 0, "", Unfed, [])

  /** Upstream events. An answer part is what the parser says once it has been
      fed; a native tool-call event may carry no tool call. */
  datatype Upstream =
    | ThinkingPart(content: string)
    | Answer(parser: Parser, ready: seq<ToolCall>)
    | NativePart(call: Option<NativeCall>)
    | Other

  /** What the parser says when it is finalized. */
  datatype Ending = Ending(parser: Parser, finalText: string, calls: seq<ToolCall>)

  /** The text (or the thinking) a client puts together. */
  function Spoken(w: seq<Chunk>, thinking: bool): string {
    if w == [] then "" else Voice(w[0], thinking) + Spoken(w[1..], thinking)
  }

  function Voice(c: Chunk, thinking: bool): string {
    if thinking then if c.Reasoning? then c.text else "" else if c.Content? then c.text else ""
  }

  lemma {:induction false} SpokenAppend(a: seq<Chunk>, b: seq<Chunk>, thinking: bool)
    ensures Spoken(a + b, thinking) == Spoken(a, thinking) + Spoken(b, thinking)
  {
    hide Voice;
    if a == [] {
      assert a + b == b;
    } else {
      SpokenAppend(a[1..], b, thinking);
      assert (a + b)[1..] == a[1..] + b;
    }
  }

  // ---- Writing ---------------------------------------------------------

  function Put(s: Stream, c: Chunk): (t: Stream)
    ensures t == s.(wire := s.wire + [c])
    ensures Spoken(t.wire, false) == Spoken(s.wire, false) + Voice(c, false)
    ensures Spoken(t.wire, true) == Spoken(s.wire, true) + Voice(c, true)
  {
    SpokenAppend(s.wire, [c], false);
    SpokenAppend(s.wire, [c], true);
    assert [c][1..] == [];
    s.(wire := s.wire + [c])
  }

  /** `t` adds chunks to the wire, none of them text or thinking. */
  ghost predicate Quiet(s: Stream, t: Stream) {
    && s.wire <= t.wire
    && Spoken(t.wire, false) == Spoken(s.wire, false)
    && Spoken(t.wire, true) == Spoken(s.wire, true)
    && t.lastSafe == s.lastSafe && t.lastThinking == s.lastThinking
    && t.parser.text == s.parser.text && t.parser.thinking == s.parser.thinking
  }

  /** One header per call, numbered from `start`. */
  function Headers(start: int, calls: seq<ToolCall>): (cs: seq<Chunk>)
    ensures |cs| == |calls|
    ensures forall k :: 0 <= k < |cs| ==> cs[k] == Header(start + k, calls[k].name, calls[k].arguments)
    decreases |calls|
  {
    if calls == [] then []
    else [Header(start, calls[0].name, calls[0].arguments)] + Headers(start + 1, calls[1..])
  }

  /** The chunks for some pieces of one tool's arguments: the first one is its
      header unless the header went out before. */
  function PieceChunks(tool: StreamTool, pieces: seq<string>): (cs: seq<Chunk>)
    ensures |cs| == |pieces|
    ensures forall k :: 0 <= k < |cs| ==>
      cs[k] == if k == 0 && !tool.headerSent then Header(tool.index, tool.name, pieces[k])
               else Args(tool.index, pieces[k])
    decreases |pieces|
  {
    if pieces == [] then []
    else
      [if tool.headerSent then Args(tool.index, pieces[0]) else Header(tool.index, tool.name, pieces[0])]
      + PieceChunks(tool.(headerSent := true), pieces[1..])
  }

  lemma {:induction false} ToolChunksAreQuiet(cs: seq<Chunk>, thinking: bool)
    requires forall c :: c in cs ==> c.Header? || c.Args?
    ensures Spoken(cs, thinking) == ""
  {
    if cs != [] {
      assert cs[0] in cs;
      ToolChunksAreQuiet(cs[1..], thinking);
    }
  }

  function Tools(s: Stream, cs: seq<Chunk>): (t: Stream)
    requires forall c :: c in cs ==> c.Header? || c.Args?
    ensures t == s.(wire := s.wire + cs) && Quiet(s, t)
    ensures s.wire <= t.wire
  {
    ToolChunksAreQuiet(cs, false);
    ToolChunksAreQuiet(cs, true);
    SpokenAppend(s.wire, cs, false);
    SpokenAppend(s.wire, cs, true);
    s.(wire := s.wire + cs)
  }

  // ---- Streamed tool calls --------------------------------------------

  function EmitPieces(s: Stream, json: string): (t: Stream)
    requires s.tool.Some?
    ensures Quiet(s, t)
    ensures s.wire <= t.wire
    ensures t == s.(tool := t.tool, wire := s.wire + PieceChunks(s.tool.value, Chunks(json)))
    ensures t.tool == Some(s.tool.value.(headerSent := s.tool.value.headerSent || json != ""))
  {
    hide Spoken;
    Tools(s, PieceChunks(s.tool.value, Chunks(json)))
      .(tool := Some(s.tool.value.(headerSent := s.tool.value.headerSent || json != "")))
  }

  /** Another name leaves the open tool as it is and takes the next index. */
  function Aim(s: Stream, name: string): Stream {
    if s.tool.Some? && s.tool.value.name == name then s
    else
      var index := if s.tool.Some? then s.pending + 1 else s.pending;
      s.(tool := Some(StreamTool(index, name, false)), pending := index)
  }

  function ApplyDelta(s: Stream, d: ToolDelta): (t: Stream)
    ensures Quiet(s, t) && t.parser == s.parser && t.streamed == s.streamed && t.blocksSent == s.blocksSent
    ensures s.wire <= t.wire
    ensures t.tool.Some? && t.pending >= s.pending && t.nativeSent == s.nativeSent && t.thought == s.thought
  {
    EmitPieces(Aim(s, d.name), d.json)
  }

  function StreamDeltas(s: Stream): (t: Stream)
    ensures Quiet(s, t) && t.parser == s.parser.(deltas := []) && t.streamed == s.streamed
    ensures s.wire <= t.wire
    ensures (s.tool.Some? ==> t.tool.Some?) && t.pending >= s.pending && t.blocksSent == s.blocksSent
    ensures t.nativeSent == s.nativeSent
    decreases |s.parser.deltas|
  {
    hide ApplyDelta, Spoken;
    var (d, p) := Consume(s.parser);
    if d.None? then s.(parser := p) else StreamDeltas(ApplyDelta(s.(parser := p), d.value))
  }

  /** Ready calls: the streamed tool stands for the first of them. */
  function EmitReady(s: Stream, ready: seq<ToolCall>): (t: Stream)
    ensures Quiet(s, t) && t.tool.None? && t.parser == s.parser
    ensures s.wire <= t.wire
    ensures t.pending == s.pending + |ready| && t.streamed == s.streamed + ready
    ensures t.blocksSent == s.blocksSent && t.nativeSent == s.nativeSent
  {
    hide Spoken;
    (if s.tool.Some? then s.(tool := None) else Tools(s, Headers(s.pending, ready)))
      .(streamed := s.streamed + ready, pending := s.pending + |ready|)
  }

  // ---- Text and thinking ----------------------------------------------

  /** `t` follows `s` on the wire and adds exactly this text and thinking. */
  ghost predicate Carries(s: Stream, t: Stream, text: string, thinking: string) {
    && s.wire <= t.wire
    && Spoken(t.wire, false) == Spoken(s.wire, false) + text
    && Spoken(t.wire, true) == Spoken(s.wire, true) + thinking
  }

  function PartialThinking(s: Stream): (t: Stream)
    ensures Carries(s, t, "", Grown(s.lastThinking, s.parser.thinking))
    ensures s.wire <= t.wire
    ensures t == s.(lastThinking := Mark(s.lastThinking, s.parser.thinking), thought := t.thought, wire := t.wire)
  {
    hide Spoken;
    var grown := Grown(s.lastThinking, s.parser.thinking);
    var a := s.(lastThinking := Mark(s.lastThinking, s.parser.thinking));
    if grown == "" then a else Put(a.(thought := s.thought + grown), Reasoning(grown))
  }

  function PartialText(s: Stream, text: string): (t: Stream)
    ensures Carries(s, t, Grown(s.lastSafe, text), "")
    ensures s.wire <= t.wire
    ensures t == s.(lastSafe := Mark(s.lastSafe, text), wire := t.wire)
  {
    hide Spoken;
    var grown := Grown(s.lastSafe, text);
    var a := s.(lastSafe := Mark(s.lastSafe, text));
    if grown == "" then a else Put(a, Content(grown))
  }

  function ThinkThenText(s: Stream, text: string): (t: Stream)
    ensures Carries(s, t, Grown(s.lastSafe, text), Grown(s.lastThinking, s.parser.thinking))
    ensures s.wire <= t.wire
    ensures t == s.(lastThinking := Mark(s.lastThinking, s.parser.thinking), lastSafe := Mark(s.lastSafe, text),
                    thought := t.thought, wire := t.wire)
  {
    hide Spoken, PartialThinking, PartialText, Grown, Mark;
    PartialText(PartialThinking(s), text)
  }

  // ---- One upstream event ---------------------------------------------

  function CountBlock(before: Option<StreamTool>, s: Stream): Stream {
    if before.None? && s.tool.Some? then s.(blocksSent := s.blocksSent + 1) else s
  }

  function AnswerStep(s: Stream, p: Parser, ready: seq<ToolCall>): (t: Stream)
    ensures Carries(s, t, Grown(s.lastSafe, p.text), Grown(s.lastThinking, p.thinking))
    ensures s.wire <= t.wire
    ensures t.lastSafe == Mark(s.lastSafe, p.text) && t.lastThinking == Mark(s.lastThinking, p.thinking)
    ensures t.nativeSent == s.nativeSent
  {
    hide Spoken, StreamDeltas, ThinkThenText, EmitReady, Grown, Mark;
    var a := CountBlock(s.tool, StreamDeltas(s.(parser := p)));
    var b := ThinkThenText(a, p.text);
    if ready == [] then b else EmitReady(b, ready)
  }

  function ThinkingStep(s: Stream, content: string): (t: Stream)
    ensures Carries(s, t, "", content)
    ensures s.wire <= t.wire
    ensures t == s.(thought := s.thought + content, wire := t.wire)
  {
    var a := s.(thought := s.thought + content);
    if content == "" then a else Put(a, Reasoning(content))
  }

  /** A native delta passes through with its index moved past the streamed
      calls. */
  function NativeStep(s: Stream, call: NativeCall): (t: Stream)
    ensures Quiet(s, t)
    ensures s.wire <= t.wire
    ensures t == s.(nativeSent := s.nativeSent + if call.hasId then 1 else 0, wire := t.wire)
  {
    var index := if call.index.Some? then Some(s.pending + call.index.value) else None;
    Put(if call.hasId then s.(nativeSent := s.nativeSent + 1) else s, Native(call.(index := index)))
  }

  /** The visible text and the thinking one event adds to the wire. */
  function TextGain(s: Stream, e: Upstream): string {
    if e.Answer? then Grown(s.lastSafe, e.parser.text) else ""
  }

  function ThinkingGain(s: Stream, e: Upstream): string {
    match e
    case ThinkingPart(content) => content
    case Answer(p, _) => Grown(s.lastThinking, p.thinking)
    case _ => ""
  }

  /** A native call is counted when its delta carries an id. */
  function NativeCount(e: Upstream): nat {
    if e.NativePart? && e.call.Some? && e.call.value.hasId then 1 else 0
  }

  function Step(s: Stream, e: Upstream): (t: Stream)
    ensures Carries(s, t, TextGain(s, e), ThinkingGain(s, e))
    ensures s.wire <= t.wire
    ensures t.nativeSent == s.nativeSent + NativeCount(e)
    ensures t.lastSafe == if e.Answer? then Mark(s.lastSafe, e.parser.text) else s.lastSafe
    ensures t.lastThinking == if e.Answer? then Mark(s.lastThinking, e.parser.thinking) else s.lastThinking
  {
    hide Spoken, AnswerStep, ThinkingStep, NativeStep, Grown, Mark;
    match e
    case ThinkingPart(content) => ThinkingStep(s, content)
    case Answer(p, ready) => AnswerStep(s, p, ready)
    case NativePart(call) => if call.Some? then NativeStep(s, call.value) else s
    case Other => s
  }

  function Events(s: Stream, es: seq<Upstream>): (t: Stream)
    ensures s.wire <= t.wire
    decreases |es|
  {
    hide Step, Spoken;
    if es == [] then s else Events(Step(s, es[0]), es[1..])
  }

  // ---- The end of the stream ------------------------------------------

  function FinalText(end: Ending): string {
    if end.parser.hasCalls || end.finalText == "" then end.parser.text else end.finalText
  }

  /** An upstream that only thought still sends one empty text. */
  function Leftovers(s: Stream, text: string): (t: Stream)
    ensures Carries(s, t, Grown(s.lastSafe, text), Grown(s.lastThinking, s.parser.thinking))
    ensures s.wire <= t.wire
    ensures t == s.(lastThinking := Mark(s.lastThinking, s.parser.thinking), lastSafe := Mark(s.lastSafe, text),
                    thought := t.thought, wire := t.wire)
  {
    hide Spoken, ThinkThenText, Mark;
    var a := ThinkThenText(s, text);
    if Grown(s.lastSafe, text) == "" && a.thought != "" && !s.parser.hasCalls then Put(a, Content("")) else a
  }

  /** The open tool gets its closing arguments; it is counted unless the call
      breaks off. */
  function CompleteTool(s: Stream, calls: seq<ToolCall>): (t: Stream)
    requires s.tool.Some?
    ensures Quiet(s, t)
    ensures s.wire <= t.wire
    ensures t.tool.None? && t.nativeSent == s.nativeSent
  {
    hide Spoken, EmitPieces;
    var (json, q) := FinalJson(s.parser);
    var b := EmitPieces(s.(parser := q), json).(tool := None);
    if q.closed || calls != [] then b.(pending := b.pending + 1) else b
  }

  /** `calls` are the calls the parser found in the end. */
  function FinalizeTool(s: Stream, calls: seq<ToolCall>): (t: Stream)
    ensures Quiet(s, t)
    ensures s.wire <= t.wire
    ensures t.tool.None? && t.nativeSent == s.nativeSent
  {
    hide Spoken, CompleteTool, EmitReady;
    var (late, p) := TakeReady(s.parser);
    var a := s.(parser := p);
    if late != [] then EmitReady(a, late)
    else if a.tool.None? then a
    else CompleteTool(a, calls)
  }

  /** All calls of the answer: the parser's in the end, or the streamed ones. */
  function AllCalls(s: Stream, calls: seq<ToolCall>): seq<ToolCall> {
    if calls != [] then calls else s.streamed
  }

  function Reconciled(pending: nat, calls: seq<ToolCall>, blocksSent: nat): nat {
    var least := if |calls| < blocksSent then |calls| else blocksSent;
    if least > pending then least else pending
  }

  function SendRemaining(s: Stream, calls: seq<ToolCall>, already: nat): (t: Stream)
    ensures Quiet(s, t)
    ensures s.wire <= t.wire
    ensures t == s.(wire := t.wire)
  {
    hide Spoken;
    if already < |calls| then Tools(s, Headers(already, calls[already..])) else s
  }

  function Finale(toolCalls: bool, usage: bool): seq<Chunk> {
    [Finish(toolCalls)] + (if usage then [Usage] else []) + [Done]
  }

  function SendFinale(s: Stream, toolCalls: bool, usage: bool): (t: Stream)
    ensures Quiet(s, t)
    ensures t == s.(wire := s.wire + Finale(toolCalls, usage))
  {
    hide Spoken;
    var b := Put(s, Finish(toolCalls));
    assert s.wire + Finale(toolCalls, usage) == b.wire + (if usage then [Usage] else []) + [Done];
    Put(if usage then Put(b, Usage) else b, Done)
  }

  function SendFinish(s: Stream, calls: seq<ToolCall>, already: nat, usage: bool): (t: Stream)
    ensures Quiet(s, t)
    ensures s.wire <= t.wire
    ensures t.wire == SendRemaining(s, calls, already).wire + Finale(calls != [] || already > 0, usage)
  {
    hide Spoken, SendRemaining, SendFinale, Finale;
    SendFinale(SendRemaining(s, calls, already), calls != [] || already > 0, usage)
  }

  function Settle(s: Stream, calls: seq<ToolCall>, usage: bool): (t: Stream)
    ensures Quiet(s, t)
    ensures s.wire <= t.wire
  {
    hide Spoken, SendFinish, Reconciled;
    var all := AllCalls(s, calls);
    var a := s.(pending := Reconciled(s.pending, all, s.blocksSent));
    SendFinish(a, all, a.pending + a.nativeSent, usage)
  }

  function Conclude(s: Stream, end: Ending): (t: Stream)
    ensures Carries(s, t, Grown(s.lastSafe, FinalText(end)), Grown(s.lastThinking, end.parser.thinking))
    ensures s.wire <= t.wire
    ensures t.nativeSent == s.nativeSent
  {
    hide Spoken, Leftovers, FinalizeTool, Grown;
    FinalizeTool(Leftovers(s.(parser := end.parser), FinalText(end)), end.calls)
  }

  function Complete(s: Stream, end: Ending, usage: bool): (t: Stream)
    ensures Carries(s, t, Grown(s.lastSafe, FinalText(end)), Grown(s.lastThinking, end.parser.thinking))
    ensures s.wire <= t.wire
  {
    hide Spoken, Conclude, Settle, Grown;
    Settle(Conclude(s, end), end.calls, usage)
  }

  /** How the upstream ends: with the parser's last words, with an error, or
      cancelled. `usage` tells whether a separate usage chunk is sent. */
  datatype Outcome = Finished(end: Ending, usage: bool) | Failed | Cancelled

  function Run(es: seq<Upstream>, how: Outcome): (t: Stream)
    ensures Events(Init, es).wire <= t.wire
  {
    hide Spoken, Complete;
    var s := Events(Init, es);
    match how
    case Finished(end, usage) => Complete(s, end, usage)
    case Failed => Put(s, Failure)
    case Cancelled => Put(s, Done)
  }
}
