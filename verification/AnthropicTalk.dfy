/** Every tool call an Anthropic client ends up with: a simple account of what
    the parser and the upstream say, without blocks and wire, and the proof that
    the client hears exactly that. */
module AnthropicTalk {
  import opened Common
  import opened ToolParser
  import opened AnthropicWire
  import opened AnthropicSpec
  import opened AnthropicShape
  import opened AnthropicCalls

  /** The calls so far, and whether the last one is still being said. A call is
      counted as sent when ready calls are announced for it; `uncounted` calls
      were ended by text, thinking or another call instead. `skipped` calls were
      announced behind one being said and are not sent for themselves. `begun`
      counts the answers that began to stream and did not stop. `native` says
      that the last call is native and still takes arguments; `stale`, that a
      native call was begun while one was being said, which nobody has ended.
      The rest is what later events are compared with. */
  datatype Talk = Talk(
    calls: seq<ToolCall>,
    talking: bool,
    uncounted: nat,
    skipped: nat,
    begun: nat,
    streamed: seq<ToolCall>,
    parser: Parser,
    lastSafe: nat,
    lastThinking: nat,
    started: bool,
    native: bool,
    stale: bool)

  const Silence := Talk([], false, 0, 0, 0, [], Unfed, 0, 0, false, false, false)

  /** The arguments of a call once it is completed: what is queued, the parser's
      closing piece, and what is missing of the expected ones. */
  function Arguments(c: Codec, json: string, p: Parser, expected: Option<string>): (r: (string, Parser))
    ensures r.1.deltas == [] && r.1.text == p.text && r.1.thinking == p.thinking && r.1.ready == p.ready
  {
    var (final, q) := FinalJson(p.(deltas := []));
    var buf := json + Json(Solid(p.deltas)) + final;
    (if expected.Some? && expected.value != "" then buf + Missing(c, buf, expected.value) else buf, q)
  }

  function Last(t: Talk): ToolCall
    requires t.calls != []
  {
    t.calls[|t.calls| - 1]
  }

  function CompleteCall(c: Codec, t: Talk, expected: Option<string>): (r: Talk)
    ensures r.stale == t.stale && r.started == t.started
    ensures |r.parser.deltas| <= |t.parser.deltas|
  {
    if !t.talking || t.calls == [] then t
    else
      var (args, q) := Arguments(c, Last(t).arguments, t.parser, expected);
      t.(calls := WithLast(t.calls, args), talking := false, parser := q)
  }

  /** Something else goes on: the call being said ends uncounted, and a native
      one takes no more arguments. */
  function Leave(c: Codec, t: Talk): (r: Talk)
    ensures r.stale == t.stale && r.started == t.started
    ensures |r.parser.deltas| <= |t.parser.deltas|
  {
    (if t.talking then CompleteCall(c, t, None).(uncounted := t.uncounted + 1) else t).(native := false)
  }

  function Say(c: Codec, t: Talk, d: ToolDelta): (r: Talk)
    ensures r.stale == t.stale && r.started == t.started
    ensures |r.parser.deltas| <= |t.parser.deltas|
  {
    if t.talking && t.calls != [] && Last(t).name == d.name then t.(calls := More(t.calls, d.json))
    else
      var a := Leave(c, t);
      a.(calls := a.calls + [ToolCall(d.name, d.json)], talking := true)
  }

  function SayAll(c: Codec, t: Talk): (r: Talk)
    ensures r.stale == t.stale && r.started == t.started
    decreases |t.parser.deltas|
  {
    var (d, p) := Consume(t.parser);
    if d.None? then t.(parser := p) else SayAll(c, Say(c, t.(parser := p), d.value))
  }

  function Think(c: Codec, t: Talk): (r: Talk)
    ensures r.stale == t.stale && r.started == t.started
  {
    var a := t.(lastThinking := Mark(t.lastThinking, t.parser.thinking));
    if Grown(t.lastThinking, t.parser.thinking) == "" then a else Leave(c, a)
  }

  function Speak(c: Codec, t: Talk, text: string): (r: Talk)
    ensures r.stale == t.stale && r.started == t.started
  {
    var a := t.(lastSafe := Mark(t.lastSafe, text));
    if Grown(t.lastSafe, text) == "" then a else Leave(c, a)
  }

  /** Whole calls of their own. */
  function Add(c: Codec, t: Talk, ready: seq<ToolCall>): (r: Talk)
    ensures r.stale == t.stale && r.started == t.started
  {
    t.(calls := t.calls + Rendered(c, ready), native := t.native && ready == [])
  }

  /** Ready calls complete the call being said, or are calls of their own. */
  function Announce(c: Codec, t: Talk, ready: seq<ToolCall>): (r: Talk)
    ensures r.stale == t.stale && r.started == t.started
  {
    if ready == [] then t
    else
      var a := t.(streamed := t.streamed + ready);
      if a.talking && a.calls != [] then
        CompleteCall(c, a, ExpectedArguments(ready, Last(a).name)).(skipped := a.skipped + |ready| - 1)
      else Add(c, a, ready)
  }

  function Begin(t: Talk, u: Talk): Talk { if !t.talking && u.talking then u.(begun := u.begun + 1) else u }

  /** An id begins a native call, whatever is being said; arguments go to the
      last call if that is a native one which nothing has followed. */
  function Pass(t: Talk, hasId: bool, name: string, arguments: string): Talk {
    var a :=
      if hasId then
        t.(calls := t.calls + [ToolCall(name, "")], talking := false, native := true, stale := t.stale || t.talking,
           uncounted := t.uncounted + if t.talking then 1 else 0)
      else t;
    if arguments != "" && a.native then a.(calls := More(a.calls, arguments)) else a
  }

  function Reply(c: Codec, t: Talk, p: Parser, ready: seq<ToolCall>): (r: Talk)
    ensures r.stale == t.stale && r.started == t.started
  {
    Announce(c, Speak(c, Think(c, Begin(t, SayAll(c, t.(parser := p)))), p.text), ready)
  }

  /** Native calls before the message is announced are lost. */
  function TalkStep(c: Codec, t: Talk, e: Upstream): Talk {
    var a := t.(started := t.started || Announces(e));
    match e
    case ThinkingPart(content) => if content == "" then a else Leave(c, a)
    case Answer(p, ready) => Reply(c, a, p, ready)
    case Native(_, hasId, _, name, arguments) => if a.started then Pass(a, hasId, name, arguments) else a
    case _ => a
  }

  function TalkAll(c: Codec, t: Talk, es: seq<Upstream>): Talk
    decreases |es|
  {
    if es == [] then t else TalkAll(c, TalkStep(c, t, es[0]), es[1..])
  }

  /** The rest of the answer, before open calls are settled. */
  function Leftover(c: Codec, t: Talk, end: Ending): Talk {
    Speak(c, Think(c, t.(parser := end.parser)), FinalText(end))
  }

  /** The end settles the call being said, unless ready calls are announced once
      and gone when asked for again. */
  function Settle(c: Codec, t: Talk, calls: seq<ToolCall>): Talk {
    var (late, p) := TakeReady(t.parser);
    var (again, q) := TakeReady(p);
    if late != [] then Announce(c, t.(parser := q), again)
    else if !t.talking then Add(c, t.(parser := q), again)
    else
      var a := CompleteCall(c, t.(parser := p), if calls == [] then None else Some(calls[0].arguments));
      if a.parser.closed || calls != [] then a else a.(uncounted := a.uncounted + 1)
  }

  function Told(c: Codec, es: seq<Upstream>, end: Ending): Talk {
    Settle(c, Leftover(c, TalkAll(c, Silence, es), end), end.calls)
  }

  /** All calls of the answer: the parser's in the end, or the announced ones. */
  function AllCalls(t: Talk, calls: seq<ToolCall>): seq<ToolCall> { if calls == [] then t.streamed else calls }

  /** How many of them are counted as sent. */
  function Counted(t: Talk, all: seq<ToolCall>): int {
    Max(|t.calls| + t.skipped - t.uncounted - (if t.talking then 1 else 0), Min(|all|, t.begun))
  }

  /** The calls a client ends up with: those said, and those not counted. */
  function Delivered(c: Codec, es: seq<Upstream>, end: Ending): seq<ToolCall> {
    var t := Told(c, es, end);
    var all := AllCalls(t, end.calls);
    t.calls + Rendered(c, Drop(all, Max(0, Counted(t, all))))
  }

  // ---- Calls left behind -------------------------------------------------

  /** The event makes the handler go back to a call that a native one has left
      behind. What it then writes is malformed. */
  predicate Touches(t: Talk, e: Upstream) {
    && t.stale
    && match e
       case ThinkingPart(content) => content != ""
       case Answer(p, ready) =>
         Solid(p.deltas) != [] || Grown(t.lastThinking, p.thinking) != "" || Grown(t.lastSafe, p.text) != ""
         || ready != []
       case _ => false
  }

  predicate TouchedIn(c: Codec, t: Talk, es: seq<Upstream>)
    decreases |es|
  {
    es != [] && (Touches(t, es[0]) || TouchedIn(c, TalkStep(c, t, es[0]), es[1..]))
  }

  predicate EndTouches(t: Talk, end: Ending) {
    var (late, p) := TakeReady(end.parser);
    && t.stale
    && (Grown(t.lastThinking, end.parser.thinking) != "" || Grown(t.lastSafe, FinalText(end)) != ""
        || late == [] || TakeReady(p).0 != [])
  }

  predicate Touched(c: Codec, es: seq<Upstream>, end: Ending) {
    TouchedIn(c, Silence, es) || EndTouches(TalkAll(c, Silence, es), end)
  }

  // ---- The handler's state keeps to it ----------------------------------

  /** What the account says about the last call and the block that is open. */
  predicate Poised(s: Stream, t: Talk) {
    && s.tool.Some? == (t.talking || t.stale)
    && t.native == (s.blockType == NativeTool)
    && !(t.talking && t.native)
    && (t.stale ==> t.native)
    && (!t.stale ==> OpenIsLast(s))
  }

  predicate Matches(s: Stream, t: Talk) {
    && Poised(s, t) && Hears(s) == t.calls
    && s.parser == t.parser && s.lastSafe == t.lastSafe && s.lastThinking == t.lastThinking
    && s.streamed == t.streamed && s.blocksSent == t.begun
    && s.pending + t.uncounted + (if t.talking then 1 else 0) == |t.calls| + t.skipped
  }

  /** Nothing is counted before there is a call. */
  predicate Sane(t: Talk) {
    t.calls == [] ==> !t.talking && !t.native && !t.stale && t.uncounted == 0 && t.skipped == 0 && t.begun == 0
  }

  lemma CompletedArguments(s: Stream, expected: Option<string>)
    requires s.tool.Some?
    ensures
      var t, r := Completed(s, expected), Arguments(s.codec, s.tool.value.jsonBuf, s.parser, expected);
      t.tool.value.jsonBuf == r.0 && t.parser == r.1
  {
    hide Body, ShapeOf, EmitPieces, Drain, EmitFinal, Missing, FinalJson, Solid, Json;
    var a := Drain(s);
    var b := EmitFinal(a);
    assert b.tool.value.jsonBuf + "" == b.tool.value.jsonBuf;
  }

  /** Finishing the open tool is completing the call being said. */
  lemma FinishMatches(s: Stream, t: Talk, expected: Option<string>)
    requires Matches(s, t) && t.talking
    ensures
      var r, u := Finish(s, expected), CompleteCall(s.codec, t, expected);
      && Poised(r, u) && Hears(r) == u.calls && !u.talking && r.parser == u.parser
      && |u.calls| == |t.calls| && u == t.(calls := u.calls, talking := false, parser := u.parser)
  {
    hide Body, ShapeOf, Heard, Completed, Arguments, Flush;
    FinishHeard(s, expected);
    CompletedArguments(s, expected);
    assert Finish(s, expected).parser == Completed(s, expected).parser by { FinishParser(s, expected); }
  }

  lemma FinishParser(s: Stream, expected: Option<string>)
    requires s.tool.Some?
    ensures Finish(s, expected).parser == Completed(s, expected).parser
    ensures Flush(s, expected).parser == Completed(s, expected).parser
  {
    hide Body, ShapeOf, Completed;
  }

  lemma LeaveMatches(s: Stream, t: Talk)
    requires Matches(s, t) && t.talking
    ensures Matches(Finish(s, None), Leave(s.codec, t))
  {
    hide Body, ShapeOf, Heard, Finish, CompleteCall;
    FinishMatches(s, t, None);
  }

  lemma DeltaMatches(s: Stream, t: Talk, d: ToolDelta)
    requires Matches(s, t) && !t.stale
    ensures Matches(ApplyDelta(s, d), Say(s.codec, t, d))
  {
    hide Body, ShapeOf, Heard, Completed, Arguments, Flush, EmitPieces, OpenBlock, CloseBlock, ApplyDelta;
    DeltaHeard(s, d);
    DeltaParser(s, d);
    DeltaFrame(s, d);
    if s.tool.Some? {
      CompletedArguments(CloseOther(s), None);
      assert CloseOther(s).codec == s.codec && CloseOther(s).tool == s.tool && CloseOther(s).parser == s.parser;
    }
  }

  lemma DeltaParser(s: Stream, d: ToolDelta)
    ensures
      var t := ApplyDelta(s, d);
      && t.tool.Some?
      && (if s.tool.Some? && s.tool.value.name != d.name then t.parser == Completed(CloseOther(s), None).parser
          else t.parser == s.parser)
      && (s.tool.None? || s.blockType != NativeTool ==> t.blockType != NativeTool)
  {
    hide Body, ShapeOf, Completed, EmitPieces, OpenBlock, CloseBlock;
    if s.tool.Some? { FinishParser(CloseOther(s), None); }
  }

  lemma DeltaFrame(s: Stream, d: ToolDelta)
    ensures
      var t := ApplyDelta(s, d);
      && t.codec == s.codec && t.parser.text == s.parser.text && t.parser.thinking == s.parser.thinking
      && t.pending == s.pending
  {
    hide *;
  }

  lemma {:induction false} DeltasMatch(s: Stream, t: Talk)
    requires Matches(s, t) && !t.stale
    ensures Matches(StreamDeltas(s), SayAll(s.codec, t)) && StreamDeltas(s).codec == s.codec
    decreases |s.parser.deltas|
  {
    hide Body, ShapeOf, Hears, OpenIsLast, ApplyDelta, Say, Consume;
    var (d, p) := Consume(s.parser);
    var a, b := s.(parser := p), t.(parser := p);
    SameCalls(s, a);
    assert Hears(a) == Hears(s) by { SameWire(s, a); }
    assert Matches(a, b);
    if d.Some? {
      DeltaMatches(a, b, d.value);
      DeltaFrame(a, d.value);
      DeltasMatch(ApplyDelta(a, d.value), Say(s.codec, b, d.value));
    }
  }

  lemma SameWire(s: Stream, t: Stream)
    requires s.wire == t.wire
    ensures Hears(s) == Hears(t)
  {}

  /** What matters for matching, apart from the calls. */
  ghost predicate SameAccounts(s: Stream, r: Stream) {
    r.codec == s.codec && r.pending == s.pending && r.streamed == s.streamed && r.blocksSent == s.blocksSent
  }

  lemma DeltasAccounts(s: Stream)
    ensures SameAccounts(s, StreamDeltas(s))
    decreases |s.parser.deltas|
  {
    hide Body, ShapeOf, ApplyDelta, Consume;
    var (d, p) := Consume(s.parser);
    if d.Some? {
      DeltaFrame(s.(parser := p), d.value);
      DeltasAccounts(ApplyDelta(s.(parser := p), d.value));
    }
  }

  lemma SayAllParser(c: Codec, t: Talk)
    ensures
      var u := SayAll(c, t);
      && u.parser.text == t.parser.text && u.parser.thinking == t.parser.thinking && u.parser.ready == t.parser.ready
      && u.begun == t.begun
    decreases |t.parser.deltas|
  {
    hide Consume;
    var (d, p) := Consume(t.parser);
    if d.Some? { SayAllParser(c, Say(c, t.(parser := p), d.value)); }
  }

  lemma StreamToolsMatch(s: Stream, t: Talk)
    requires Matches(s, t) && !t.stale
    ensures Matches(StreamTools(s), Begin(t, SayAll(s.codec, t))) && StreamTools(s).codec == s.codec
  {
    hide Body, ShapeOf, Hears, OpenIsLast, StreamDeltas, SayAll;
    DeltasMatch(s, t);
    DeltasAccounts(s);
    var a := StreamDeltas(s);
    SameCalls(a, StreamTools(s));
    SameWire(a, StreamTools(s));
  }

  lemma ThinkingFrame(s: Stream, content: string)
    ensures
      var r := SendThinking(s, content);
      && SameAccounts(s, r) && r.tool.None? && r.blockType == ThinkingBlock
      && r.parser == if s.tool.Some? then Finish(s, None).parser else s.parser
  {
    hide Body, ShapeOf, Finish, CloseBlock, OpenBlock;
  }

  lemma ThinkingMatches(s: Stream, t: Talk, content: string)
    requires Matches(s, t) && !t.stale
    ensures Matches(SendThinking(s, content), Leave(s.codec, t))
  {
    hide Body, ShapeOf, Heard, SendThinking, Finish, CompleteCall;
    ThinkingHeard(s, content);
    ThinkingFrame(s, content);
    if t.talking {
      FinishHeard(s, None);
      LeaveMatches(s, t);
    }
  }

  lemma PartialThinkingMatches(s: Stream, t: Talk)
    requires Matches(s, t) && !t.stale
    ensures Matches(PartialThinking(s), Think(s.codec, t)) && PartialThinking(s).codec == s.codec
  {
    hide Body, ShapeOf, Hears, OpenIsLast, SendThinking, Leave, Grown, Mark;
    var a, b := s.(lastThinking := Mark(s.lastThinking, s.parser.thinking)),
                t.(lastThinking := Mark(t.lastThinking, t.parser.thinking));
    SameCalls(s, a);
    SameWire(s, a);
    ThinkingMatches(a, b, Grown(s.lastThinking, s.parser.thinking));
    ThinkingFrame(a, Grown(s.lastThinking, s.parser.thinking));
  }

  lemma TextDeltaAccounts(s: Stream, text: string)
    requires s.tool.None?
    ensures SameAccounts(s, TextDelta(s, text))
  {
    hide Body, ShapeOf;
  }

  lemma TextMatches(s: Stream, t: Talk, text: string)
    requires Matches(s, t) && !t.stale
    ensures Matches(GrownText(s, text), Speak(s.codec, t, text)) && GrownText(s, text).codec == s.codec
  {
    hide Body, ShapeOf, Heard, TextDelta, Finish, CompleteCall, Grown, Mark;
    TextHeard(s, text);
    var a, b := s.(lastSafe := Mark(s.lastSafe, text)), t.(lastSafe := Mark(t.lastSafe, text));
    SameCalls(s, a);
    if b.talking {
      FinishHeard(a, None);
      LeaveMatches(a, b);
    }
    var d := if a.tool.Some? then Finish(a, None) else a;
    TextDeltaAccounts(d, Grown(s.lastSafe, text));
    TextDeltaHeard(d, Grown(s.lastSafe, text));
  }

  lemma EmitReadyMatches(s: Stream, t: Talk, ready: seq<ToolCall>)
    requires Matches(s, t) && s.tool.None?
    ensures Matches(EmitReady(s, ready), Add(s.codec, t, ready))
    ensures EmitReady(s, ready).codec == s.codec && EmitReady(s, ready).allCalls == s.allCalls
  {
    hide Body, ShapeOf, Heard, EmitReady, Rendered;
    EmitReadyHeard(s, ready);
    EmitReadyFrame(s, ready);
  }

  lemma ReadyCompletes(s: Stream, t: Talk, ready: seq<ToolCall>)
    requires Matches(s, t) && t.talking && ready != []
    ensures Matches(HandleReady(s, ready), Announce(s.codec, t, ready))
  {
    hide Body, ShapeOf, Heard, Finish, CompleteCall, ExpectedArguments, EmitReady;
    var a, b := s.(streamed := s.streamed + ready), t.(streamed := t.streamed + ready);
    var expected := ExpectedArguments(ready, s.tool.value.name);
    SameCalls(s, a);
    FinishMatches(a, b, expected);
  }

  lemma ReadyMatches(s: Stream, t: Talk, ready: seq<ToolCall>)
    requires Matches(s, t) && !t.stale
    ensures Matches(HandleReady(s, ready), Announce(s.codec, t, ready)) && HandleReady(s, ready).codec == s.codec
  {
    hide Body, ShapeOf, Heard, Finish, CompleteCall, ExpectedArguments, EmitReady, Add;
    if ready == [] {
      NoReady(s);
    } else if t.talking {
      ReadyCompletes(s, t, ready);
    } else {
      var a, b := s.(streamed := s.streamed + ready), t.(streamed := t.streamed + ready);
      SameCalls(s, a);
      EmitReadyMatches(a, b, ready);
    }
  }

  lemma NoReady(s: Stream)
    ensures HandleReady(s, []) == s
  {
    hide Body, ShapeOf;
  }

  lemma AnswerMatches(s: Stream, t: Talk, p: Parser, ready: seq<ToolCall>)
    requires Matches(s, t) && !Touches(t, Answer(p, ready))
    ensures Matches(AnswerStep(s, p, ready), Reply(s.codec, t, p, ready))
    ensures AnswerStep(s, p, ready).codec == s.codec
  {
    hide Body, ShapeOf, Hears, OpenIsLast, StreamTools, PartialThinking, GrownText, HandleReady, SayAll, Think, Speak,
         Announce, Grown, Mark, AnswerStep, Solid;
    if t.stale {
      SilentAnswer(s, t, p);
    } else {
      var a, b := s.(parser := p), t.(parser := p);
      SameCalls(s, a);
      SameWire(s, a);
      StreamToolsMatch(a, b);
      var u := StreamTools(a);
      var v := Begin(b, SayAll(s.codec, b));
      PartialThinkingMatches(u, v);
      TextMatches(PartialThinking(u), Think(s.codec, v), p.text);
      ReadyMatches(GrownText(PartialThinking(u), p.text), Speak(s.codec, Think(s.codec, v), p.text), ready);
      AnswerIs(s, p, ready);
    }
  }

  lemma NothingToSay(c: Codec, t: Talk)
    requires Solid(t.parser.deltas) == []
    ensures SayAll(c, t) == t.(parser := t.parser.(deltas := []))
  {
    hide Say;
  }

  /** An answer that leaves a stale call alone brings nothing. */
  lemma SilentAnswer(s: Stream, t: Talk, p: Parser)
    requires Matches(s, t) && t.stale && !Touches(t, Answer(p, []))
    ensures Matches(AnswerStep(s, p, []), Reply(s.codec, t, p, [])) && AnswerStep(s, p, []).codec == s.codec
  {
    hide Body, ShapeOf, Heard, SayAll, Solid, StreamDeltas, Grown, Mark, SendThinking, TextDelta, Finish, CompleteCall;
    NothingToSay(s.codec, t.(parser := p));
  }

  lemma NativeMatches(s: Stream, t: Talk, hasId: bool, name: string, arguments: string)
    requires Matches(s, t)
    ensures Matches(NativeStep(s, hasId, name, arguments), Pass(t, hasId, name, arguments))
    ensures NativeStep(s, hasId, name, arguments).codec == s.codec
  {
    hide Body, ShapeOf, Heard, CloseBlock, OpenBlock, Put;
    CloseHeard(s);
    var a := if s.blockType != NoBlock then CloseBlock(s) else s;
    OpenHeard(a, NativeTool, Tool, name);
    var b := if hasId then OpenBlock(a, NativeTool, Tool, name).(pending := s.pending + 1) else s;
    assert Hears(b) == if hasId then Hears(s) + [ToolCall(name, "")] else Hears(s);
    PutHeard(b, Delta(b.blockIdx, Tool, arguments));
  }

  lemma StartMatches(s: Stream, t: Talk)
    requires Matches(s, t)
    ensures Matches(EnsureStart(s), t.(started := true))
  {
    hide Body, ShapeOf, Heard;
    PutHeard(s, MessageStart);
  }

  lemma DispatchMatches(s: Stream, t: Talk, e: Upstream)
    requires Matches(s, t) && s.started == t.started && !Touches(t, e)
    ensures
      var r, u := Dispatch(s, e), TalkStep(s.codec, t, e);
      Matches(r, u) && r.codec == s.codec && r.started == u.started
  {
    hide Body, ShapeOf, Hears, OpenIsLast, SendThinking, AnswerStep, NativeStep, EnsureStart, Pass, Reply, Leave, Solid,
         Grown;
    StartMatches(s, t);
    var a, b := if Announces(e) then EnsureStart(s) else s, t.(started := t.started || Announces(e));
    assert Matches(a, b);
    match e
    case ThinkingPart(content) =>
      if content != "" {
        ThinkingMatches(a, b, content);
        ThinkingFrame(a, content);
      }
    case Answer(p, ready) =>
      AnswerMatches(a, b, p, ready);
    case Native(_, hasId, _, name, arguments) =>
      NativeMatches(a, b, hasId, name, arguments);
      NativeStarted(a, b, hasId, name, arguments);
    case _ =>
  }

  lemma NativeStarted(s: Stream, t: Talk, hasId: bool, name: string, arguments: string)
    ensures NativeStep(s, hasId, name, arguments).started == s.started
    ensures Pass(t, hasId, name, arguments).started == t.started
  {
    hide Body, ShapeOf;
  }

  /** As long as no call left behind is touched, the handler keeps to the
      account. */
  lemma {:induction false} EventsMatch(s: Stream, t: Talk, es: seq<Upstream>)
    requires Matches(s, t) && s.started == t.started && !TouchedIn(s.codec, t, es)
    ensures
      var r, u := Events(s, es), TalkAll(s.codec, t, es);
      Matches(r, u) && r.codec == s.codec && r.started == u.started
    decreases |es|
  {
    hide Body, ShapeOf, Matches, Dispatch, TalkStep, Events, Touches;
    EventsUnfold(s, es);
    if es != [] {
      DispatchMatches(s, t, es[0]);
      EventsMatch(Dispatch(s, es[0]), TalkStep(s.codec, t, es[0]), es[1..]);
    }
  }

  // ---- The end of the stream --------------------------------------------

  lemma LeftoversMatch(s: Stream, t: Talk, text: string)
    requires Matches(s, t) && Apart(s) && !t.stale
    ensures Matches(Leftovers(s, text), Speak(s.codec, Think(s.codec, t), text)) && Leftovers(s, text).codec == s.codec
  {
    hide Body, ShapeOf, Heard, PartialThinking, GrownText, TextDelta, Think, Leave, Grown, Mark;
    PartialThinkingMatches(s, t);
    var a, b := PartialThinking(s), Think(s.codec, t);
    TextMatches(a, b, text);
    if a.tool.None? {
      var d := a.(lastSafe := Mark(a.lastSafe, text));
      TextDeltaHeard(d, "");
      TextDeltaAccounts(d, "");
    }
  }

  lemma AccountsOfLeftovers(s: Stream, text: string)
    requires Apart(s)
    ensures Leftovers(s, text).allCalls == s.allCalls
  {
    hide Body, ShapeOf, Grown, Mark, CloseBlock, OpenBlock, Finish;
  }

  lemma HandleReadyCalls(s: Stream, ready: seq<ToolCall>)
    ensures HandleReady(s, ready).allCalls == s.allCalls
  {
    hide Body, ShapeOf, Finish, EmitReady, ExpectedArguments;
    EmitReadyFrame(s.(streamed := s.streamed + ready), ready);
  }

  lemma FinalizeMatches(s: Stream, t: Talk)
    requires Matches(s, t) && !t.stale
    ensures Matches(FinalizeTools(s), Settle(s.codec, t, s.allCalls))
    ensures FinalizeTools(s).codec == s.codec && FinalizeTools(s).allCalls == s.allCalls
  {
    hide Body, ShapeOf, Heard, HandleReady, EmitReady, Finish, CompleteCall, Announce, Rendered;
    var (late, p) := TakeReady(s.parser);
    var (again, q) := TakeReady(p);
    var a, b := s.(parser := q), t.(parser := q);
    SameCalls(s, a);
    SameWire(s, a);
    if late != [] {
      ReadyMatches(a, b, again);
      HandleReadyCalls(a, again);
    } else if s.tool.None? {
      EmitReadyMatches(a, b, again);
    } else {
      var expected := if s.allCalls == [] then None else Some(s.allCalls[0].arguments);
      SameCalls(s, s.(parser := p));
      SameWire(s, s.(parser := p));
      FinishMatches(s.(parser := p), t.(parser := p), expected);
    }
  }

  /** An end that leaves a stale call alone brings nothing. */
  lemma SilentEnd(s: Stream, t: Talk, end: Ending)
    requires Matches(s, t) && Apart(s) && t.stale && !EndTouches(t, end)
    ensures
      var a, b := Leftovers(s.(parser := end.parser, allCalls := end.calls), FinalText(end)),
                  Leftover(s.codec, t, end);
      var r, u := FinalizeTools(a), Settle(s.codec, b, end.calls);
      Matches(r, u) && r.codec == s.codec && r.allCalls == end.calls
  {
    hide Body, ShapeOf, Heard, FinalText, Grown, Mark, SendThinking, TextDelta, Finish, CompleteCall;
  }

  /** What the client hears, and what is counted, once the stream is settled. */
  lemma CompleteTells(s: Stream, t: Talk, end: Ending)
    requires Matches(s, t) && Apart(s) && !EndTouches(t, end)
    ensures
      var r, u := Complete(s, end), Settle(s.codec, Leftover(s.codec, t, end), end.calls);
      var all := AllCalls(u, end.calls);
      && Hears(r) == u.calls && r.codec == s.codec
      && Merged(r) == all && r.pending == Max(0, Counted(u, all))
  {
    hide Body, ShapeOf, Hears, OpenIsLast, Leftovers, FinalizeTools, CloseBlock, Think, Speak, Settle, FinalText,
         EnsureStart;
    var a, b := s.(parser := end.parser, allCalls := end.calls), t.(parser := end.parser);
    var d := Leftovers(a, FinalText(end));
    if t.stale {
      SilentEnd(s, t, end);
    } else {
      SameCalls(s, a);
      SameWire(s, a);
      LeftoversMatch(a, b, FinalText(end));
      AccountsOfLeftovers(a, FinalText(end));
      FinalizeMatches(d, Leftover(s.codec, t, end));
    }
    SettlingKeepsCalls(FinalizeTools(d));
  }

  lemma SilenceMatches(codec: Codec)
    ensures Matches(Init(codec), Silence) && Apart(Init(codec)) && Init(codec).started == Silence.started
  {}

  /** Whatever the parser says and announces and whatever native calls there
      are: the client ends up with exactly the calls the account tells, each with
      the JSON it tells, and then the calls of the answer that are not counted as
      sent. */
  lemma ClientHears(codec: Codec, es: seq<Upstream>, end: Ending)
    requires !Touched(codec, es, end)
    ensures Hears(Run(codec, es, end)) == Delivered(codec, es, end)
  {
    hide Body, ShapeOf, Hears, Matches, Events, Complete, PostStream, TalkAll, Settle, Leftover, Counted, Rendered,
         Apart;
    SilenceMatches(codec);
    EventsMatch(Init(codec), Silence, es);
    var a := Events(Init(codec), es);
    CompleteTells(a, TalkAll(codec, Silence, es), end);
    PostStreamHeard(Complete(a, end));
  }

  // ---- Which runs leave stale calls alone -------------------------------

  lemma {:induction false} NeverStale(c: Codec, t: Talk, es: seq<Upstream>)
    requires !t.stale && forall e :: e in es ==> !e.Native?
    ensures !TouchedIn(c, t, es) && !TalkAll(c, t, es).stale
    decreases |es|
  {
    hide Leave, Reply;
    if es != [] {
      assert es[0] in es;
      NeverStale(c, TalkStep(c, t, es[0]), es[1..]);
    }
  }

  lemma UntouchedWithoutNatives(codec: Codec, es: seq<Upstream>, end: Ending)
    requires forall e :: e in es ==> !e.Native?
    ensures !Touched(codec, es, end)
  {
    NeverStale(codec, Silence, es);
  }

  lemma TouchClashes(s: Stream, t: Talk, e: Upstream)
    requires Matches(s, t) && Touches(t, e)
    ensures Clashes(s, e)
  {
    hide Hears, OpenIsLast, Solid, Grown;
  }

  lemma {:induction false} TouchedInClashes(s: Stream, t: Talk, es: seq<Upstream>)
    requires Matches(s, t) && s.started == t.started && TouchedIn(s.codec, t, es)
    ensures RunClashes(s, es)
    decreases |es|
  {
    hide Matches, Touches, Clashes, Dispatch, TalkStep;
    if Touches(t, es[0]) {
      TouchClashes(s, t, es[0]);
    } else {
      DispatchMatches(s, t, es[0]);
      TouchedInClashes(Dispatch(s, es[0]), TalkStep(s.codec, t, es[0]), es[1..]);
    }
  }

  /** Touching a call that was left behind makes the whole trace malformed. */
  lemma TouchedBreaks(codec: Codec, es: seq<Upstream>, end: Ending)
    requires Touched(codec, es, end)
    ensures !Clean(codec, es, end) && ShapeOf(Run(codec, es, end).wire) == Broken
  {
    hide Body, ShapeOf, Run, Events, RunClashes, TalkAll, Matches, TouchedIn, Grown, FinalText, Coherent;
    SilenceMatches(codec);
    if TouchedIn(codec, Silence, es) {
      TouchedInClashes(Init(codec), Silence, es);
    } else if !RunClashes(Init(codec), es) {
      EventsMatch(Init(codec), Silence, es);
      InitIsCoherent(codec);
      EventsShape(Init(codec), es);
      EndTouchClashes(Events(Init(codec), es), TalkAll(codec, Silence, es), end);
    }
    RunIsWellFormed(codec, es, end);
  }

  lemma EndTouchClashes(s: Stream, t: Talk, end: Ending)
    requires Matches(s, t) && Coherent(s) && EndTouches(t, end)
    ensures EndClashes(s, end)
  {
    hide Body, ShapeOf, Hears, OpenIsLast, Grown, FinalText;
  }

  // ---- What is complete stays -------------------------------------------

  /** The calls the parser is not saying. */
  function Firm(t: Talk): seq<ToolCall> {
    if t.talking && t.calls != [] then t.calls[..|t.calls| - 1] else t.calls
  }

  /** The calls that are complete: all but the last one while it is being said,
      by the parser or by the upstream. */
  function Done(t: Talk): seq<ToolCall> {
    if (t.talking || t.native) && t.calls != [] then t.calls[..|t.calls| - 1] else t.calls
  }

  /** At most one of the parser and the upstream is saying the last call. */
  predicate Steady(t: Talk) { !(t.talking && t.native) }

  /** Without native calls: what is firm stays, and a native call is still the
      last one only if nothing was said since. */
  predicate Moves(t: Talk, u: Talk) {
    && Firm(t) <= Firm(u)
    && (u.native ==> t.native && !u.talking && u.calls == t.calls)
  }

  lemma MovesOn(t: Talk, u: Talk, v: Talk)
    requires Moves(t, u) && Moves(u, v)
    ensures Moves(t, v)
  {
    hide Firm;
  }

  /** The rest of the account does not matter. */
  lemma SameMoves(t: Talk, u: Talk)
    requires Steady(t) && t.calls == u.calls && t.talking == u.talking && t.native == u.native
    ensures Moves(t, u)
  {}

  lemma MovesKeepsDone(t: Talk, u: Talk)
    requires Moves(t, u)
    ensures Steady(u) && Done(t) <= Done(u) <= u.calls
  {}

  lemma LeaveMoves(c: Codec, t: Talk)
    ensures Moves(t, Leave(c, t)) && !Leave(c, t).native
  {
    hide Arguments;
  }

  lemma SayMoves(c: Codec, t: Talk, d: ToolDelta)
    requires Steady(t)
    ensures Moves(t, Say(c, t, d)) && Steady(Say(c, t, d))
  {
    hide Leave;
    LeaveMoves(c, t);
    var a := Leave(c, t);
    assert (a.calls + [ToolCall(d.name, d.json)])[..|a.calls|] == a.calls;
  }

  lemma {:induction false} SayAllMoves(c: Codec, t: Talk)
    requires Steady(t)
    ensures Moves(t, SayAll(c, t)) && Steady(SayAll(c, t))
    decreases |t.parser.deltas|
  {
    hide Consume, Say, Moves;
    var (d, p) := Consume(t.parser);
    var a := t.(parser := p);
    SameMoves(t, a);
    if d.Some? {
      var b := Say(c, a, d.value);
      SayMoves(c, a, d.value);
      SayAllMoves(c, b);
      MovesOn(t, a, b);
      MovesOn(t, b, SayAll(c, b));
    }
  }

  lemma SpeechMoves(c: Codec, t: Talk, text: string)
    requires Steady(t)
    ensures Moves(t, Think(c, t)) && Moves(t, Speak(c, t, text)) && Steady(Think(c, t)) && Steady(Speak(c, t, text))
  {
    hide Leave, Grown, Mark;
    LeaveMoves(c, t.(lastThinking := Mark(t.lastThinking, t.parser.thinking)));
    LeaveMoves(c, t.(lastSafe := Mark(t.lastSafe, text)));
  }

  lemma AnnounceMoves(c: Codec, t: Talk, ready: seq<ToolCall>)
    requires Steady(t)
    ensures Moves(t, Announce(c, t, ready)) && Steady(Announce(c, t, ready))
  {
    hide Arguments, ExpectedArguments;
  }

  lemma ReplyMoves(c: Codec, t: Talk, p: Parser, ready: seq<ToolCall>)
    requires Steady(t)
    ensures Moves(t, Reply(c, t, p, ready))
  {
    hide SayAll, Think, Speak, Announce, Moves;
    var a := t.(parser := p);
    SameMoves(t, a);
    SayAllMoves(c, a);
    MovesOn(t, a, SayAll(c, a));
    var b := Begin(a, SayAll(c, a));
    SameMoves(SayAll(c, a), b);
    MovesOn(t, SayAll(c, a), b);
    SpeechMoves(c, b, p.text);
    var d := Think(c, b);
    MovesOn(t, b, d);
    SpeechMoves(c, d, p.text);
    var e := Speak(c, d, p.text);
    MovesOn(t, d, e);
    AnnounceMoves(c, e, ready);
    MovesOn(t, e, Announce(c, e, ready));
  }

  lemma StepMoves(c: Codec, t: Talk, e: Upstream)
    requires Steady(t) && !e.Native?
    ensures Moves(t, TalkStep(c, t, e))
  {
    hide Leave, Reply, Moves;
    var a := t.(started := t.started || Announces(e));
    SameMoves(t, a);
    match e
    case ThinkingPart(content) =>
      LeaveMoves(c, a);
      MovesOn(t, a, Leave(c, a));
    case Answer(p, ready) =>
      ReplyMoves(c, a, p, ready);
      MovesOn(t, a, Reply(c, a, p, ready));
    case _ =>
  }

  lemma EndMoves(c: Codec, t: Talk, end: Ending)
    requires Steady(t)
    ensures Moves(t, Settle(c, Leftover(c, t, end), end.calls))
  {
    hide Think, Speak, Settle, FinalText, Moves;
    var a := t.(parser := end.parser);
    SameMoves(t, a);
    SpeechMoves(c, a, FinalText(end));
    var b := Think(c, a);
    MovesOn(t, a, b);
    SpeechMoves(c, b, FinalText(end));
    var d := Speak(c, b, FinalText(end));
    MovesOn(t, b, d);
    SettleMoves(c, d, end.calls);
    MovesOn(t, d, Settle(c, d, end.calls));
  }

  lemma SettleMoves(c: Codec, t: Talk, calls: seq<ToolCall>)
    requires Steady(t)
    ensures Moves(t, Settle(c, t, calls))
  {
    hide Arguments, Announce;
    var (late, p) := TakeReady(t.parser);
    var (again, q) := TakeReady(p);
    AnnounceMoves(c, t.(parser := q), again);
  }

  lemma PassKeepsDone(t: Talk, hasId: bool, name: string, arguments: string)
    requires Steady(t)
    ensures Done(t) <= Done(Pass(t, hasId, name, arguments)) && Steady(Pass(t, hasId, name, arguments))
  {}

  lemma StepKeepsDone(c: Codec, t: Talk, e: Upstream)
    requires Steady(t)
    ensures Done(t) <= Done(TalkStep(c, t, e)) && Steady(TalkStep(c, t, e))
  {
    hide Leave, Reply, Pass, Moves;
    if e.Native? {
      PassKeepsDone(t.(started := t.started || Announces(e)), e.hasId, e.name, e.arguments);
    } else {
      StepMoves(c, t, e);
      MovesKeepsDone(t, TalkStep(c, t, e));
    }
  }

  lemma {:induction false} TalkKeepsDone(c: Codec, t: Talk, es: seq<Upstream>)
    requires Steady(t)
    ensures Done(t) <= Done(TalkAll(c, t, es)) && Steady(TalkAll(c, t, es))
    decreases |es|
  {
    hide Done, TalkStep;
    if es != [] {
      StepKeepsDone(c, t, es[0]);
      TalkKeepsDone(c, TalkStep(c, t, es[0]), es[1..]);
    }
  }

  lemma {:induction false} TalkAppend(c: Codec, t: Talk, es: seq<Upstream>, more: seq<Upstream>)
    ensures TalkAll(c, t, es + more) == TalkAll(c, TalkAll(c, t, es), more)
    ensures TouchedIn(c, t, es + more) == (TouchedIn(c, t, es) || TouchedIn(c, TalkAll(c, t, es), more))
    decreases |es|
  {
    hide TalkStep, Touches;
    if es == [] {
      assert es + more == more;
    } else {
      TalkAppend(c, TalkStep(c, t, es[0]), es[1..], more);
      assert (es + more)[1..] == es[1..] + more;
    }
  }

  /** Over a whole run: a call that is complete at some moment is never changed,
      moved or taken back; and at every moment the open tool, unless a native call
      has left it behind, is the last call, with its name and exactly its JSON. */
  lemma CompleteCallsStay(codec: Codec, es: seq<Upstream>, more: seq<Upstream>, end: Ending)
    requires !Touched(codec, es + more, end)
    ensures
      var a, b := Events(Init(codec), es), Events(Init(codec), es + more);
      && (OpenIsLast(a) || Stale(a))
      && Settled(a) <= Settled(b) && Settled(b) <= Hears(Run(codec, es + more, end))
  {
    hide Body, ShapeOf, Hears, OpenIsLast, Run, Events, TalkAll, Settle, Leftover, Rendered, Counted;
    SilenceMatches(codec);
    TalkAppend(codec, Silence, es, more);
    EventsMatch(Init(codec), Silence, es);
    EventsMatch(Init(codec), Silence, es + more);
    var u := TalkAll(codec, Silence, es + more);
    TalkKeepsDone(codec, Silence, es);
    TalkKeepsDone(codec, TalkAll(codec, Silence, es), more);
    EndMoves(codec, u, end);
    MovesKeepsDone(u, Told(codec, es + more, end));
    ClientHears(codec, es + more, end);
    PrefixMore(Done(u), Told(codec, es + more, end).calls, Delivered(codec, es + more, end));
  }

  lemma PrefixMore(a: seq<ToolCall>, b: seq<ToolCall>, d: seq<ToolCall>)
    requires a <= b <= d
    ensures a <= d
  {}

  // ---- When each call arrives once --------------------------------------

  lemma {:induction false} RenderedDrop(c: Codec, all: seq<ToolCall>, n: nat)
    ensures |Rendered(c, Drop(all, n))| == |all| - Min(n, |all|)
    ensures forall k :: 0 <= k < |all| - Min(n, |all|) ==>
      Rendered(c, Drop(all, n))[k] == ToolCall(all[n + k].name, c.render(all[n + k].arguments))
  {}

  /** In the end the client gets exactly the calls beyond those it has if and
      only if as many are counted as sent as were said, up to the length of the
      list. If fewer are counted the calls in between arrive twice, if more are
      they never arrive. */
  lemma EachCallArrivesOnce(codec: Codec, es: seq<Upstream>, end: Ending)
    requires !Touched(codec, es, end)
    ensures
      var t := Told(codec, es, end);
      var all := AllCalls(t, end.calls);
      var sent := Max(0, Counted(t, all));
      && |Hears(Run(codec, es, end))| == |t.calls| + |all| - Min(sent, |all|)
      && (Hears(Run(codec, es, end)) == t.calls + Rendered(codec, Drop(all, |t.calls|))
          <==> Min(sent, |all|) == Min(|t.calls|, |all|))
  {
    hide Run, Told, Counted, Hears, Rendered;
    ClientHears(codec, es, end);
    var t := Told(codec, es, end);
    var all := AllCalls(t, end.calls);
    var sent := Max(0, Counted(t, all));
    RenderedDrop(codec, all, sent);
    RenderedDrop(codec, all, |t.calls|);
    SameDrop(all, sent, |t.calls|);
    SameTail(t.calls, Rendered(codec, Drop(all, sent)), Rendered(codec, Drop(all, |t.calls|)));
  }

  lemma SameDrop(all: seq<ToolCall>, m: nat, n: nat)
    ensures Min(m, |all|) == Min(n, |all|) ==> Drop(all, m) == Drop(all, n)
  {}

  lemma SameTail(a: seq<ToolCall>, b: seq<ToolCall>, c: seq<ToolCall>)
    ensures a + b == a + c <==> b == c
  {
    if a + b == a + c { assert b == (a + b)[|a|..] && c == (a + c)[|a|..]; }
  }

  /** A call as it arrived agrees with one of the final list: it has its name,
      and its arguments as printed or as equal JSON. */
  predicate Agrees(c: Codec, heard: ToolCall, call: ToolCall) {
    heard.name == call.name
    && (heard.arguments == c.render(call.arguments) || JsonEqual(c, heard.arguments, call.arguments))
  }

  predicate AgreeAll(c: Codec, heard: seq<ToolCall>, calls: seq<ToolCall>) {
    |heard| == |calls| && forall k :: 0 <= k < |heard| ==> Agrees(c, heard[k], calls[k])
  }

  /** The client has exactly the parser's final list if and only if as many of
      its calls were said as are counted, and those agree with it. */
  lemma ClientHearsTheFinalList(codec: Codec, es: seq<Upstream>, end: Ending)
    requires !Touched(codec, es, end) && end.calls != []
    ensures
      var t := Told(codec, es, end);
      var n := |t.calls|;
      AgreeAll(codec, Hears(Run(codec, es, end)), end.calls)
      <==> n == Min(Max(0, Counted(t, end.calls)), |end.calls|) && AgreeAll(codec, t.calls, end.calls[..n])
  {
    hide *;
    ClientHears(codec, es, end);
    DeliveredIs(codec, es, end);
    var t := Told(codec, es, end);
    AgreeAfter(codec, t.calls, end.calls, Max(0, Counted(t, end.calls)));
  }

  lemma DeliveredIs(c: Codec, es: seq<Upstream>, end: Ending)
    requires end.calls != []
    ensures
      var t := Told(c, es, end);
      && Delivered(c, es, end) == t.calls + Rendered(c, Drop(end.calls, Max(0, Counted(t, end.calls))))
      && Max(0, Counted(t, end.calls)) >= 0
  {
    hide Told, Counted, Rendered;
  }

  lemma AgreeAfter(c: Codec, said: seq<ToolCall>, all: seq<ToolCall>, sent: nat)
    ensures
      var n := |said|;
      AgreeAll(c, said + Rendered(c, Drop(all, sent)), all) <==> n == Min(sent, |all|) && AgreeAll(c, said, all[..n])
  {
    hide Rendered, Agrees;
    RenderedDrop(c, all, sent);
    var rest, n := Rendered(c, Drop(all, sent)), |said|;
    var heard := said + rest;
    if n == Min(sent, |all|) {
      forall k | n <= k < |heard| ensures Agrees(c, heard[k], all[k]) {
        assert heard[k] == rest[k - n];
        PrintedAgrees(c, all[k]);
      }
      AgreePrefix(c, said, rest, all);
    }
  }

  lemma AgreePrefix(c: Codec, said: seq<ToolCall>, rest: seq<ToolCall>, all: seq<ToolCall>)
    requires |said| + |rest| == |all|
    requires forall k :: |said| <= k < |all| ==> Agrees(c, (said + rest)[k], all[k])
    ensures AgreeAll(c, said + rest, all) <==> AgreeAll(c, said, all[..|said|])
  {
    hide Agrees;
    var heard := said + rest;
    forall k | 0 <= k < |said| ensures heard[k] == said[k] && all[..|said|][k] == all[k] {}
    if AgreeAll(c, heard, all) {
      forall k | 0 <= k < |said| ensures Agrees(c, said[k], all[..|said|][k]) { assert Agrees(c, heard[k], all[k]); }
    }
    if AgreeAll(c, said, all[..|said|]) {
      forall k | 0 <= k < |all| ensures Agrees(c, heard[k], all[k]) {
        if k < |said| { assert Agrees(c, said[k], all[..|said|][k]); }
      }
    }
  }

  lemma PrintedAgrees(c: Codec, call: ToolCall)
    ensures Agrees(c, ToolCall(call.name, c.render(call.arguments)), call)
  {}

  // ---- The stop reason --------------------------------------------------

  lemma LeaveIsSane(c: Codec, t: Talk)
    requires Sane(t)
    ensures Sane(Leave(c, t)) && |Leave(c, t).calls| == |t.calls|
    ensures Leave(c, t).begun == t.begun && !Leave(c, t).talking
  {
    hide Arguments;
  }

  lemma {:induction false} SayAllIsSane(c: Codec, t: Talk)
    requires Sane(t)
    ensures Sane(SayAll(c, t)) && (t.talking ==> SayAll(c, t).talking)
    decreases |t.parser.deltas|
  {
    hide Arguments, Consume, Leave;
    var (d, p) := Consume(t.parser);
    if d.Some? {
      LeaveIsSane(c, t.(parser := p));
      SayAllIsSane(c, Say(c, t.(parser := p), d.value));
    }
  }

  lemma SpeechIsSane(c: Codec, t: Talk, text: string)
    requires Sane(t)
    ensures
      var u := Speak(c, Think(c, t), text);
      Sane(u) && (u.talking ==> t.talking) && u.begun == t.begun && |u.calls| == |t.calls|
  {
    hide Leave, Grown, Mark;
    LeaveIsSane(c, t.(lastThinking := Mark(t.lastThinking, t.parser.thinking)));
    LeaveIsSane(c, Think(c, t).(lastSafe := Mark(Think(c, t).lastSafe, text)));
  }

  lemma AnnounceIsSane(c: Codec, t: Talk, ready: seq<ToolCall>)
    requires Sane(t)
    ensures Sane(Announce(c, t, ready)) && (Announce(c, t, ready).talking ==> t.talking)
    ensures Announce(c, t, ready).begun == t.begun
  {
    hide Arguments, ExpectedArguments;
  }

  /** A call is being said only after an answer that began to stream. */
  predicate Began(t: Talk) { Sane(t) && (t.talking ==> t.begun > 0) }

  lemma ReplyIsSane(c: Codec, t: Talk, p: Parser, ready: seq<ToolCall>)
    requires Began(t)
    ensures Began(Reply(c, t, p, ready))
  {
    hide SayAll, Think, Speak, Announce, Leave;
    var a := t.(parser := p);
    SayAllIsSane(c, a);
    SayAllParser(c, a);
    var b := Begin(t, SayAll(c, a));
    SpeechIsSane(c, b, p.text);
    AnnounceIsSane(c, Speak(c, Think(c, b), p.text), ready);
  }

  lemma StepIsSane(c: Codec, t: Talk, e: Upstream)
    requires Began(t)
    ensures Began(TalkStep(c, t, e))
  {
    hide Reply, Leave;
    var a := t.(started := t.started || Announces(e));
    match e
    case ThinkingPart(content) => LeaveIsSane(c, a);
    case Answer(p, ready) => ReplyIsSane(c, a, p, ready);
    case _ =>
  }

  lemma {:induction false} TalkIsSane(c: Codec, t: Talk, es: seq<Upstream>)
    requires Began(t)
    ensures Began(TalkAll(c, t, es))
    decreases |es|
  {
    hide Began, TalkStep;
    if es != [] {
      StepIsSane(c, t, es[0]);
      TalkIsSane(c, TalkStep(c, t, es[0]), es[1..]);
    }
  }

  lemma ToldIsSane(c: Codec, es: seq<Upstream>, end: Ending)
    ensures Began(Leftover(c, TalkAll(c, Silence, es), end)) && Sane(Told(c, es, end))
  {
    hide TalkAll, Think, Speak, Announce, Arguments, FinalText;
    TalkIsSane(c, Silence, es);
    var a := TalkAll(c, Silence, es);
    SpeechIsSane(c, a.(parser := end.parser), FinalText(end));
    var b := Leftover(c, a, end);
    var (late, p) := TakeReady(b.parser);
    var (again, q) := TakeReady(p);
    AnnounceIsSane(c, b.(parser := q), again);
  }

  /** Calls were said, but none was counted, announced or found in the end. */
  predicate Denied(t: Talk, calls: seq<ToolCall>) {
    t.calls != [] && AllCalls(t, calls) == []
    && |t.calls| + t.skipped <= t.uncounted + (if t.talking then 1 else 0)
  }

  /** The finish says whether the client has tool calls if and only if they are
      not denied. */
  lemma StopReason(codec: Codec, es: seq<Upstream>, end: Ending)
    requires !Touched(codec, es, end)
    ensures
      var t, r := Told(codec, es, end), Run(codec, es, end);
      var w := r.wire;
      && |w| >= 2 && w[|w| - 2].MessageDelta? && w[|w| - 1] == MessageStop
      && (w[|w| - 2] == MessageDelta(Hears(r) != []) <==> !Denied(t, end.calls))
  {
    hide Body, ShapeOf, Hears, Matches, Events, Complete, PostStream, TalkAll, Settle, Leftover, Rendered, Apart, Began;
    SilenceMatches(codec);
    EventsMatch(Init(codec), Silence, es);
    var a := Events(Init(codec), es);
    CompleteTells(a, TalkAll(codec, Silence, es), end);
    PostStreamEnds(Complete(a, end));
    ClientHears(codec, es, end);
    ToldIsSane(codec, es, end);
    var t := Told(codec, es, end);
    var all := AllCalls(t, end.calls);
    RenderedDrop(codec, all, Max(0, Counted(t, all)));
  }

  // ---- What a completed call ends with ----------------------------------

  /** A call that had `whole` to begin with ends with the expected arguments, as
      text or as equal JSON, if and only if it begins them or equals them; nothing
      is added to what equals them. */
  predicate EndsWith(c: Codec, done: string, whole: string, expected: string) {
    var same := (x: string) => x == expected || (c.loads(x).Some? && c.loads(x) == c.loads(expected));
    && whole <= done && (done == whole || done == expected)
    && (same(done) <==> whole <= expected || same(whole))
    && (same(whole) ==> done == whole)
  }

  /** Everything the parser has for the call, queued and closing, comes first; more
      is added only if arguments are expected, and then to reach them. */
  lemma ArgumentsMean(c: Codec, json: string, p: Parser, expected: Option<string>)
    ensures
      var whole, done := json + Json(Solid(p.deltas)) + ClosingPiece(p), Arguments(c, json, p, expected).0;
      if expected.None? then done == whole else EndsWith(c, done, whole, expected.value)
  {
    var whole := json + Json(Solid(p.deltas)) + ClosingPiece(p);
    assert whole + "" == whole;
    if expected.Some? && Missing(c, whole, expected.value) != "" {
      assert whole <= whole + Missing(c, whole, expected.value);
    }
  }

  /** Call `k` is the first of this name. */
  predicate IsFirst(calls: seq<ToolCall>, name: string, k: int) {
    0 <= k < |calls| && calls[k].name == name && forall j :: 0 <= j < k ==> calls[j].name != name
  }

  lemma {:induction false} NamedIsFirst(calls: seq<ToolCall>, name: string, k: int)
    requires IsFirst(calls, name, k)
    ensures Named(calls, name) == Some(calls[k].arguments)
    decreases |calls|
  {
    if k > 0 {
      assert forall j :: 0 <= j < k - 1 ==> calls[1..][j] == calls[j + 1];
      NamedIsFirst(calls[1..], name, k - 1);
    }
  }

  lemma {:induction false} NoneNamed(calls: seq<ToolCall>, name: string)
    requires forall k :: 0 <= k < |calls| ==> calls[k].name != name
    ensures Named(calls, name) == None
    decreases |calls|
  {
    if calls != [] { NoneNamed(calls[1..], name); }
  }

  /** Which arguments ready calls give to an open call: those of the first call of
      its name, or of the only one. */
  lemma ExpectedMeans(calls: seq<ToolCall>, name: string)
    ensures forall k :: IsFirst(calls, name, k) ==> ExpectedArguments(calls, name) == Some(calls[k].arguments)
    ensures |calls| == 1 ==> ExpectedArguments(calls, name) == Some(calls[0].arguments)
    ensures |calls| != 1 && (forall call :: call in calls ==> call.name != name) ==>
              ExpectedArguments(calls, name) == None
  {
    forall k | IsFirst(calls, name, k) ensures ExpectedArguments(calls, name) == Some(calls[k].arguments) {
      NamedIsFirst(calls, name, k);
    }
    if forall call :: call in calls ==> call.name != name {
      NoneNamed(calls, name);
    } else if |calls| == 1 {
      NamedIsFirst(calls, name, 0);
    }
  }

  /** Ready calls when a tool is open: no other call changes, and the open one ends
      with the arguments of the first ready call of its name, or of the only one,
      if and only if what was sent for it, queued or closing, begins them or equals
      them already. If several are ready and none has its name, it ends with that. */
  lemma ReadyArguments(s: Stream, ready: seq<ToolCall>)
    requires OpenIsLast(s) && s.tool.Some? && ready != []
    ensures
      var t, n := HandleReady(s, ready), |Hears(s)|;
      var name, whole :=
        s.tool.value.name, s.tool.value.jsonBuf + Json(Solid(s.parser.deltas)) + ClosingPiece(s.parser);
      && |Hears(t)| == n > 0 && Hears(t)[..n - 1] == Hears(s)[..n - 1]
      && var last := Hears(t)[n - 1];
      && last.name == name
      && (forall k :: IsFirst(ready, name, k) || (|ready| == 1 && k == 0) ==>
                        EndsWith(s.codec, last.arguments, whole, ready[k].arguments))
      && (|ready| > 1 && (forall call :: call in ready ==> call.name != name) ==> last.arguments == whole)
  {
    hide Body, ShapeOf, Heard, Finish, Completed, Arguments, ExpectedArguments, ClosingPiece, Solid, Json;
    var a, name := s.(streamed := s.streamed + ready), s.tool.value.name;
    var expected := ExpectedArguments(ready, name);
    FinishHeard(a, expected);
    CompletedArguments(a, expected);
    ArgumentsMean(s.codec, s.tool.value.jsonBuf, s.parser, expected);
    ExpectedMeans(ready, name);
  }

  // ---- Calls cut off in the end -----------------------------------------

  /** Ready calls are announced once and gone when asked for again. */
  predicate GoneAgain(p: Parser) { TakeReady(p).0 != [] && TakeReady(TakeReady(p).1).0 == [] }

  /** What a call still open should end with. */
  function Expected(b: Talk, end: Ending): Option<string>
    requires b.calls != []
  {
    var (late, p) := TakeReady(b.parser);
    if late != [] then ExpectedArguments(TakeReady(p).0, Last(b).name)
    else if end.calls == [] then None
    else Some(end.calls[0].arguments)
  }

  lemma ReadyDoesNotMatter(c: Codec, json: string, p: Parser, q: Parser, expected: Option<string>)
    requires q == p.(ready := q.ready)
    ensures Arguments(c, json, p, expected).0 == Arguments(c, json, q, expected).0
  {}

  lemma LateSettles(c: Codec, b: Talk, calls: seq<ToolCall>)
    requires b.talking && b.calls != [] && TakeReady(b.parser).0 != []
    ensures
      var (again, q) := TakeReady(TakeReady(b.parser).1);
      Settle(c, b, calls)
      == if again == [] then b.(parser := q)
         else CompleteCall(c, b.(parser := q, streamed := b.streamed + again), ExpectedArguments(again, Last(b).name))
                .(skipped := b.skipped + |again| - 1)
  {
    hide CompleteCall, ExpectedArguments, Add;
  }

  lemma ArgumentsClose(c: Codec, json: string, p: Parser, expected: Option<string>)
    ensures Arguments(c, json, p, expected).1.closed == ClosesCall(p)
  {}

  lemma SettleLast(c: Codec, b: Talk, end: Ending)
    requires b.talking && b.calls != []
    ensures
      var t, n, cut := Settle(c, b, end.calls), |b.calls|, GoneAgain(b.parser);
      && |t.calls| == n && (t.talking <==> cut) && Last(t).name == Last(b).name
      && Last(t).arguments == (if cut then Last(b).arguments
                               else Arguments(c, Last(b).arguments, b.parser, Expected(b, end)).0)
      && (cut ==> t.uncounted == b.uncounted && t.skipped == b.skipped && t.begun == b.begun)
  {
    hide Arguments, ExpectedArguments, Add, Announce;
    var (late, p) := TakeReady(b.parser);
    var (again, q) := TakeReady(p);
    if late != [] {
      LateSettles(c, b, end.calls);
      hide Settle;
    }
    ReadyDoesNotMatter(c, Last(b).arguments, b.parser, if late != [] then q else p, Expected(b, end));
  }

  lemma SettleCounts(c: Codec, b: Talk, end: Ending)
    requires b.talking && b.calls != []
    ensures
      var t := Settle(c, b, end.calls);
      var (late, p) := TakeReady(b.parser);
      && t.begun == b.begun
      && t.uncounted == b.uncounted + (if late == [] && end.calls == [] && !ClosesCall(b.parser) then 1 else 0)
      && t.skipped == b.skipped + Max(0, if late == [] then 0 else |TakeReady(p).0| - 1)
  {
    hide Arguments, ExpectedArguments, Add, Announce;
    var (late, p) := TakeReady(b.parser);
    if late != [] {
      LateSettles(c, b, end.calls);
      hide Settle;
    } else {
      ArgumentsClose(c, Last(b).arguments, p, if end.calls == [] then None else Some(end.calls[0].arguments));
    }
  }

  /** A call still open in the end is completed in what the client has, unless
      ready calls are announced once and gone when asked for again: then the
      client keeps what had been streamed of it. Such a call is counted as sent,
      and so never sent again, exactly when announced calls make up for
      uncounted ones or as many answers began to stream as there are calls. */
  lemma OpenCallInTheEnd(codec: Codec, es: seq<Upstream>, end: Ending)
    requires !Touched(codec, es, end)
    requires Leftover(codec, TalkAll(codec, Silence, es), end).talking
    ensures
      var b, t := Leftover(codec, TalkAll(codec, Silence, es), end), Told(codec, es, end);
      var all, n := AllCalls(t, end.calls), |b.calls|;
      var heard, cut := Hears(Run(codec, es, end)), GoneAgain(b.parser);
      && 0 < n <= |heard| && heard[n - 1].name == Last(b).name
      && heard[n - 1].arguments == (if cut then Last(b).arguments
                                    else Arguments(codec, Last(b).arguments, b.parser, Expected(b, end)).0)
      && (cut ==> (Counted(t, all) >= n <==> t.skipped > t.uncounted || Min(|all|, t.begun) >= n))
  {
    hide Run, Hears, TalkAll, Settle, Leftover, Rendered, Arguments, Expected, GoneAgain;
    ToldIsSane(codec, es, end);
    ClientHears(codec, es, end);
    SettleLast(codec, Leftover(codec, TalkAll(codec, Silence, es), end), end);
  }

  lemma LeftoverTalks(c: Codec, t: Talk, end: Ending)
    requires Sane(t) && Leftover(c, t, end).talking
    ensures
      var b := Leftover(c, t, end);
      && b.parser == end.parser && b.calls == t.calls
      && b.uncounted == t.uncounted && b.skipped == t.skipped && b.begun == t.begun
  {
    hide Arguments, Grown, Mark, FinalText;
  }

  /** What that call ends with: no more than what was sent and what the parser has
      queued and closes it with, if no ready calls are late and the final list is
      empty; else the arguments of the first call of the list, or of the ready call
      that it stands for, if and only if that begins them or equals them already. It
      ends uncounted if and only if neither the parser closes it nor any list has
      calls. */
  lemma OpenCallEndsWith(codec: Codec, es: seq<Upstream>, end: Ending)
    requires !Touched(codec, es, end)
    requires Leftover(codec, TalkAll(codec, Silence, es), end).talking
    ensures
      var a, heard := TalkAll(codec, Silence, es), Hears(Run(codec, es, end));
      && 0 < |a.calls| <= |heard|
      && var name, last := Last(a).name, heard[|a.calls| - 1];
      var whole := Last(a).arguments + Json(Solid(end.parser.deltas)) + ClosingPiece(end.parser);
      var (late, p) := TakeReady(end.parser);
      var again := TakeReady(p).0;
      && last.name == name
      && (late == [] && end.calls == [] ==> last.arguments == whole)
      && (late == [] && end.calls != [] ==> EndsWith(codec, last.arguments, whole, end.calls[0].arguments))
      && (late != [] ==> forall k :: IsFirst(again, name, k) || (|again| == 1 && k == 0) ==>
                           EndsWith(codec, last.arguments, whole, again[k].arguments))
      && (late != [] && |again| > 1 && (forall call :: call in again ==> call.name != name) ==> last.arguments == whole)
      && (late != [] && again == [] ==> last.arguments == Last(a).arguments)
      && (var t := Told(codec, es, end);
          && t.begun == a.begun && t.skipped == a.skipped + Max(0, if late == [] then 0 else |again| - 1)
          && t.uncounted == a.uncounted + if late == [] && end.calls == [] && !ClosesCall(end.parser) then 1 else 0)
  {
    hide Run, Hears, TalkAll, Settle, Leftover, Rendered, Arguments, ExpectedArguments, ClosingPiece, Solid, Json;
    TalkIsSane(codec, Silence, es);
    var a := TalkAll(codec, Silence, es);
    LeftoverTalks(codec, a, end);
    OpenCallInTheEnd(codec, es, end);
    var b := Leftover(codec, a, end);
    SettleCounts(codec, b, end);
    if !GoneAgain(b.parser) {
      ArgumentsMean(codec, Last(b).arguments, b.parser, Expected(b, end));
      ExpectedMeans(TakeReady(TakeReady(b.parser).1).0, Last(b).name);
    }
  }

  /** So an only call that is cut off is never sent again if the parser has found
      just it in the end. */
  lemma OnlyCallCutOff(codec: Codec, es: seq<Upstream>, end: Ending)
    requires !Touched(codec, es, end)
    requires
      var b := Leftover(codec, TalkAll(codec, Silence, es), end);
      b.talking && |b.calls| == 1 && GoneAgain(b.parser) && |end.calls| == 1
    ensures
      var b := Leftover(codec, TalkAll(codec, Silence, es), end);
      Hears(Run(codec, es, end)) == b.calls
  {
    hide Run, Hears, TalkAll, Settle, Leftover, Arguments, Expected, GoneAgain;
    ToldIsSane(codec, es, end);
    ClientHears(codec, es, end);
    var b := Leftover(codec, TalkAll(codec, Silence, es), end);
    SettleLast(codec, b, end);
    var t := Told(codec, es, end);
    assert t.calls == b.calls by { assert t.calls == [Last(t)] && b.calls == [Last(b)]; }
    assert Counted(t, end.calls) >= 1;
    assert Drop(end.calls, Counted(t, end.calls)) == [];
    NothingRendered(codec);
    assert t.calls + [] == t.calls;
  }
}
