/** What an OpenAI client can rely on: indices of tool calls, the calls it puts
    together from the chunks, the text, and the end of the stream. */
module OpenAITheorems {
  import opened Common
  import opened ToolParser
  import opened OpenAISpec

  // ---- Indices ----------------------------------------------------------

  /** Reads a wire: the index of the latest header (`last` before the wire), or
      None once an index is not larger than the ones before it, or arguments
      do not belong to the latest header. */
  function Order(last: Option<int>, w: seq<Chunk>): Option<int>
    decreases |w|
  {
    if w == [] then last else Order(Latest(last, w[0]), w[1..])
  }

  function Latest(last: Option<int>, c: Chunk): Option<int> {
    match (last, c)
    case (Some(i), Header(index, _, _)) => if i < index then Some(index) else None
    case (Some(i), Args(index, _)) => if 0 <= i == index then last else None
    case _ => last
  }

  lemma {:induction false} OrderAppend(last: Option<int>, a: seq<Chunk>, b: seq<Chunk>)
    ensures Order(last, a + b) == Order(Order(last, a), b)
    decreases |a|
  {
    if a == [] {
      assert a + b == b;
    } else {
      OrderAppend(Latest(last, a[0]), a[1..], b);
      assert (a + b)[1..] == a[1..] + b;
    }
  }

  lemma OrderPut(last: Option<int>, w: seq<Chunk>, c: Chunk)
    ensures Order(last, w + [c]) == Latest(Order(last, w), c)
  {
    OrderAppend(last, w, [c]);
    assert [c][1..] == [];
  }

  /** The position of the latest header before `n`, or -1. */
  function HeaderBefore(w: seq<Chunk>, n: nat): (h: int)
    requires n <= |w|
    ensures -1 <= h < n
    ensures h >= 0 ==> w[h].Header?
    ensures forall k :: h < k < n ==> !w[k].Header?
  {
    if n == 0 then -1 else if w[n - 1].Header? then n - 1 else HeaderBefore(w, n - 1)
  }

  /** Headers carry increasing indices, none of them negative. */
  predicate HeadersIncrease(w: seq<Chunk>) {
    && (forall k :: 0 <= k < |w| && w[k].Header? ==> 0 <= w[k].index)
    && forall j, k :: 0 <= j < k < |w| && w[j].Header? && w[k].Header? ==> w[j].index < w[k].index
  }

  /** Arguments name the index of the latest header before them. */
  predicate ArgsFollow(w: seq<Chunk>) {
    forall k :: 0 <= k < |w| ==> Follows(w, k)
  }

  predicate Follows(w: seq<Chunk>, k: nat)
    requires k < |w|
  {
    w[k].Args? ==> var h := HeaderBefore(w, k); h >= 0 && w[k].index == w[h].index
  }

  lemma {:induction false} HeaderBeforeInPrefix(w: seq<Chunk>, c: Chunk, n: nat)
    requires n <= |w|
    ensures HeaderBefore(w + [c], n) == HeaderBefore(w, n)
  {
    if n > 0 { HeaderBeforeInPrefix(w, c, n - 1); }
  }

  /** `Order` reads a wire to its end exactly when the indices are sound, and
      then answers the latest header's index. */
  lemma {:induction false} OrderMeans(w: seq<Chunk>)
    ensures Order(Some(-1), w).Some? <==> HeadersIncrease(w) && ArgsFollow(w)
    ensures Order(Some(-1), w).Some? ==>
      var h := HeaderBefore(w, |w|);
      Order(Some(-1), w).value == if h >= 0 then w[h].index else -1
    decreases |w|
  {
    if w != [] {
      var v, c := w[..|w| - 1], w[|w| - 1];
      assert w == v + [c];
      OrderMeans(v);
      OrderPut(Some(-1), v, c);
      OneMore(v, c);
    }
  }

  predicate Extends(v: seq<Chunk>, c: Chunk) {
    var h := HeaderBefore(v, |v|);
    && (c.Header? ==> c.index > if h >= 0 then v[h].index else -1)
    && (c.Args? ==> h >= 0 && c.index == v[h].index)
  }

  lemma OneMore(v: seq<Chunk>, c: Chunk)
    ensures
      var w := v + [c];
      && (HeadersIncrease(w) && ArgsFollow(w) <==> HeadersIncrease(v) && ArgsFollow(v) && Extends(v, c))
      && HeaderBefore(w, |w|) == if c.Header? then |v| else HeaderBefore(v, |v|)
  {
    hide ArgsFollow;
    var w := v + [c];
    assert forall k :: 0 <= k < |v| ==> w[k] == v[k];
    assert w[|v|] == c;
    HeaderBeforeInPrefix(v, c, |v|);
    OneMoreArgs(v, c);
    if HeadersIncrease(v) { OneMoreHeader(v, c); }
    assert HeadersIncrease(w) ==> HeadersIncrease(v);
  }

  lemma FollowsInPrefix(v: seq<Chunk>, c: Chunk, k: nat)
    requires k <= |v|
    ensures k < |v| ==> (Follows(v + [c], k) <==> Follows(v, k))
    ensures k == |v| ==>
      var h := HeaderBefore(v, k);
      (Follows(v + [c], k) <==> (c.Args? ==> h >= 0 && c.index == v[h].index))
  {
    HeaderBeforeInPrefix(v, c, k);
  }

  lemma OneMoreArgs(v: seq<Chunk>, c: Chunk)
    ensures
      var h := HeaderBefore(v, |v|);
      (ArgsFollow(v + [c]) <==> ArgsFollow(v) && (c.Args? ==> h >= 0 && c.index == v[h].index))
  {
    hide HeaderBefore, Follows;
    var w := v + [c];
    FollowsInPrefix(v, c, |v|);
    if ArgsFollow(w) {
      assert Follows(w, |v|);
      forall k | 0 <= k < |v| ensures Follows(v, k) {
        assert Follows(w, k);
        FollowsInPrefix(v, c, k);
      }
    }
    if ArgsFollow(v) && Follows(w, |v|) {
      forall k | 0 <= k < |w| ensures Follows(w, k) {
        if k < |v| { assert Follows(v, k); }
        FollowsInPrefix(v, c, k);
      }
    }
  }

  lemma OneMoreHeader(v: seq<Chunk>, c: Chunk)
    requires HeadersIncrease(v)
    ensures
      var h := HeaderBefore(v, |v|);
      (HeadersIncrease(v + [c]) <==> (c.Header? ==> c.index > if h >= 0 then v[h].index else -1))
  {
    hide HeaderBefore;
    var w, h := v + [c], HeaderBefore(v, |v|);
    assert forall k :: 0 <= k < |v| ==> w[k] == v[k];
    assert w[|v|] == c;
    assert forall j :: 0 <= j < |v| && v[j].Header? ==> j <= h && v[j].index <= v[h].index;
  }

  // ---- The calls a client puts together ---------------------------------

  /** A client opens a call at each header and adds arguments to the last. */
  function Hear(calls: seq<ToolCall>, c: Chunk): seq<ToolCall> {
    match c
    case Header(_, name, args) => calls + [ToolCall(name, args)]
    case Args(_, args) => More(calls, args)
    case _ => calls
  }

  function Heard(calls: seq<ToolCall>, w: seq<Chunk>): seq<ToolCall>
    decreases |w|
  {
    if w == [] then calls else Heard(Hear(calls, w[0]), w[1..])
  }

  lemma {:induction false} HeardAppend(calls: seq<ToolCall>, a: seq<Chunk>, b: seq<Chunk>)
    ensures Heard(calls, a + b) == Heard(Heard(calls, a), b)
    decreases |a|
  {
    if a == [] {
      assert a + b == b;
    } else {
      HeardAppend(Hear(calls, a[0]), a[1..], b);
      assert (a + b)[1..] == a[1..] + b;
    }
  }

  /** What the parser said about tool calls: the calls so far, whether the last
      one is still being said, and how many calls were announced as ready
      behind a call that was being said and are not sent for themselves. */
  datatype Talk = Talk(calls: seq<ToolCall>, talking: bool, skipped: nat)

  const Silence := Talk([], false, 0)

  function Say(t: Talk, d: ToolDelta): (r: Talk)
    ensures r.talking && r.calls != [] && r.calls[|r.calls| - 1].name == d.name
    ensures r.skipped == t.skipped
  {
    if t.talking && t.calls != [] && t.calls[|t.calls| - 1].name == d.name
    then t.(calls := More(t.calls, d.json))
    else Talk(t.calls + [ToolCall(d.name, d.json)], true, t.skipped)
  }

  function SayAll(t: Talk, ds: seq<ToolDelta>): Talk
    decreases |ds|
  {
    if ds == [] then t else SayAll(Say(t, ds[0]), ds[1..])
  }

  function Announce(t: Talk, ready: seq<ToolCall>): Talk {
    if ready == [] then t
    else if t.talking then Talk(t.calls, false, t.skipped + |ready| - 1)
    else t.(calls := t.calls + ready)
  }

  function TalkStep(t: Talk, e: Upstream): Talk {
    if e.Answer? then Announce(SayAll(t, Solid(e.parser.deltas)), e.ready) else t
  }

  function TalkAll(t: Talk, es: seq<Upstream>): Talk
    decreases |es|
  {
    if es == [] then t else TalkAll(TalkStep(t, es[0]), es[1..])
  }

  /** The parser's last words complete the call being said. */
  function Close(t: Talk, p: Parser): Talk {
    var (late, q) := TakeReady(p);
    if late != [] then Announce(t, late)
    else if t.talking then Talk(More(t.calls, ClosingPiece(p)), false, t.skipped)
    else t
  }

  // ---- The handler's state keeps to it ----------------------------------

  /** No finish, usage, end or error chunk has been sent. */
  predicate Going(w: seq<Chunk>) { forall c :: c in w ==> !Terminal(c) }

  predicate Terminal(c: Chunk) { c.Finish? || c.Usage? || c.Done? || c.Failure? }

  /** The next index is beyond every header on the wire, or that of the open
      tool, which is then the latest header. */
  predicate InOrder(s: Stream) {
    var last := Order(Some(-1), s.wire);
    && Going(s.wire)
    && last.Some?
    && match s.tool
       case None => last.value < s.pending
       case Some(tool) => tool.headerSent && last.value == tool.index == s.pending
  }

  predicate Tells(s: Stream, t: Talk) {
    && Heard([], s.wire) == t.calls
    && s.tool.Some? == t.talking
    && (t.talking ==> t.calls != [] && t.calls[|t.calls| - 1].name == s.tool.value.name)
  }

  /** The next index counts the calls; it is never behind the calls announced
      as ready or the tool blocks begun. */
  predicate Counted(s: Stream, t: Talk) {
    var last := if t.talking then 1 else 0;
    && s.pending + last == |t.calls| + t.skipped
    && (t.calls == [] ==> t.skipped == 0)
    && |s.streamed| <= s.pending
    && s.blocksSent <= s.pending + last
  }

  predicate Good(s: Stream, t: Talk) { InOrder(s) && Tells(s, t) && Counted(s, t) }

  lemma {:induction false} PiecesInOrder(last: int, tool: StreamTool, pieces: seq<string>)
    requires if tool.headerSent then last == tool.index else last < tool.index && pieces != []
    ensures Order(Some(last), PieceChunks(tool, pieces)) == Some(tool.index)
    decreases |pieces|
  {
    if pieces != [] { PiecesInOrder(tool.index, tool.(headerSent := true), pieces[1..]); }
  }

  lemma {:induction false} PiecesHeard(calls: seq<ToolCall>, tool: StreamTool, pieces: seq<string>)
    requires if tool.headerSent then calls != [] else pieces != []
    ensures Heard(calls, PieceChunks(tool, pieces))
            == if tool.headerSent then More(calls, Concat(pieces))
               else calls + [ToolCall(tool.name, Concat(pieces))]
    decreases |pieces|
  {
    if pieces == [] {
      assert calls[|calls| - 1].arguments + "" == calls[|calls| - 1].arguments;
    } else {
      var cs, rest := PieceChunks(tool, pieces), pieces[1..];
      var next := Hear(calls, cs[0]);
      PiecesHeard(next, tool.(headerSent := true), rest);
      assert cs[1..] == PieceChunks(tool.(headerSent := true), rest);
      MoreMore(calls, pieces[0], Concat(rest));
      MoreLast(calls, ToolCall(tool.name, pieces[0]), Concat(rest));
    }
  }

  /** Chunks that are not tool calls change neither the order nor the calls. */
  lemma OtherChunk(s: Stream, c: Chunk)
    requires !c.Header? && !c.Args?
    ensures !Terminal(c) && Going(s.wire) ==> Going(s.wire + [c])
    ensures Order(Some(-1), s.wire + [c]) == Order(Some(-1), s.wire)
    ensures Heard([], s.wire + [c]) == Heard([], s.wire)
  {
    OrderPut(Some(-1), s.wire, c);
    HeardAppend([], s.wire, [c]);
    assert [c][1..] == [];
  }

  lemma PiecesGood(s: Stream, t: Talk, json: string)
    requires s.tool.Some? && Order(Some(-1), s.wire).Some? && Going(s.wire)
    requires
      var tool, last := s.tool.value, Order(Some(-1), s.wire).value;
      if tool.headerSent then last == tool.index else last < tool.index && json != ""
    requires Heard([], s.wire) == t.calls && (s.tool.value.headerSent ==> t.calls != [])
    ensures
      var r := EmitPieces(s, json);
      && Going(r.wire)
      && Order(Some(-1), r.wire) == Some(s.tool.value.index)
      && Heard([], r.wire) == if s.tool.value.headerSent then More(t.calls, json)
                              else t.calls + [ToolCall(s.tool.value.name, json)]
  {
    hide PieceChunks, Order, Heard, More;
    var tool, pieces := s.tool.value, Chunks(json);
    var cs := PieceChunks(tool, pieces);
    assert json != "" ==> pieces != [];
    OrderAppend(Some(-1), s.wire, cs);
    PiecesInOrder(Order(Some(-1), s.wire).value, tool, pieces);
    HeardAppend([], s.wire, cs);
    PiecesHeard(t.calls, tool, pieces);
  }

  lemma DeltaGood(s: Stream, t: Talk, d: ToolDelta)
    requires Good(s, t) && d.json != ""
    ensures Good(ApplyDelta(s, d), Say(t, d))
  {
    hide Order, Heard, EmitPieces;
    PiecesGood(Aim(s, d.name), t, d.json);
  }

  lemma {:induction false} DeltasGood(s: Stream, t: Talk)
    requires Good(s, t)
    ensures Good(StreamDeltas(s), SayAll(t, Solid(s.parser.deltas)))
    decreases |s.parser.deltas|
  {
    hide Order, Heard, ApplyDelta, Say, Solid, Consume;
    var (d, p) := Consume(s.parser);
    if d.None? {
      assert Solid([]) == [] by { NothingSolid(); }
    } else {
      var ds := Solid(s.parser.deltas);
      assert ds[0] == d.value && ds[1..] == Solid(p.deltas);
      DeltaGood(s.(parser := p), t, d.value);
      DeltasGood(ApplyDelta(s.(parser := p), d.value), Say(t, d.value));
    }
  }

  lemma NothingSolid()
    ensures Solid([]) == []
  {}

  lemma {:induction false} HeadersInOrder(last: int, start: int, calls: seq<ToolCall>)
    requires last < start
    ensures Order(Some(last), Headers(start, calls)) == Some(if calls == [] then last else start + |calls| - 1)
    decreases |calls|
  {
    if calls != [] { HeadersInOrder(start, start + 1, calls[1..]); }
  }

  lemma {:induction false} HeadersHeard(before: seq<ToolCall>, start: int, calls: seq<ToolCall>)
    ensures Heard(before, Headers(start, calls)) == before + calls
    decreases |calls|
  {
    if calls == [] {
      assert before + calls == before;
    } else {
      HeadersHeard(before + [calls[0]], start + 1, calls[1..]);
      assert before + [calls[0]] + calls[1..] == before + calls;
    }
  }

  lemma WholeCalls(w: seq<Chunk>, start: int, calls: seq<ToolCall>)
    requires Order(Some(-1), w).Some? && Order(Some(-1), w).value < start
    ensures
      var r := w + Headers(start, calls);
      && (Going(w) ==> Going(r))
      && Order(Some(-1), r).Some? && Order(Some(-1), r).value < start + |calls|
      && Heard([], r) == Heard([], w) + calls
  {
    hide Order, Heard, Headers;
    var last := Order(Some(-1), w).value;
    OrderAppend(Some(-1), w, Headers(start, calls));
    HeadersInOrder(last, start, calls);
    HeardAppend([], w, Headers(start, calls));
    HeadersHeard(Heard([], w), start, calls);
  }

  lemma ReadyGood(s: Stream, t: Talk, ready: seq<ToolCall>)
    requires Good(s, t) && ready != []
    ensures Good(EmitReady(s, ready), Announce(t, ready))
  {
    hide Order, Heard, Headers;
    if s.tool.None? { WholeCalls(s.wire, s.pending, ready); }
  }

  lemma ThinkThenTextGood(s: Stream, t: Talk, text: string)
    requires Good(s, t)
    ensures Good(ThinkThenText(s, text), t)
  {
    hide Order, Heard, Grown, Mark;
    OtherChunk(s, Reasoning(Grown(s.lastThinking, s.parser.thinking)));
    var a := PartialThinking(s);
    OtherChunk(a, Content(Grown(a.lastSafe, text)));
  }

  lemma StepGood(s: Stream, t: Talk, e: Upstream)
    requires Good(s, t)
    ensures Good(Step(s, e), TalkStep(t, e))
  {
    hide Order, Heard, Grown, Mark, StreamDeltas, ThinkThenText, EmitReady, SayAll, Announce;
    match e
    case ThinkingPart(content) => OtherChunk(s, Reasoning(content));
    case Answer(p, ready) => AnswerGood(s, t, p, ready);
    case NativePart(call) => if call.Some? { NativeGood(s, t, call.value); }
    case Other =>
  }

  lemma NativeGood(s: Stream, t: Talk, call: NativeCall)
    requires Good(s, t)
    ensures Good(NativeStep(s, call), t)
  {
    hide Order, Heard;
    var index := if call.index.Some? then Some(s.pending + call.index.value) else None;
    OtherChunk(s, Native(call.(index := index)));
  }

  lemma AnswerGood(s: Stream, t: Talk, p: Parser, ready: seq<ToolCall>)
    requires Good(s, t)
    ensures Good(AnswerStep(s, p, ready), Announce(SayAll(t, Solid(p.deltas)), ready))
  {
    hide Order, Heard, Grown, Mark, StreamDeltas, ThinkThenText, EmitReady, SayAll, Solid;
    var a := s.(parser := p);
    DeltasGood(a, t);
    var u := SayAll(t, Solid(p.deltas));
    var b := CountBlock(s.tool, StreamDeltas(a));
    ThinkThenTextGood(b, u, p.text);
    if ready != [] { ReadyGood(ThinkThenText(b, p.text), u, ready); }
  }

  lemma {:induction false} EventsGood(s: Stream, t: Talk, es: seq<Upstream>)
    requires Good(s, t)
    ensures Good(Events(s, es), TalkAll(t, es))
    decreases |es|
  {
    hide Good, Step, TalkStep;
    if es != [] {
      StepGood(s, t, es[0]);
      EventsGood(Step(s, es[0]), TalkStep(t, es[0]), es[1..]);
    }
  }

  // ---- The end of the stream --------------------------------------------

  /** The stream breaks off inside a call that no other source completes. */
  predicate Incomplete(t: Talk, p: Parser, calls: seq<ToolCall>) {
    (p.ready == [] || p.ready[0] == []) && t.talking && !ClosesCall(p) && calls == []
  }

  lemma LeftoversGood(s: Stream, t: Talk, text: string)
    requires Good(s, t)
    ensures Good(Leftovers(s, text), t)
  {
    hide Order, Heard, Grown, Mark, ThinkThenText;
    ThinkThenTextGood(s, t, text);
    OtherChunk(ThinkThenText(s, text), Content(""));
  }

  /** After the last call is completed the next index still counts the calls
      the client has heard, except that an incomplete one is left out. */
  lemma FinalizeTells(s: Stream, t: Talk, calls: seq<ToolCall>)
    requires Good(s, t)
    ensures
      var r, u := FinalizeTool(s, calls), Close(t, s.parser);
      var missing := if Incomplete(t, s.parser, calls) then 1 else 0;
      && Going(r.wire) && Order(Some(-1), r.wire).Some?
      && Heard([], r.wire) == u.calls
      && r.pending + missing == |u.calls| + u.skipped
      && (u.calls == [] ==> u.skipped == 0)
      && |r.streamed| <= r.pending && r.blocksSent <= r.pending + missing
      && (missing == 0 ==> Order(Some(-1), r.wire).value < r.pending)
  {
    hide Order, Heard, EmitPieces, EmitReady;
    var (late, p) := TakeReady(s.parser);
    var a := s.(parser := p);
    if late != [] {
      ReadyGood(a, t, late);
    } else if s.tool.Some? {
      var (json, q) := FinalJson(p);
      PiecesGood(a.(parser := q), t, json);
    }
  }

  // ---- Whole runs -------------------------------------------------------

  lemma RunGood(es: seq<Upstream>)
    ensures Good(Events(Init, es), TalkAll(Silence, es))
  {
    EventsGood(Init, Silence, es);
  }

  /** What the parser said about tool calls in a completed run. */
  function Told(es: seq<Upstream>, end: Ending): Talk {
    Close(TalkAll(Silence, es), end.parser)
  }

  function Natives(es: seq<Upstream>): nat {
    if es == [] then 0
    else
      var e := es[0];
      (if e.NativePart? && e.call.Some? && e.call.value.hasId then 1 else 0) + Natives(es[1..])
  }

  lemma {:induction false} NativesCounted(s: Stream, es: seq<Upstream>)
    ensures Events(s, es).nativeSent == s.nativeSent + Natives(es)
    decreases |es|
  {
    hide Step;
    if es != [] { NativesCounted(Step(s, es[0]), es[1..]); }
  }

  /** The calls a client must have heard before the finish chunk: those the
      parser said, and those of its final list that are not counted as sent. */
  function Delivered(es: seq<Upstream>, end: Ending): seq<ToolCall> {
    var t := Told(es, end);
    t.calls + Drop(end.calls, |t.calls| + t.skipped + Natives(es))
  }

  /** The wire of a completed run before its finish chunk. */
  function Body(es: seq<Upstream>, end: Ending): seq<Chunk> {
    var a := Conclude(Events(Init, es), end);
    SendRemaining(a, AllCalls(a, end.calls), a.pending + a.nativeSent).wire
  }

  function SaysToolCalls(es: seq<Upstream>, end: Ending): bool {
    var a := Conclude(Events(Init, es), end);
    AllCalls(a, end.calls) != [] || a.pending + a.nativeSent > 0
  }

  predicate BrokenOff(es: seq<Upstream>, end: Ending) {
    Incomplete(TalkAll(Silence, es), end.parser, end.calls)
  }

  lemma ParserIsFree(s: Stream, t: Talk, p: Parser)
    requires Good(s, t)
    ensures Good(s.(parser := p), t)
  {
    hide Order, Heard;
  }

  lemma ConcludeTells(es: seq<Upstream>, end: Ending)
    ensures
      var a, u := Conclude(Events(Init, es), end), Told(es, end);
      var missing := if BrokenOff(es, end) then 1 else 0;
      && Going(a.wire) && Order(Some(-1), a.wire).Some?
      && Heard([], a.wire) == u.calls
      && a.pending + missing == |u.calls| + u.skipped
      && (u.calls == [] ==> u.skipped == 0)
      && |a.streamed| <= a.pending && a.blocksSent <= a.pending + missing
      && (missing == 0 ==> Order(Some(-1), a.wire).value < a.pending)
      && (missing == 1 ==> end.calls == [])
      && a.nativeSent == Natives(es)
  {
    hide Good, FinalizeTool, Order, Heard, Close, Leftovers, Events, TalkAll, FinalText;
    var s, t := Events(Init, es), TalkAll(Silence, es);
    RunGood(es);
    NativesCounted(Init, es);
    ParserIsFree(s, t, end.parser);
    var b := s.(parser := end.parser);
    LeftoversGood(b, t, FinalText(end));
    FinalizeTells(Leftovers(b, FinalText(end)), t, end.calls);
  }

  /** Adjusting the next index to the number of tool blocks begun never changes
      it. */
  lemma ReconcileNeverActs(es: seq<Upstream>, end: Ending)
    ensures
      var a := Conclude(Events(Init, es), end);
      Reconciled(a.pending, AllCalls(a, end.calls), a.blocksSent) == a.pending
  {
    hide Conclude, Events, Order, Heard, BrokenOff, Told;
    ConcludeTells(es, end);
  }

  /** A completed run is its body and then the finale. */
  lemma RunIs(es: seq<Upstream>, end: Ending, usage: bool)
    ensures Run(es, Finished(end, usage)).wire == Body(es, end) + Finale(SaysToolCalls(es, end), usage)
    ensures Going(Body(es, end))
  {
    hide Conclude, Events, Order, Heard, BrokenOff, Told, Reconciled, Headers;
    ConcludeTells(es, end);
    ReconcileNeverActs(es, end);
  }

  /** When the finish chunk comes, the client has heard exactly the calls the
      parser said and the calls of its final list not counted as sent; their
      indices are sound. */
  lemma ClientHears(es: seq<Upstream>, end: Ending)
    ensures Heard([], Body(es, end)) == Delivered(es, end)
    ensures Order(Some(-1), Body(es, end)).Some?
  {
    hide Conclude, Events, Order, Heard, BrokenOff, Told, Headers;
    ConcludeTells(es, end);
    var a, u := Conclude(Events(Init, es), end), Told(es, end);
    var all, already := AllCalls(a, end.calls), a.pending + a.nativeSent;
    assert u.calls + [] == u.calls;
    if already < |all| { WholeCalls(a.wire, already, all[already..]); }
  }

  /** Position of the finish chunk of a completed run. */
  function FinishAt(w: seq<Chunk>, usage: bool): int { |w| - if usage then 3 else 2 }

  lemma {:induction false} NothingHeard(calls: seq<ToolCall>, w: seq<Chunk>)
    requires forall c :: c in w ==> !c.Header? && !c.Args?
    ensures Heard(calls, w) == calls
    decreases |w|
  {
    if w != [] {
      assert w[0] in w;
      NothingHeard(calls, w[1..]);
    }
  }

  lemma FinaleIs(toolCalls: bool, usage: bool)
    ensures Finale(toolCalls, usage) == if usage then [Finish(toolCalls), Usage, Done] else [Finish(toolCalls), Done]
  {}

  /** A completed run has exactly one finish chunk, then a usage chunk if there is
      to be one, then the end mark, and nothing of the kind anywhere else. */
  lemma RunEndsOnce(es: seq<Upstream>, end: Ending, usage: bool)
    ensures
      var w := Run(es, Finished(end, usage)).wire;
      var f := FinishAt(w, usage);
      && 0 <= f
      && (forall k :: 0 <= k < |w| ==> (w[k].Finish? <==> k == f))
      && (forall k :: 0 <= k < |w| ==> (w[k].Usage? <==> usage && k == f + 1))
      && (forall k :: 0 <= k < |w| ==> (w[k].Done? <==> k == |w| - 1))
      && Failure !in w
      && w[..f] == Body(es, end)
  {
    hide Body, SaysToolCalls, Complete, Finale, Events;
    RunIs(es, end, usage);
    FinaleIs(SaysToolCalls(es, end), usage);
    var w, b := Run(es, Finished(end, usage)).wire, Body(es, end);
    assert forall k :: 0 <= k < |b| ==> w[k] == b[k] && w[k] in b;
  }

  lemma FinishSays(es: seq<Upstream>, end: Ending, usage: bool)
    ensures
      var w := Run(es, Finished(end, usage)).wire;
      && FinishAt(w, usage) >= 0 && w[FinishAt(w, usage)] == Finish(SaysToolCalls(es, end))
      && Heard([], w) == Delivered(es, end)
  {
    hide Body, SaysToolCalls, Complete, Finale, Events, Heard, Delivered;
    RunIs(es, end, usage);
    var tail := Finale(SaysToolCalls(es, end), usage);
    FinaleIs(SaysToolCalls(es, end), usage);
    HeardAppend([], Body(es, end), tail);
    NothingHeard(Heard([], Body(es, end)), tail);
    ClientHears(es, end);
  }

  /** The finish chunk says whether the client has heard tool calls, native ones
      included, except when there was a single one and it breaks off: then it
      denies the call. */
  lemma FinishReason(es: seq<Upstream>, end: Ending, usage: bool)
    ensures
      var w, told := Run(es, Finished(end, usage)).wire, Told(es, end);
      var denied := BrokenOff(es, end) && |told.calls| == 1 && told.skipped == 0 && Natives(es) == 0;
      && FinishAt(w, usage) >= 0
      && w[FinishAt(w, usage)] == Finish(!denied && (Heard([], w) != [] || Natives(es) > 0))
      && (denied ==> |Heard([], w)| == 1)
  {
    hide Conclude, Events, Order, Heard, BrokenOff, Told, Run;
    ConcludeTells(es, end);
    FinishSays(es, end, usage);
  }

  /** A run that fails ends in an error, a cancelled one in the end mark, right
      behind what was written before; neither has a finish or anything else of the
      kind earlier. */
  lemma BrokenRunEnds(es: seq<Upstream>, how: Outcome)
    requires how.Failed? || how.Cancelled?
    ensures
      var w, before := Run(es, how).wire, Events(Init, es).wire;
      && w == before + [if how.Failed? then Failure else Done]
      && forall c :: c in before ==> !c.Finish? && !c.Usage? && !c.Done? && !c.Failure?
  {
    hide Events, Order, Heard, TalkAll;
    RunGood(es);
  }

  lemma TalkOfOne(d: ToolDelta)
    requires d.json != ""
    ensures TalkAll(Silence, [Answer(Unfed.(deltas := [d]), [])]) == Talk([ToolCall(d.name, d.json)], true, 0)
  {
    var es := [Answer(Unfed.(deltas := [d]), [])];
    assert [d][1..] == [] && Solid([d]) == [d];
    var t := Say(Silence, d);
    assert SayAll(Silence, [d]) == SayAll(t, []) == t;
    assert es[1..] == [] && TalkAll(Silence, es) == TalkAll(t, []);
  }

  /** One delta, of any name and JSON, is enough for that. */
  lemma OnlyCallDenied(d: ToolDelta, usage: bool)
    requires d.json != ""
    ensures
      var w := Run([Answer(Unfed.(deltas := [d]), [])], Finished(Ending(Unfed, "", []), usage)).wire;
      && FinishAt(w, usage) >= 0 && w[FinishAt(w, usage)] == Finish(false)
      && Heard([], w) == [ToolCall(d.name, d.json)]
  {
    hide Conclude, Events, Order, Heard, SaysToolCalls, Body, TalkAll, Run;
    var es, end := [Answer(Unfed.(deltas := [d]), [])], Ending(Unfed, "", []);
    TalkOfOne(d);
    MoreNothing([ToolCall(d.name, d.json)]);
    FinishReason(es, end, usage);
    FinishSays(es, end, usage);
    assert Natives(es) == 0;
    assert [ToolCall(d.name, d.json)] + [] == [ToolCall(d.name, d.json)];
  }

  /** The client hears exactly the parser's final list if and only if that list
      begins with the calls said before, and either no call was skipped or native
      or nothing of the list was left to send: every skipped or native call keeps
      one call of the list from the client. */
  lemma ClientHearsTheFinalList(es: seq<Upstream>, end: Ending)
    ensures
      var t := Told(es, end);
      Heard([], Body(es, end)) == end.calls
      <==> t.calls <= end.calls && (t.skipped + Natives(es) == 0 || |t.calls| == |end.calls|)
    ensures end.calls == [] ==> Heard([], Body(es, end)) == Told(es, end).calls
  {
    hide Told, Body, Heard;
    ClientHears(es, end);
    var t := Told(es, end);
    DropAfter(t.calls, end.calls, t.skipped + Natives(es));
    assert t.calls + [] == t.calls;
  }

  lemma DropAfter(said: seq<ToolCall>, all: seq<ToolCall>, gap: nat)
    ensures said + Drop(all, |said| + gap) == all <==> said <= all && (gap == 0 || |said| == |all|)
  {
    var rest := Drop(all, |said| + gap);
    if said + rest == all { assert all[..|said|] == said; }
    if said <= all { assert all == said + all[|said|..]; }
  }

  /** A skipped call costs one of the final list: one call is streamed, two are
      announced for it, and the client never hears the second. */
  lemma SkippedCallIsLost(f: ToolDelta, a: ToolCall, g: ToolCall)
    requires f.json != ""
    ensures
      var es, end := [Answer(Unfed.(deltas := [f]), [a, g])], Ending(Unfed, "", [a, g]);
      Heard([], Body(es, end)) == [ToolCall(f.name, f.json)]
  {
    hide Told, Body, Heard, TalkAll;
    var es, end := [Answer(Unfed.(deltas := [f]), [a, g])], Ending(Unfed, "", [a, g]);
    ClientHears(es, end);
    assert TalkAll(Silence, es) == TalkStep(Silence, es[0]) by { TalkOnce(Silence, es[0]); }
    SayOnce(Silence, f);
    assert Told(es, end) == Talk([ToolCall(f.name, f.json)], false, 1) by { ToldIs(es, end); }
    assert [ToolCall(f.name, f.json)] + [] == [ToolCall(f.name, f.json)];
  }

  lemma TalkOnce(t: Talk, e: Upstream)
    ensures TalkAll(t, [e]) == TalkStep(t, e)
  {
    hide TalkStep;
    assert [e][1..] == [];
    assert TalkAll(t, [e]) == TalkAll(TalkStep(t, e), []);
  }

  lemma SayOnce(t: Talk, d: ToolDelta)
    requires d.json != ""
    ensures SayAll(t, Solid([d])) == Say(t, d)
  {
    hide Say;
    assert [d][1..] == [] && Solid([d]) == [d];
    assert SayAll(t, [d]) == SayAll(Say(t, d), []);
  }

  lemma ToldIs(es: seq<Upstream>, end: Ending)
    ensures Told(es, end) == Close(TalkAll(Silence, es), end.parser)
  {}

  lemma {:induction false} NoMoreTools(last: Option<int>, w: seq<Chunk>)
    requires forall c :: c in w ==> !c.Header? && !c.Args?
    ensures Order(last, w) == last
    decreases |w|
  {
    if w != [] {
      assert w[0] in w;
      NoMoreTools(last, w[1..]);
    }
  }

  // ---- Parsers that do not stream ---------------------------------------

  /** All calls announced as ready. */
  function ReadyOf(es: seq<Upstream>): seq<ToolCall> {
    if es == [] then [] else (if es[0].Answer? then es[0].ready else []) + ReadyOf(es[1..])
  }

  lemma {:induction false} ReadyTalk(t: Talk, es: seq<Upstream>)
    requires !t.talking && forall e :: e in es && e.Answer? ==> Solid(e.parser.deltas) == []
    ensures TalkAll(t, es) == t.(calls := t.calls + ReadyOf(es))
    decreases |es|
  {
    hide Solid;
    if es == [] {
      assert t.calls + [] == t.calls;
    } else {
      var ready := if es[0].Answer? then es[0].ready else [];
      assert es[0] in es && t.calls + [] == t.calls;
      assert TalkStep(t, es[0]) == t.(calls := t.calls + ready);
      ReadyTalk(t.(calls := t.calls + ready), es[1..]);
      assert t.calls + ready + ReadyOf(es[1..]) == t.calls + (ready + ReadyOf(es[1..]));
    }
  }

  /** If calls are only announced when they are complete, the client hears each
      announced call once, in order, those announced in the end included, and then
      those of the final list beyond their number and that of the native ones. */
  lemma AnnouncedCallsArriveOnce(es: seq<Upstream>, end: Ending, usage: bool)
    requires forall e :: e in es && e.Answer? ==> Solid(e.parser.deltas) == []
    ensures
      var sent := ReadyOf(es) + if end.parser.ready == [] then [] else end.parser.ready[0];
      Heard([], Run(es, Finished(end, usage)).wire) == sent + Drop(end.calls, |sent| + Natives(es))
  {
    hide *;
    FinishSays(es, end, usage);
    ReadyTold(es, end);
    DeliveredIs(es, end);
  }

  lemma DeliveredIs(es: seq<Upstream>, end: Ending)
    ensures
      var t := Told(es, end);
      |t.calls| + t.skipped + Natives(es) >= 0
      && Delivered(es, end) == t.calls + Drop(end.calls, |t.calls| + t.skipped + Natives(es))
  {
    hide Told, Natives;
  }

  lemma ReadyTold(es: seq<Upstream>, end: Ending)
    requires forall e :: e in es && e.Answer? ==> Solid(e.parser.deltas) == []
    ensures
      var t := Told(es, end);
      t.calls == ReadyOf(es) + (if end.parser.ready == [] then [] else end.parser.ready[0]) && t.skipped == 0
  {
    hide TalkAll, Solid, ReadyOf;
    ReadyTalk(Silence, es);
    var said := ReadyOf(es);
    assert [] + said == said && said + [] == said;
  }

  /** However the upstream behaves and ends, every header carries a larger
      index than the ones before it and arguments belong to the latest header. */
  lemma IndicesAreSound(es: seq<Upstream>, how: Outcome)
    ensures HeadersIncrease(Run(es, how).wire) && ArgsFollow(Run(es, how).wire)
  {
    hide HeadersIncrease, ArgsFollow, Order, Events, Complete, Body, SaysToolCalls;
    var w := Run(es, how).wire;
    OrderMeans(w);
    match how
    case Finished(end, usage) =>
      RunIs(es, end, usage);
      ClientHears(es, end);
      var tail := Finale(SaysToolCalls(es, end), usage);
      OrderAppend(Some(-1), Body(es, end), tail);
      NoMoreTools(Order(Some(-1), Body(es, end)), tail);
    case _ =>
      RunGood(es);
      GoodIsOrdered(Events(Init, es), TalkAll(Silence, es));
      OtherChunk(Events(Init, es), if how == Failed then Failure else Done);
  }

  lemma GoodIsOrdered(s: Stream, t: Talk)
    requires Good(s, t)
    ensures Order(Some(-1), s.wire).Some?
  {}

  // ---- Text and thinking ------------------------------------------------

  /** The parser's visible text only ever extends what it was before. */
  predicate Growing(sent: string, es: seq<Upstream>)
    decreases |es|
  {
    es != [] ==>
      if es[0].Answer? then sent <= es[0].parser.text && Growing(es[0].parser.text, es[1..])
      else Growing(sent, es[1..])
  }

  function LastText(sent: string, es: seq<Upstream>): string
    decreases |es|
  {
    if es == [] then sent else LastText(if es[0].Answer? then es[0].parser.text else sent, es[1..])
  }

  /** After every answer the wire shows exactly the parser's visible text. */
  predicate InStep(s: Stream, es: seq<Upstream>)
    decreases |es|
  {
    es != [] ==>
      var t := Step(s, es[0]);
      (es[0].Answer? ==> Spoken(t.wire, false) == es[0].parser.text) && InStep(t, es[1..])
  }

  /** The client's text keeps up with the parser exactly when the parser's text
      only grows. */
  lemma {:induction false} TextKeepsUp(s: Stream, sent: string, es: seq<Upstream>)
    requires Spoken(s.wire, false) == sent && s.lastSafe == |sent|
    ensures InStep(s, es) <==> Growing(sent, es)
    ensures Growing(sent, es) ==>
              var t := Events(s, es);
              Spoken(t.wire, false) == LastText(sent, es) && t.lastSafe == |LastText(sent, es)|
    decreases |es|
  {
    hide Step, Spoken, Grown, Mark;
    if es != [] {
      var e := es[0];
      if !e.Answer? {
        assert sent + "" == sent;
        TextKeepsUp(Step(s, e), sent, es[1..]);
      } else {
        GrownCompletes(sent, e.parser.text);
        if sent <= e.parser.text { TextKeepsUp(Step(s, e), e.parser.text, es[1..]); }
      }
    }
  }

  /** A completed run shows exactly the final visible text, whatever thinking
      and tool calls came in between, if and only if the final text extends the
      last one. */
  lemma TextIsConserved(es: seq<Upstream>, end: Ending, usage: bool)
    requires Growing("", es)
    ensures
      var final := if end.parser.hasCalls || end.finalText == "" then end.parser.text else end.finalText;
      Spoken(Run(es, Finished(end, usage)).wire, false) == final <==> LastText("", es) <= final
  {
    hide Events, Complete, Spoken, Grown, Mark, Growing, LastText, InStep;
    assert Spoken([], false) == "" by { NothingSpoken(); }
    TextKeepsUp(Init, "", es);
    GrownCompletes(LastText("", es), FinalText(end));
  }

  /** The thinking that events and answers bring, when `last` characters of the
      parser's have been used. */
  function Thoughts(last: nat, es: seq<Upstream>): string
    decreases |es|
  {
    if es == [] then ""
    else
      match es[0]
      case ThinkingPart(content) => content + Thoughts(last, es[1..])
      case Answer(p, _) => Grown(last, p.thinking) + Thoughts(Mark(last, p.thinking), es[1..])
      case _ => Thoughts(last, es[1..])
  }

  /** How much of the parser's thinking has been used. */
  function LastThought(last: nat, es: seq<Upstream>): nat
    decreases |es|
  {
    if es == [] then last
    else LastThought(if es[0].Answer? then Mark(last, es[0].parser.thinking) else last, es[1..])
  }

  lemma {:induction false} EventsThink(s: Stream, es: seq<Upstream>)
    ensures
      var t := Events(s, es);
      && Spoken(t.wire, true) == Spoken(s.wire, true) + Thoughts(s.lastThinking, es)
      && t.lastThinking == LastThought(s.lastThinking, es)
    decreases |es|
  {
    hide Step, Spoken, Grown, Mark;
    if es == [] {
      assert Spoken(s.wire, true) + "" == Spoken(s.wire, true);
    } else {
      var gain, rest := ThinkingGain(s, es[0]), Thoughts(Step(s, es[0]).lastThinking, es[1..]);
      EventsThink(Step(s, es[0]), es[1..]);
      assert Spoken(s.wire, true) + gain + rest == Spoken(s.wire, true) + (gain + rest);
      assert "" + rest == rest;
    }
  }

  /** A completed run shows the thinking that events and answers brought, in the
      order in which it happened, and then what is left of the parser's. */
  lemma ThinkingIsConserved(es: seq<Upstream>, end: Ending, usage: bool)
    ensures Spoken(Run(es, Finished(end, usage)).wire, true)
            == Thoughts(0, es) + Grown(LastThought(0, es), end.parser.thinking)
  {
    hide Events, Complete, Spoken, Grown, Mark, Thoughts, LastThought;
    NothingSpoken();
    EventsThink(Init, es);
    assert "" + Thoughts(0, es) == Thoughts(0, es);
  }

  lemma NothingSpoken()
    ensures Spoken([], false) == "" && Spoken([], true) == ""
  {}

  // ---- The size of argument chunks ----------------------------------------

  /** Streamed arguments come in small pieces. */
  predicate Fine(w: seq<Chunk>) { forall c :: c in w && c.Args? ==> 0 < |c.args| <= 20 }

  lemma PiecesFine(s: Stream, json: string)
    requires s.tool.Some? && Fine(s.wire)
    ensures Fine(EmitPieces(s, json).wire)
  {
    hide Spoken, PieceChunks, Chunks;
    var pieces := Chunks(json);
    var cs := PieceChunks(s.tool.value, pieces);
    forall c | c in cs && c.Args? ensures 0 < |c.args| <= 20 {
      var k :| 0 <= k < |cs| && cs[k] == c;
      assert pieces[k] in pieces;
    }
  }

  lemma {:induction false} DeltasFine(s: Stream)
    requires Fine(s.wire)
    ensures Fine(StreamDeltas(s).wire)
    decreases |s.parser.deltas|
  {
    hide Spoken, Consume, EmitPieces;
    var (d, p) := Consume(s.parser);
    if d.Some? {
      PiecesFine(Aim(s.(parser := p), d.value.name), d.value.json);
      DeltasFine(ApplyDelta(s.(parser := p), d.value));
    }
  }

  lemma ReadyFine(s: Stream, ready: seq<ToolCall>)
    requires Fine(s.wire)
    ensures Fine(EmitReady(s, ready).wire)
  {
    hide Spoken, Headers;
    assert forall c :: c in Headers(s.pending, ready) ==> c.Header?;
  }

  lemma StepFine(s: Stream, e: Upstream)
    requires Fine(s.wire)
    ensures Fine(Step(s, e).wire)
  {
    hide Spoken, StreamDeltas, EmitReady;
    if e.Answer? {
      var a := s.(parser := e.parser);
      DeltasFine(a);
      var b := CountBlock(s.tool, StreamDeltas(a));
      ReadyFine(ThinkThenText(b, e.parser.text), e.ready);
    }
  }

  lemma {:induction false} EventsFine(s: Stream, es: seq<Upstream>)
    requires Fine(s.wire)
    ensures Fine(Events(s, es).wire)
    decreases |es|
  {
    hide Step, Fine;
    if es != [] {
      StepFine(s, es[0]);
      EventsFine(Step(s, es[0]), es[1..]);
    }
  }

  lemma FinalizeFine(s: Stream, calls: seq<ToolCall>)
    requires Fine(s.wire)
    ensures Fine(FinalizeTool(s, calls).wire)
  {
    hide Spoken, EmitPieces, EmitReady;
    var (late, p) := TakeReady(s.parser);
    var (json, q) := FinalJson(p);
    if late != [] {
      ReadyFine(s.(parser := p), late);
    } else if s.tool.Some? {
      PiecesFine(s.(parser := q), json);
    }
  }

  lemma SettleFine(s: Stream, calls: seq<ToolCall>, usage: bool)
    requires Fine(s.wire)
    ensures Fine(Settle(s, calls, usage).wire)
  {
    hide Spoken, Headers;
    assert forall cs: seq<Chunk>, c :: c in s.wire + cs <==> c in s.wire || c in cs;
  }

  /** However the upstream behaves and ends: behind the header of a call its
      arguments come in pieces of 1 to 20 characters. */
  lemma ArgumentsAreFine(es: seq<Upstream>, how: Outcome)
    ensures Fine(Run(es, how).wire)
  {
    hide Spoken, Events, FinalizeTool, Settle, FinalText, Grown, Mark;
    EventsFine(Init, es);
    if how.Finished? {
      var a := Leftovers(Events(Init, es).(parser := how.end.parser), FinalText(how.end));
      FinalizeFine(a, how.end.calls);
      SettleFine(FinalizeTool(a, how.end.calls), how.end.calls, how.usage);
    }
  }

  // ---- An empty text for thinking alone -----------------------------------

  /** How much of the parser's text has been used. */
  function LastSafe(last: nat, es: seq<Upstream>): nat
    decreases |es|
  {
    if es == [] then last else LastSafe(if es[0].Answer? then Mark(last, es[0].parser.text) else last, es[1..])
  }

  /** Every text on the wire says something, and what was thought is on it. */
  predicate Meaty(s: Stream) { Content("") !in s.wire && s.thought == Spoken(s.wire, true) }

  lemma {:induction false} DeltasMeaty(s: Stream)
    requires Meaty(s)
    ensures Meaty(StreamDeltas(s))
    decreases |s.parser.deltas|
  {
    hide Spoken, Consume, PieceChunks;
    var (d, p) := Consume(s.parser);
    if d.Some? {
      var a := Aim(s.(parser := p), d.value.name);
      assert forall c :: c in PieceChunks(a.tool.value, Chunks(d.value.json)) ==> c != Content("");
      DeltasMeaty(ApplyDelta(s.(parser := p), d.value));
    }
  }

  lemma AnswerMeaty(s: Stream, p: Parser, ready: seq<ToolCall>)
    requires Meaty(s)
    ensures Meaty(AnswerStep(s, p, ready))
  {
    hide Spoken, StreamDeltas, Headers;
    var a := s.(parser := p);
    DeltasMeaty(a);
    var b := CountBlock(s.tool, StreamDeltas(a));
    var d := ThinkThenText(b, p.text);
    assert Spoken(b.wire, true) + "" == Spoken(b.wire, true);
    assert Meaty(d);
    assert forall c :: c in Headers(d.pending, ready) ==> c != Content("");
  }

  lemma {:induction false} EventsMeaty(s: Stream, es: seq<Upstream>)
    requires Meaty(s)
    ensures Meaty(Events(s, es)) && Events(s, es).lastSafe == LastSafe(s.lastSafe, es)
    decreases |es|
  {
    hide AnswerStep, Spoken, Mark;
    if es != [] {
      var e := es[0];
      if e.Answer? { AnswerMeaty(s, e.parser, e.ready); }
      assert Spoken(s.wire, true) + "" == Spoken(s.wire, true);
      EventsMeaty(Step(s, e), es[1..]);
    }
  }

  lemma LeftoversMeaty(s: Stream, text: string)
    requires Meaty(s)
    ensures
      var t := Leftovers(s, text);
      Content("") in t.wire <==> Spoken(t.wire, true) != "" && !s.parser.hasCalls && Grown(s.lastSafe, text) == ""
  {
    hide Spoken;
    assert Spoken(s.wire, true) + "" == Spoken(s.wire, true);
    assert Meaty(ThinkThenText(s, text));
  }

  lemma QuietContent(s: Stream, t: Stream)
    requires s.wire <= t.wire && forall c :: c in t.wire[|s.wire|..] ==> !c.Content?
    ensures Content("") in t.wire <==> Content("") in s.wire
  {
    assert t.wire == s.wire + t.wire[|s.wire|..];
  }

  /** An answer of thinking alone gets one empty text, and nothing else does: the
      wire has an empty text if and only if something was thought, the parser has
      no calls and nothing new is left of the final text. */
  lemma ThinkingAloneGetsText(es: seq<Upstream>, end: Ending, usage: bool)
    ensures
      var w := Run(es, Finished(end, usage)).wire;
      var final := if end.parser.hasCalls || end.finalText == "" then end.parser.text else end.finalText;
      Content("") in w
      <==> Spoken(w, true) != "" && !end.parser.hasCalls && |final| <= LastSafe(0, es)
  {
    hide Spoken, Events, EmitPieces, Leftovers, Finale, SendRemaining, Headers, Mark;
    NothingSpoken();
    EventsMeaty(Init, es);
    var a := Events(Init, es).(parser := end.parser);
    LeftoversMeaty(a, FinalText(end));
    var b := Leftovers(a, FinalText(end));
    var c := FinalizeTool(b, end.calls);
    FinalizeAddsNoText(b, end.calls);
    RunAddsNoText(c, end.calls, usage);
  }

  lemma FinalizeAddsNoText(s: Stream, calls: seq<ToolCall>)
    ensures Content("") in FinalizeTool(s, calls).wire <==> Content("") in s.wire
  {
    hide Spoken, Headers, PieceChunks;
  }

  lemma RunAddsNoText(s: Stream, calls: seq<ToolCall>, usage: bool)
    ensures Content("") in Settle(s, calls, usage).wire <==> Content("") in s.wire
  {
    hide Spoken, Headers;
  }

  // ---- Native tool calls ------------------------------------------------

  /** An upstream with native tools: the parser finds nothing in its answers. */
  predicate Wordless(e: Upstream) { e.Answer? ==> Solid(e.parser.deltas) == [] && e.ready == [] }

  function NativesOf(w: seq<Chunk>): seq<NativeCall> {
    if w == [] then [] else (if w[0].Native? then [w[0].call] else []) + NativesOf(w[1..])
  }

  function NativeOf(e: Upstream): seq<NativeCall> {
    if e.NativePart? && e.call.Some? then [e.call.value] else []
  }

  function NativesIn(es: seq<Upstream>): seq<NativeCall> {
    if es == [] then [] else NativeOf(es[0]) + NativesIn(es[1..])
  }

  lemma {:induction false} NativesOfPut(w: seq<Chunk>, c: Chunk)
    ensures NativesOf(w + [c]) == NativesOf(w) + if c.Native? then [c.call] else []
  {
    if w == [] {
      assert [c][1..] == [];
    } else {
      NativesOfPut(w[1..], c);
      assert (w + [c])[1..] == w[1..] + [c];
    }
  }

  lemma WordlessStep(s: Stream, e: Upstream)
    requires Wordless(e) && s.pending == 0 && s.tool.None?
    ensures
      var t := Step(s, e);
      && t.pending == 0 && t.tool.None?
      && NativesOf(t.wire) == NativesOf(s.wire) + NativeOf(e)
  {
    hide Spoken, NativesOf, Grown, Mark, Solid, Consume;
    assert NativesOf(s.wire) + [] == NativesOf(s.wire);
    match e
    case ThinkingPart(content) => NativesOfPut(s.wire, Reasoning(content));
    case NativePart(call) =>
      if call.Some? {
        var index := if call.value.index.Some? then Some(0 + call.value.index.value) else None;
        NativesOfPut(s.wire, Native(call.value.(index := index)));
      }
    case Answer(p, _) =>
      var a := s.(parser := p.(deltas := []));
      assert StreamDeltas(s.(parser := p)) == a;
      var think := Grown(a.lastThinking, p.thinking);
      var b := PartialThinking(a);
      NativesOfPut(a.wire, Reasoning(think));
      NativesOfPut(b.wire, Content(Grown(b.lastSafe, p.text)));
    case Other =>
  }

  lemma EventsUnfold(s: Stream, es: seq<Upstream>)
    ensures Events(s, es) == if es == [] then s else Events(Step(s, es[0]), es[1..])
  {
    hide Step, Spoken, Carries;
  }

  /** Native tool-call deltas reach the client unchanged and in order. */
  lemma {:induction false} NativeCallsPassThrough(s: Stream, es: seq<Upstream>)
    requires (forall e :: e in es ==> Wordless(e)) && s.pending == 0 && s.tool.None?
    ensures NativesOf(Events(s, es).wire) == NativesOf(s.wire) + NativesIn(es)
    decreases |es|
  {
    hide Step, Wordless, NativesOf, NativeOf, Spoken, Carries, Events;
    EventsUnfold(s, es);
    if es == [] {
      assert NativesOf(s.wire) + [] == NativesOf(s.wire);
    } else {
      assert es[0] in es;
      WordlessStep(s, es[0]);
      NativeCallsPassThrough(Step(s, es[0]), es[1..]);
      assert NativesOf(s.wire) + NativeOf(es[0]) + NativesIn(es[1..]) == NativesOf(s.wire) + NativesIn(es);
    }
  }

  /** Mixing the two kinds is not safe: a streamed call after a native one gets
      an index the client has already seen. */
  lemma MixedCallsShareAnIndex(s: Stream, native: NativeCall, p: Parser, d: ToolDelta)
    requires s.tool.None? && native.index == Some(0) && p.deltas == [d] && d.json != ""
    ensures
      var w, n := Step(Step(s, NativePart(Some(native))), Answer(p, [])).wire, |s.wire|;
      && n + 2 <= |w|
      && w[n].Native? && w[n].call.index == Some(s.pending)
      && w[n + 1].Header? && w[n + 1].index == s.pending && w[n + 1].name == d.name
  {
    hide Spoken, StreamDeltas, PieceChunks, AnswerStep, Carries, ApplyDelta;
    var n := NativeStep(s, native);
    var a := n.(parser := p);
    OneDelta(a, d);
    FirstPieces(a.(parser := p.(deltas := [])), d);
    AnswerExtends(n, p);
    assert Chunks(d.json) != [];
    var w, cs := AnswerStep(n, p, []).wire, PieceChunks(StreamTool(s.pending, d.name, false), Chunks(d.json));
    assert a.wire + cs <= w;
    assert w[|s.wire|] == a.wire[|s.wire|] && w[|s.wire| + 1] == cs[0];
  }

  lemma FirstPieces(s: Stream, d: ToolDelta)
    requires s.tool.None?
    ensures ApplyDelta(s, d).wire == s.wire + PieceChunks(StreamTool(s.pending, d.name, false), Chunks(d.json))
  {
    hide Spoken, PieceChunks, Chunks;
  }

  lemma AnswerExtends(s: Stream, p: Parser)
    ensures StreamDeltas(s.(parser := p)).wire <= AnswerStep(s, p, []).wire
  {
    hide Spoken, StreamDeltas, ThinkThenText;
  }

  lemma OneDelta(s: Stream, d: ToolDelta)
    requires s.parser.deltas == [d] && d.json != ""
    ensures StreamDeltas(s) == ApplyDelta(s.(parser := s.parser.(deltas := [])), d)
  {
    hide Spoken, ApplyDelta;
    assert Consume(s.parser) == (Some(d), s.parser.(deltas := []));
    var b := ApplyDelta(s.(parser := s.parser.(deltas := [])), d);
    assert StreamDeltas(b) == b;
  }

  // ---- Broken connections -----------------------------------------------

  lemma {:induction false} HeaderBeforeOfPrefix(v: seq<Chunk>, w: seq<Chunk>, n: nat)
    requires v <= w && n <= |v|
    ensures HeaderBefore(v, n) == HeaderBefore(w, n)
  {
    if n > 0 { HeaderBeforeOfPrefix(v, w, n - 1); }
  }

  lemma PrefixIsSound(v: seq<Chunk>, w: seq<Chunk>)
    requires v <= w && HeadersIncrease(w) && ArgsFollow(w)
    ensures HeadersIncrease(v) && ArgsFollow(v)
  {
    hide HeaderBefore;
    assert forall k :: 0 <= k < |v| ==> v[k] == w[k];
    forall k | 0 <= k < |v| ensures Follows(v, k) {
      assert Follows(w, k);
      HeaderBeforeOfPrefix(v, w, k);
    }
  }
}
