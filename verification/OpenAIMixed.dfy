/** Indices when an upstream has native tool calls and the parser finds calls of
    its own: which numbers either kind gets, and when no number is shared. */
module OpenAIMixed {
  import opened Common
  import opened ToolParser
  import opened OpenAISpec
  import opened OpenAITheorems

  predicate HasHeader(w: seq<Chunk>, v: int) { exists k :: 0 <= k < |w| && w[k].Header? && w[k].index == v }

  predicate HasNative(w: seq<Chunk>, v: int) {
    exists k :: 0 <= k < |w| && w[k].Native? && w[k].call.index == Some(v)
  }

  /** No native delta carries the index of a header. */
  predicate Unshared(w: seq<Chunk>) {
    forall j, k :: 0 <= j < |w| && 0 <= k < |w| && w[j].Native? && w[k].Header? ==> w[j].call.index != Some(w[k].index)
  }

  /** A call gets the number of calls before it, those skipped included. */
  predicate Between(t: Talk, u: Talk, v: int) { |t.calls| + t.skipped <= v < |u.calls| + t.skipped }

  predicate Numbers(t: Talk, es: seq<Upstream>, v: int)
    decreases |es|
  {
    es != [] && (Between(t, TalkStep(t, es[0]), v) || Numbers(TalkStep(t, es[0]), es[1..], v))
  }

  /** A native delta is counted from the calls before it; an open call is not
      before it. */
  function NextNumber(t: Talk): int { |t.calls| + t.skipped - if t.talking then 1 else 0 }

  predicate NativeNumber(t: Talk, e: Upstream, v: int) {
    e.NativePart? && e.call.Some? && e.call.value.index.Some? && v == NextNumber(t) + e.call.value.index.value
  }

  predicate NativeNumbers(t: Talk, es: seq<Upstream>, v: int)
    decreases |es|
  {
    es != [] && (NativeNumber(t, es[0], v) || NativeNumbers(TalkStep(t, es[0]), es[1..], v))
  }

  /** The numbers of all headers of a completed run: those of calls said, of late
      ready calls, and of leftovers, which count native calls too. */
  predicate HeaderNumber(es: seq<Upstream>, end: Ending, v: int) {
    var t, u := TalkAll(Silence, es), Told(es, end);
    var first := |u.calls| + u.skipped + Natives(es);
    || Numbers(Silence, es, v)
    || Between(t, u, v)
    || first <= v < first + |Drop(end.calls, first)|
  }

  // ---- Chunks -----------------------------------------------------------

  lemma HasAppend(a: seq<Chunk>, b: seq<Chunk>, v: int)
    ensures HasHeader(a + b, v) <==> HasHeader(a, v) || HasHeader(b, v)
    ensures HasNative(a + b, v) <==> HasNative(a, v) || HasNative(b, v)
  {
    var w := a + b;
    forall k | 0 <= k < |a| ensures w[k] == a[k] {}
    forall k | 0 <= k < |b| ensures w[|a| + k] == b[k] {}
    if k :| 0 <= k < |b| && b[k].Header? && b[k].index == v { assert w[|a| + k] == b[k]; }
    if k :| 0 <= k < |b| && b[k].Native? && b[k].call.index == Some(v) { assert w[|a| + k] == b[k]; }
    if k :| 0 <= k < |a| && a[k].Header? && a[k].index == v { assert w[k] == a[k]; }
    if k :| 0 <= k < |a| && a[k].Native? && a[k].call.index == Some(v) { assert w[k] == a[k]; }
  }

  lemma HasOne(a: seq<Chunk>, c: Chunk, v: int)
    ensures HasHeader(a + [c], v) <==> HasHeader(a, v) || (c.Header? && c.index == v)
    ensures HasNative(a + [c], v) <==> HasNative(a, v) || (c.Native? && c.call.index == Some(v))
  {
    HasAppend(a, [c], v);
    assert [c][0] == c;
  }

  lemma HasPieces(tool: StreamTool, pieces: seq<string>, v: int)
    ensures HasHeader(PieceChunks(tool, pieces), v) <==> pieces != [] && !tool.headerSent && v == tool.index
    ensures !HasNative(PieceChunks(tool, pieces), v)
  {
    var cs := PieceChunks(tool, pieces);
    if pieces != [] { assert cs[0].Header? <==> !tool.headerSent; }
  }

  lemma HasHeaders(start: int, calls: seq<ToolCall>, v: int)
    ensures HasHeader(Headers(start, calls), v) <==> start <= v < start + |calls|
    ensures !HasNative(Headers(start, calls), v)
  {
    var cs := Headers(start, calls);
    if start <= v < start + |calls| { assert cs[v - start].Header?; }
  }

  // ---- Steps ------------------------------------------------------------

  lemma SayGrows(t: Talk, d: ToolDelta)
    ensures |t.calls| <= |Say(t, d).calls| && Say(t, d).skipped == t.skipped
  {}

  lemma {:induction false} SayAllGrows(t: Talk, ds: seq<ToolDelta>)
    ensures |t.calls| <= |SayAll(t, ds).calls| && SayAll(t, ds).skipped == t.skipped
    decreases |ds|
  {
    hide Say;
    if ds != [] {
      SayGrows(t, ds[0]);
      SayAllGrows(Say(t, ds[0]), ds[1..]);
    }
  }

  lemma DeltaNumbers(s: Stream, t: Talk, d: ToolDelta, v: int)
    requires Good(s, t) && d.json != ""
    ensures HasHeader(ApplyDelta(s, d).wire, v) <==> HasHeader(s.wire, v) || Between(t, Say(t, d), v)
    ensures HasNative(ApplyDelta(s, d).wire, v) <==> HasNative(s.wire, v)
  {
    hide HasHeader, HasNative, Order, Heard, PieceChunks, Spoken, Quiet;
    var a := Aim(s, d.name);
    var pieces := Chunks(d.json);
    assert pieces != [];
    HasAppend(s.wire, PieceChunks(a.tool.value, pieces), v);
    HasPieces(a.tool.value, pieces, v);
  }

  lemma {:induction false} DeltasNumbers(s: Stream, t: Talk, v: int)
    requires Good(s, t)
    ensures
      var u := SayAll(t, Solid(s.parser.deltas));
      HasHeader(StreamDeltas(s).wire, v) <==> HasHeader(s.wire, v) || Between(t, u, v)
    ensures HasNative(StreamDeltas(s).wire, v) <==> HasNative(s.wire, v)
    decreases |s.parser.deltas|
  {
    hide HasHeader, HasNative, Good, ApplyDelta, Say, Solid, Consume, Spoken, Quiet;
    var (d, p) := Consume(s.parser);
    if d.None? {
      assert Solid([]) == [] by { NothingSolid(); }
    } else {
      var ds := Solid(s.parser.deltas);
      assert ds[0] == d.value && ds[1..] == Solid(p.deltas);
      var a, b := s.(parser := p), ApplyDelta(s.(parser := p), d.value);
      assert Good(a, t) by { ParserIsFree(s, t, p); }
      DeltaGood(a, t, d.value);
      DeltaNumbers(a, t, d.value, v);
      DeltasNumbers(b, Say(t, d.value), v);
      SayGrows(t, d.value);
      SayAllGrows(Say(t, d.value), Solid(p.deltas));
    }
  }

  lemma ReadyNumbers(s: Stream, t: Talk, ready: seq<ToolCall>, v: int)
    requires Good(s, t) && ready != []
    ensures HasHeader(EmitReady(s, ready).wire, v) <==> HasHeader(s.wire, v) || Between(t, Announce(t, ready), v)
    ensures HasNative(EmitReady(s, ready).wire, v) <==> HasNative(s.wire, v)
  {
    hide HasHeader, HasNative, Order, Heard, Headers, Spoken, Quiet;
    HasAppend(s.wire, Headers(s.pending, ready), v);
    HasHeaders(s.pending, ready, v);
  }

  lemma SpeechNumbers(s: Stream, text: string, v: int)
    ensures HasHeader(ThinkThenText(s, text).wire, v) <==> HasHeader(s.wire, v)
    ensures HasNative(ThinkThenText(s, text).wire, v) <==> HasNative(s.wire, v)
  {
    hide HasHeader, HasNative, Grown, Mark, Spoken, Carries;
    HasOne(s.wire, Reasoning(Grown(s.lastThinking, s.parser.thinking)), v);
    var a := PartialThinking(s);
    HasOne(a.wire, Content(Grown(a.lastSafe, text)), v);
  }

  lemma AnswerNumbers(s: Stream, t: Talk, p: Parser, ready: seq<ToolCall>, v: int)
    requires Good(s, t)
    ensures
      var r, u := AnswerStep(s, p, ready), TalkStep(t, Answer(p, ready));
      && (HasHeader(r.wire, v) <==> HasHeader(s.wire, v) || Between(t, u, v))
      && (HasNative(r.wire, v) <==> HasNative(s.wire, v))
  {
    hide HasHeader, HasNative, Good, StreamDeltas, ThinkThenText, EmitReady, SayAll, Solid, Grown, Mark, Spoken, Quiet,
         Carries;
    var a := s.(parser := p);
    ParserIsFree(s, t, p);
    DeltasNumbers(a, t, v);
    DeltasGood(a, t);
    var x := SayAll(t, Solid(p.deltas));
    SayAllGrows(t, Solid(p.deltas));
    var b := CountBlock(s.tool, StreamDeltas(a));
    SpeechNumbers(b, p.text, v);
    if ready != [] {
      assert Good(ThinkThenText(b, p.text), x) by { CountedSpeech(s, a, t, p); }
      ReadyNumbers(ThinkThenText(b, p.text), x, ready, v);
    }
  }

  lemma CountedSpeech(s: Stream, a: Stream, t: Talk, p: Parser)
    requires Good(s, t) && a == s.(parser := p)
    ensures Good(ThinkThenText(CountBlock(s.tool, StreamDeltas(a)), p.text), SayAll(t, Solid(p.deltas)))
  {
    hide Order, Heard, Grown, Mark, StreamDeltas, ThinkThenText, SayAll, Solid, Spoken, Quiet, Carries;
    DeltasGood(a, t);
    ThinkThenTextGood(CountBlock(s.tool, StreamDeltas(a)), SayAll(t, Solid(p.deltas)), p.text);
  }

  lemma StepNumbers(s: Stream, t: Talk, e: Upstream, v: int)
    requires Good(s, t)
    ensures HasHeader(Step(s, e).wire, v) <==> HasHeader(s.wire, v) || Between(t, TalkStep(t, e), v)
    ensures HasNative(Step(s, e).wire, v) <==> HasNative(s.wire, v) || NativeNumber(t, e, v)
  {
    hide HasHeader, HasNative, AnswerStep, Order, Heard, Spoken, Quiet, Carries;
    match e
    case ThinkingPart(content) => HasOne(s.wire, Reasoning(content), v);
    case Answer(p, ready) => AnswerNumbers(s, t, p, ready, v);
    case NativePart(call) =>
      if call.Some? {
        var index := if call.value.index.Some? then Some(s.pending + call.value.index.value) else None;
        HasOne(s.wire, Native(call.value.(index := index)), v);
      }
    case Other =>
  }

  lemma {:induction false} EventsNumbers(s: Stream, t: Talk, es: seq<Upstream>, v: int)
    requires Good(s, t)
    ensures HasHeader(Events(s, es).wire, v) <==> HasHeader(s.wire, v) || Numbers(t, es, v)
    ensures HasNative(Events(s, es).wire, v) <==> HasNative(s.wire, v) || NativeNumbers(t, es, v)
    decreases |es|
  {
    hide HasHeader, HasNative, Good, Step, TalkStep, Between, NativeNumber, Spoken, Carries;
    if es != [] {
      StepNumbers(s, t, es[0], v);
      StepGood(s, t, es[0]);
      EventsNumbers(Step(s, es[0]), TalkStep(t, es[0]), es[1..], v);
    }
  }

  // ---- Whole runs -------------------------------------------------------

  lemma FinalizeNumbers(s: Stream, t: Talk, calls: seq<ToolCall>, v: int)
    requires Good(s, t)
    ensures HasHeader(FinalizeTool(s, calls).wire, v) <==> HasHeader(s.wire, v) || Between(t, Close(t, s.parser), v)
    ensures HasNative(FinalizeTool(s, calls).wire, v) <==> HasNative(s.wire, v)
  {
    hide HasHeader, HasNative, Order, Heard, EmitReady, Announce, PieceChunks, Spoken, Quiet;
    var (late, p) := TakeReady(s.parser);
    var a := s.(parser := p);
    if late != [] {
      ReadyNumbers(a, t, late, v);
    } else if s.tool.Some? {
      var (json, q) := FinalJson(p);
      HasAppend(s.wire, PieceChunks(s.tool.value, Chunks(json)), v);
      HasPieces(s.tool.value, Chunks(json), v);
    }
  }

  lemma ConcludeNumbers(es: seq<Upstream>, end: Ending, v: int)
    ensures
      var w := Conclude(Events(Init, es), end).wire;
      && (HasHeader(w, v) <==> Numbers(Silence, es, v) || Between(TalkAll(Silence, es), Told(es, end), v))
      && (HasNative(w, v) <==> NativeNumbers(Silence, es, v))
  {
    hide HasHeader, HasNative, Good, FinalizeTool, Close, Leftovers, Events, TalkAll, FinalText, Between, Spoken,
         Carries, Quiet, Numbers, NativeNumbers;
    var s, t := Events(Init, es), TalkAll(Silence, es);
    RunGood(es);
    NothingIsGood();
    EventsNumbers(Init, Silence, es, v);
    NothingHas(v);
    ParserIsFree(s, t, end.parser);
    var b := s.(parser := end.parser);
    LeftoversGood(b, t, FinalText(end));
    LeftoversNumbers(b, FinalText(end), v);
    FinalizeNumbers(Leftovers(b, FinalText(end)), t, end.calls, v);
  }

  lemma NothingIsGood()
    ensures Good(Init, Silence)
  {}

  lemma NothingHas(v: int)
    ensures !HasHeader(Init.wire, v) && !HasNative(Init.wire, v)
  {}

  lemma LeftoversNumbers(s: Stream, text: string, v: int)
    ensures HasHeader(Leftovers(s, text).wire, v) <==> HasHeader(s.wire, v)
    ensures HasNative(Leftovers(s, text).wire, v) <==> HasNative(s.wire, v)
  {
    hide HasHeader, HasNative, ThinkThenText, Grown, Mark, Spoken, Carries;
    SpeechNumbers(s, text, v);
    HasOne(ThinkThenText(s, text).wire, Content(""), v);
  }

  lemma FinaleHasNone(toolCalls: bool, usage: bool, v: int)
    ensures !HasHeader(Finale(toolCalls, usage), v) && !HasNative(Finale(toolCalls, usage), v)
  {}

  /** The numbers of headers and of native deltas in a completed run. */
  lemma RunNumbers(es: seq<Upstream>, end: Ending, usage: bool, v: int)
    ensures
      var w := Run(es, Finished(end, usage)).wire;
      && (HasHeader(w, v) <==> HeaderNumber(es, end, v))
      && (HasNative(w, v) <==> NativeNumbers(Silence, es, v))
  {
    hide HasHeader, HasNative, Conclude, Events, Complete, Told, TalkAll, Numbers, NativeNumbers, Between, Order, Heard,
         BrokenOff, Finale, SaysToolCalls, Headers, Spoken, Carries, Quiet;
    RunIs(es, end, usage);
    HasAppend(Body(es, end), Finale(SaysToolCalls(es, end), usage), v);
    FinaleHasNone(SaysToolCalls(es, end), usage, v);
    ConcludeTells(es, end);
    ConcludeNumbers(es, end, v);
    var a := Conclude(Events(Init, es), end);
    var all, already := AllCalls(a, end.calls), a.pending + a.nativeSent;
    if already < |all| {
      HasAppend(a.wire, Headers(already, all[already..]), v);
      HasHeaders(already, all[already..], v);
    }
  }

  /** Native deltas and headers share no index in a completed run if and only if
      no native delta's number is one of a call said, late or left over. */
  lemma IndicesUnshared(es: seq<Upstream>, end: Ending, usage: bool)
    ensures Unshared(Run(es, Finished(end, usage)).wire)
            <==> forall v :: NativeNumbers(Silence, es, v) ==> !HeaderNumber(es, end, v)
  {
    hide Run, HeaderNumber, NativeNumbers, HasHeader, HasNative, Unshared;
    var w := Run(es, Finished(end, usage)).wire;
    forall v ensures (HasHeader(w, v) <==> HeaderNumber(es, end, v))
                     && (HasNative(w, v) <==> NativeNumbers(Silence, es, v))
    { RunNumbers(es, end, usage, v); }
    UnsharedMeans(w);
  }

  lemma UnsharedMeans(w: seq<Chunk>)
    ensures Unshared(w) <==> forall v :: HasNative(w, v) ==> !HasHeader(w, v)
  {
    if j, k :| 0 <= j < |w| && 0 <= k < |w| && w[j].Native? && w[k].Header? && w[j].call.index == Some(w[k].index) {
      assert HasNative(w, w[k].index) && HasHeader(w, w[k].index);
    }
  }

  lemma StepGrows(t: Talk, e: Upstream)
    ensures |t.calls| <= |TalkStep(t, e).calls| && t.skipped <= TalkStep(t, e).skipped
  {
    hide SayAll;
    if e.Answer? { SayAllGrows(t, Solid(e.parser.deltas)); }
  }

  lemma {:induction false} NumbersWithoutSkips(t: Talk, es: seq<Upstream>, v: int)
    ensures |t.calls| <= |TalkAll(t, es).calls| && t.skipped <= TalkAll(t, es).skipped
    ensures TalkAll(t, es).skipped == t.skipped ==> (Numbers(t, es, v) <==> Between(t, TalkAll(t, es), v))
    decreases |es|
  {
    hide TalkStep;
    if es != [] {
      StepGrows(t, es[0]);
      NumbersWithoutSkips(TalkStep(t, es[0]), es[1..], v);
    }
  }

  /** When no ready call is skipped, headers are numbered without a gap up to the
      calls said, and the leftovers begin as many numbers later as there were
      native calls. */
  lemma NumbersAreContiguous(es: seq<Upstream>, end: Ending, v: int)
    requires Told(es, end).skipped == 0
    ensures
      var said, first := |Told(es, end).calls|, |Told(es, end).calls| + Natives(es);
      HeaderNumber(es, end, v) <==> 0 <= v < said || first <= v < first + |Drop(end.calls, first)|
  {
    hide TalkAll, Numbers;
    NumbersWithoutSkips(Silence, es, v);
  }

  /** Beyond the calls said, and not among the leftovers. */
  predicate Outside(es: seq<Upstream>, end: Ending, v: int) {
    var said, first := |Told(es, end).calls|, |Told(es, end).calls| + Natives(es);
    v < 0 || said <= v < first || first + |Drop(end.calls, first)| <= v
  }

  lemma NumbersOutside(es: seq<Upstream>, end: Ending, v: int)
    requires Told(es, end).skipped == 0
    ensures Outside(es, end, v) <==> !HeaderNumber(es, end, v)
  {
    hide HeaderNumber, Told;
    NumbersAreContiguous(es, end, v);
  }

  /** Then native deltas and headers share no index if and only if every native
      number lies beyond the calls said and outside the leftovers. */
  lemma UnsharedWithoutSkips(es: seq<Upstream>, end: Ending, usage: bool)
    requires Told(es, end).skipped == 0
    ensures Unshared(Run(es, Finished(end, usage)).wire)
            <==> forall v :: NativeNumbers(Silence, es, v) ==> Outside(es, end, v)
  {
    hide *;
    IndicesUnshared(es, end, usage);
    forall v ensures Outside(es, end, v) <==> !HeaderNumber(es, end, v) { NumbersOutside(es, end, v); }
  }

  // ---- During a call ----------------------------------------------------

  lemma OpenHeader(s: Stream, t: Talk)
    requires Good(s, t) && t.talking
    ensures HasHeader(s.wire, s.pending)
  {
    hide Order, Heard, HeadersIncrease, ArgsFollow;
    OrderMeans(s.wire);
    var h := HeaderBefore(s.wire, |s.wire|);
    assert h >= 0 && s.wire[h].Header? && s.wire[h].index == s.pending;
  }

  /** The first native call that arrives while a streamed call is open always
      gets that call's index. */
  lemma NativeDuringCallShares(s: Stream, t: Talk, native: NativeCall)
    requires Good(s, t) && t.talking && native.index == Some(0)
    ensures
      var w := Step(s, NativePart(Some(native))).wire;
      HasHeader(w, s.pending) && HasNative(w, s.pending) && s.pending == NextNumber(t)
  {
    hide HasHeader, HasNative, Order, Heard, Spoken, Quiet;
    OpenHeader(s, t);
    HasOne(s.wire, Native(native.(index := Some(s.pending + 0))), s.pending);
  }
}
