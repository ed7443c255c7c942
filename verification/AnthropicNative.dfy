/** The native calls of the upstream among all calls an Anthropic client gets, and
    runs in which no call is streamed. */
module AnthropicNative {
  import opened Common
  import opened ToolParser
  import opened AnthropicWire
  import opened AnthropicSpec
  import opened AnthropicShape
  import opened AnthropicCalls
  import opened AnthropicTalk

  /** The parser streams no call; it may announce complete ones. */
  predicate Whole(e: Upstream) { e.Answer? ==> Solid(e.parser.deltas) == [] }

  /** Every call said is counted as sent. */
  predicate Plain(t: Talk) {
    !t.talking && !t.stale && t.uncounted == 0 && t.skipped == 0 && t.begun == 0
  }

  lemma SpeechIsPlain(c: Codec, t: Talk, text: string)
    requires Plain(t)
    ensures
      var u := Speak(c, Think(c, t), text);
      Plain(u) && u.calls == t.calls && u.streamed == t.streamed && u.parser == t.parser
  {
    hide Grown, Mark;
  }

  lemma ReplyIsPlain(c: Codec, t: Talk, p: Parser, ready: seq<ToolCall>)
    requires Plain(t) && Solid(p.deltas) == []
    ensures
      var u := Reply(c, t, p, ready);
      Plain(u) && u.calls == t.calls + Rendered(c, ready) && u.streamed == t.streamed + ready
  {
    hide SayAll, Think, Speak, Rendered;
    NothingToSay(c, t.(parser := p));
    var a := Begin(t.(parser := p), SayAll(c, t.(parser := p)));
    SpeechIsPlain(c, a, p.text);
    NothingRendered(c);
    assert t.calls + [] == t.calls && t.streamed + [] == t.streamed;
  }

  lemma StepIsPlain(c: Codec, t: Talk, e: Upstream)
    requires Plain(t) && Whole(e)
    ensures Plain(TalkStep(c, t, e))
  {
    hide Reply, Solid;
    if e.Answer? { ReplyIsPlain(c, t.(started := t.started || Announces(e)), e.parser, e.ready); }
  }

  lemma {:induction false} TalkIsPlain(c: Codec, t: Talk, es: seq<Upstream>)
    requires Plain(t) && forall e :: e in es ==> Whole(e)
    ensures Plain(TalkAll(c, t, es)) && !TouchedIn(c, t, es)
    decreases |es|
  {
    hide Whole, TalkStep;
    if es != [] {
      assert es[0] in es;
      StepIsPlain(c, t, es[0]);
      TalkIsPlain(c, TalkStep(c, t, es[0]), es[1..]);
    }
  }

  /** What the parser answers when it is asked for ready calls a second time. */
  function SecondRequest(p: Parser): seq<ToolCall> { if |p.ready| >= 2 then p.ready[1] else [] }

  lemma ToldIsPlain(c: Codec, es: seq<Upstream>, end: Ending)
    requires forall e :: e in es ==> Whole(e)
    ensures
      var a, t := TalkAll(c, Silence, es), Told(c, es, end);
      && Plain(t) && !Touched(c, es, end)
      && (NoLateCalls(end.parser) ==> t.calls == a.calls && t.streamed == a.streamed)
      && t.calls == a.calls + Rendered(c, SecondRequest(end.parser))
  {
    hide TalkAll, TouchedIn, Whole, Think, Speak, Rendered, FinalText;
    TalkIsPlain(c, Silence, es);
    var a := TalkAll(c, Silence, es);
    SpeechIsPlain(c, a.(parser := end.parser), FinalText(end));
    NothingRendered(c);
    assert a.calls + [] == a.calls;
  }

  /** If no call is streamed, native or not, each call said arrives once, then those
      that are ready when the parser is asked a second time in the end, and then
      those of the answer beyond their number; and the finish says whether there
      are any. */
  lemma WholeCallsArriveOnce(codec: Codec, es: seq<Upstream>, end: Ending)
    requires forall e :: e in es ==> Whole(e)
    ensures
      var t, r := Told(codec, es, end), Run(codec, es, end);
      && t.calls == TalkAll(codec, Silence, es).calls + Rendered(codec, SecondRequest(end.parser))
      && Hears(r) == t.calls + Rendered(codec, Drop(AllCalls(t, end.calls), |t.calls|))
      && |r.wire| >= 2 && r.wire[|r.wire| - 2..] == [MessageDelta(Hears(r) != []), MessageStop]
  {
    hide Run, Hears, Told, TalkAll, Touched, Whole, Rendered;
    ToldIsPlain(codec, es, end);
    ClientHears(codec, es, end);
    StopReason(codec, es, end);
    var w := Run(codec, es, end).wire;
    assert w[|w| - 2..] == [w[|w| - 2], w[|w| - 1]];
  }

  lemma {:induction false} AnnouncedTalk(c: Codec, t: Talk, es: seq<Upstream>)
    requires Plain(t) && forall e :: e in es ==> Whole(e) && !e.Native?
    ensures
      var u := TalkAll(c, t, es);
      u.calls == t.calls + Rendered(c, Announced(es)) && u.streamed == t.streamed + Announced(es)
    decreases |es|
  {
    hide Plain, Whole, Rendered, TalkStep;
    NothingRendered(c);
    if es == [] {
      assert t.calls + [] == t.calls && t.streamed + [] == t.streamed;
    } else {
      assert es[0] in es;
      AnnouncedStep(c, t, es[0]);
      StepIsPlain(c, t, es[0]);
      AnnouncedTalk(c, TalkStep(c, t, es[0]), es[1..]);
      var first, rest := Announced([es[0]]), Announced(es[1..]);
      assert Announced([es[0]][1..]) == [];
      assert Announced(es) == first + rest;
      RenderedAppend(c, first, rest);
      assert t.calls + Rendered(c, first) + Rendered(c, rest) == t.calls + (Rendered(c, first) + Rendered(c, rest));
      assert t.streamed + first + rest == t.streamed + (first + rest);
    }
  }

  lemma AnnouncedStep(c: Codec, t: Talk, e: Upstream)
    requires Plain(t) && Whole(e) && !e.Native?
    ensures
      var u, first := TalkStep(c, t, e), Announced([e]);
      u.calls == t.calls + Rendered(c, first) && u.streamed == t.streamed + first
  {
    hide Reply, Solid, Rendered;
    NothingRendered(c);
    assert t.calls + [] == t.calls && t.streamed + [] == t.streamed;
    assert Announced([e][1..]) == [];
    if e.Answer? {
      assert Announced([e]) == e.ready;
      ReplyIsPlain(c, t.(started := true), e.parser, e.ready);
    }
  }

  /** If calls are only announced when they are complete, the client hears each
      announced call once, in order, and then those of the final list beyond
      their number: exactly the final list if and only if it begins with the
      announced calls. */
  lemma AnnouncedCallsArriveOnce(codec: Codec, es: seq<Upstream>, end: Ending)
    requires (forall e :: e in es ==> Whole(e) && !e.Native?) && NoLateCalls(end.parser)
    ensures
      var sent, r := Announced(es), Run(codec, es, end);
      && Hears(r) == Rendered(codec, sent + Drop(end.calls, |sent|))
      && (sent + Drop(end.calls, |sent|) == end.calls <==> sent <= end.calls)
      && |r.wire| >= 2 && r.wire[|r.wire| - 2..] == [MessageDelta(Hears(r) != []), MessageStop]
  {
    hide Run, Hears, Told, TalkAll, Whole, Rendered, NoLateCalls, Announced;
    var sent := Announced(es);
    WholeCallsArriveOnce(codec, es, end);
    ToldIsPlain(codec, es, end);
    AnnouncedTalk(codec, Silence, es);
    NothingRendered(codec);
    assert [] + sent == sent && [] + Rendered(codec, sent) == Rendered(codec, sent);
    DropCompletes(sent, end.calls);
    RenderedAppend(codec, sent, Drop(end.calls, |sent|));
  }

  // ---- Which of these runs are well formed -------------------------------

  predicate Textless(e: Upstream) { Whole(e) && (e.Answer? ==> e.parser.text == "") }

  lemma {:induction false} TextlessNeverClash(s: Stream, t: Talk, es: seq<Upstream>)
    requires Matches(s, t) && s.started == t.started && Plain(t) && forall e :: e in es ==> Textless(e)
    ensures !RunClashes(s, es)
    ensures t.started || (exists e :: e in es && Announces(e)) ==> TalkAll(s.codec, t, es).started
    decreases |es|
  {
    hide Body, ShapeOf, Hears, OpenIsLast, Dispatch, TalkStep, Solid;
    if es != [] {
      assert es[0] in es;
      DispatchMatches(s, t, es[0]);
      StepIsPlain(s.codec, t, es[0]);
      StepStarts(s.codec, t, es[0]);
      TextlessNeverClash(Dispatch(s, es[0]), TalkStep(s.codec, t, es[0]), es[1..]);
    }
  }

  lemma StepStarts(c: Codec, t: Talk, e: Upstream)
    ensures TalkStep(c, t, e).started == (t.started || Announces(e))
  {
    hide Reply, Leave;
  }

  lemma TextlessIsWhole(es: seq<Upstream>)
    requires forall e :: e in es ==> Textless(e)
    ensures forall e :: e in es ==> Whole(e)
  {}

  /** Native calls are well formed beside thinking and announced calls, as long
      as there is no text and what the end brings finds the message announced. */
  lemma TextlessRunsAreClean(codec: Codec, es: seq<Upstream>, end: Ending)
    requires (forall e :: e in es ==> Textless(e)) && FinalText(end) == ""
    requires (exists e :: e in es && Announces(e)) || Silent(end)
    ensures Clean(codec, es, end)
  {
    hide Body, ShapeOf, Hears, OpenIsLast, Events, RunClashes, TalkAll, Textless, TouchedIn, FinalText;
    SilenceMatches(codec);
    TextlessNeverClash(Init(codec), Silence, es);
    TextlessIsWhole(es);
    TalkIsPlain(codec, Silence, es);
    EventsMatch(Init(codec), Silence, es);
  }

  // ---- What the upstream means by its native calls ------------------------

  /** A native call of the upstream, under the index of its deltas. */
  datatype Meant = Meant(index: int, name: string, arguments: string)

  /** Has a call been begun under this index? */
  predicate Begun(m: seq<Meant>, index: int) {
    m != [] && (m[|m| - 1].index == index || Begun(m[..|m| - 1], index))
  }

  /** More arguments for the latest call of this index. */
  function Extend(m: seq<Meant>, index: int, arguments: string): (r: seq<Meant>)
    ensures |r| == |m|
  {
    if m == [] then []
    else
      var n := |m| - 1;
      if m[n].index == index then m[..n] + [m[n].(arguments := m[n].arguments + arguments)]
      else Extend(m[..n], index, arguments) + [m[n]]
  }

  function MeantStep(m: seq<Meant>, e: Upstream): seq<Meant> {
    if !e.Native? then m
    else if e.hasId then m + [Meant(e.index, e.name, e.arguments)]
    else Extend(m, e.index, e.arguments)
  }

  function MeantAll(m: seq<Meant>, es: seq<Upstream>): seq<Meant>
    decreases |es|
  {
    if es == [] then m else MeantAll(MeantStep(m, es[0]), es[1..])
  }

  function Calls(m: seq<Meant>): (r: seq<ToolCall>)
    ensures |r| == |m|
    ensures forall k :: 0 <= k < |m| ==> r[k] == ToolCall(m[k].name, m[k].arguments)
  {
    if m == [] then [] else Calls(m[..|m| - 1]) + [ToolCall(m[|m| - 1].name, m[|m| - 1].arguments)]
  }

  /** Arguments are for a call that was begun. */
  predicate Orderly(m: seq<Meant>, es: seq<Upstream>)
    decreases |es|
  {
    es != [] ==>
      && (es[0].Native? && !es[0].hasId && es[0].arguments != "" ==> Begun(m, es[0].index))
      && Orderly(MeantStep(m, es[0]), es[1..])
  }

  /** A native delta gets where it is meant to go: a call is begun after the
      message was announced, and arguments find their call the last one begun,
      with no thinking, no text and no other call since. */
  predicate OnCourse(t: Talk, m: seq<Meant>, e: Upstream) {
    if !e.Native? then true
    else if e.hasId then t.started || e.usage
    else e.arguments != "" ==> t.native && m != [] && m[|m| - 1].index == e.index
  }

  predicate AllOnCourse(c: Codec, t: Talk, m: seq<Meant>, es: seq<Upstream>)
    decreases |es|
  {
    es != [] ==> OnCourse(t, m, es[0]) && AllOnCourse(c, TalkStep(c, t, es[0]), MeantStep(m, es[0]), es[1..])
  }

  // ---- Native calls among all calls ---------------------------------------

  /** Where the native calls begin among the calls said. */
  function SpotsStep(t: Talk, spots: seq<nat>, e: Upstream): seq<nat> {
    if e.Native? && e.hasId && (t.started || Announces(e)) then spots + [|t.calls|] else spots
  }

  function Spots(c: Codec, t: Talk, spots: seq<nat>, es: seq<Upstream>): seq<nat>
    decreases |es|
  {
    if es == [] then spots else Spots(c, TalkStep(c, t, es[0]), SpotsStep(t, spots, es[0]), es[1..])
  }

  predicate InRange(calls: seq<ToolCall>, spots: seq<nat>) {
    forall k :: 0 <= k < |spots| ==> spots[k] < |calls|
  }

  function Pick(calls: seq<ToolCall>, spots: seq<nat>): (r: seq<ToolCall>)
    requires InRange(calls, spots)
    ensures |r| == |spots| && forall k :: 0 <= k < |r| ==> r[k] == calls[spots[k]]
  {
    if spots == [] then [] else [calls[spots[0]]] + Pick(calls, spots[1..])
  }

  lemma SamePick(a: seq<ToolCall>, b: seq<ToolCall>, spots: seq<nat>)
    requires InRange(a, spots) && a <= b
    ensures InRange(b, spots) && Pick(a, spots) == Pick(b, spots)
  {}

  /** The spots are in order, none is the call the parser is saying, and the last
      one is the native call that takes arguments. */
  predicate Spotted(t: Talk, spots: seq<nat>) {
    && Steady(t) && (t.native ==> t.started)
    && InRange(Firm(t), spots)
    && (forall j, k :: 0 <= j < k < |spots| ==> spots[j] < spots[k])
    && (t.native ==> spots != [] && spots[|spots| - 1] == |t.calls| - 1)
  }

  lemma SpottedFirmly(t: Talk, spots: seq<nat>)
    requires Spotted(t, spots)
    ensures Firm(t) <= t.calls && InRange(t.calls, spots) && Pick(t.calls, spots) == Pick(Firm(t), spots)
  {
    SamePick(Firm(t), t.calls, spots);
  }

  /** Whatever is not native leaves the native calls alone. */
  lemma OthersLeaveAlone(c: Codec, t: Talk, spots: seq<nat>, e: Upstream)
    requires Spotted(t, spots) && !e.Native?
    ensures
      var u := TalkStep(c, t, e);
      && Spotted(u, spots) && InRange(t.calls, spots) && Pick(u.calls, spots) == Pick(t.calls, spots)
      && (u.native ==> t.native)
  {
    hide TalkStep, Firm;
    StepMoves(c, t, e);
    StepStarts(c, t, e);
    SamePick(Firm(t), Firm(TalkStep(c, t, e)), spots);
    SpottedFirmly(t, spots);
    SpottedFirmly(TalkStep(c, t, e), spots);
  }

  /** An id begins a call behind all others. */
  lemma PassBegins(t: Talk, spots: seq<nat>, name: string, arguments: string)
    requires Spotted(t, spots) && t.started
    ensures
      var u, v := Pass(t, true, name, arguments), spots + [|t.calls|];
      && Spotted(u, v) && InRange(u.calls, v) && InRange(t.calls, spots)
      && Pick(u.calls, v) == Pick(t.calls, spots) + [ToolCall(name, arguments)]
  {
    hide Pick, More;
    SpottedFirmly(t, spots);
    assert "" + arguments == arguments;
    MoreLast(t.calls, ToolCall(name, ""), arguments);
    var u := Pass(t, true, name, arguments);
    assert u.calls == t.calls + [ToolCall(name, arguments)];
  }

  /** Arguments are added to the last call, if that is a native one. */
  lemma PassExtends(t: Talk, spots: seq<nat>, name: string, arguments: string)
    requires Spotted(t, spots)
    ensures
      var u := Pass(t, false, name, arguments);
      && Spotted(u, spots) && InRange(u.calls, spots) && InRange(t.calls, spots) && u.native == t.native
      && Pick(u.calls, spots)
         == if t.native then More(Pick(t.calls, spots), arguments) else Pick(t.calls, spots)
  {
    hide Pick;
    SpottedFirmly(t, spots);
    MoreNothing(Pick(t.calls, spots));
  }

  // ---- Calls and arguments that go missing --------------------------------

  /** Call `j` takes no more arguments. */
  predicate ClosedAt(t: Talk, calls: seq<ToolCall>, j: nat) { j < |calls| && (j < |calls| - 1 || !t.native) }

  /** Something is missing for good: a call, or arguments of a call that takes no
      more. */
  ghost predicate Short(t: Talk, calls: seq<ToolCall>, m: seq<Meant>) {
    && |calls| <= |m|
    && (|calls| == |m| ==> exists j: nat :: ClosedAt(t, calls, j) && |calls[j].arguments| < |m[j].arguments|)
  }

  lemma ShortDiffers(t: Talk, calls: seq<ToolCall>, m: seq<Meant>)
    requires Short(t, calls, m)
    ensures calls != Calls(m)
  {}

  lemma {:induction false} ExtendGrows(m: seq<Meant>, index: int, arguments: string)
    ensures forall j :: 0 <= j < |m| ==> |Extend(m, index, arguments)[j].arguments| >= |m[j].arguments|
    ensures Begun(m, index) && arguments != "" ==>
      exists j: nat :: j < |m| && |Extend(m, index, arguments)[j].arguments| > |m[j].arguments|
                       && (m[|m| - 1].index != index ==> j < |m| - 1)
  {
    if m != [] {
      var n := |m| - 1;
      var r := Extend(m, index, arguments);
      if m[n].index == index {
        assert |r[n].arguments| == |m[n].arguments| + |arguments|;
      } else {
        ExtendGrows(m[..n], index, arguments);
        var s := Extend(m[..n], index, arguments);
        assert forall j :: 0 <= j < n ==> r[j] == s[j] && m[..n][j] == m[j];
        if Begun(m, index) && arguments != "" {
          var j: nat :| j < n && |s[j].arguments| > |m[..n][j].arguments|;
          assert |r[j].arguments| > |m[j].arguments|;
        }
      }
    }
  }

  lemma CallsOfLast(m: seq<Meant>, e: Meant)
    ensures Calls(m + [e]) == Calls(m) + [ToolCall(e.name, e.arguments)]
  {
    assert (m + [e])[..|m|] == m;
  }

  /** What one event does to the native calls. */
  lemma NativesAfter(c: Codec, t: Talk, spots: seq<nat>, e: Upstream)
    requires Spotted(t, spots)
    ensures
      var u, v := TalkStep(c, t, e), SpotsStep(t, spots, e);
      && Spotted(u, v) && InRange(u.calls, v) && InRange(t.calls, spots)
      && (var before, after := Pick(t.calls, spots), Pick(u.calls, v);
          if !e.Native? then after == before && (u.native ==> t.native)
          else if e.hasId then
            if t.started || Announces(e) then after == before + [ToolCall(e.name, e.arguments)]
            else after == before && u.native == t.native
          else u.native == t.native && after == if t.native then More(before, e.arguments) else before)
  {
    hide Reply, Leave, Pass, Pick, Spotted;
    SpottedFirmly(t, spots);
    if e.Native? {
      var a := t.(started := t.started || Announces(e));
      assert Spotted(a, spots) by { SameSpots(t, a, spots); }
      if a.started {
        if e.hasId {
          PassBegins(a, spots, e.name, e.arguments);
        } else {
          PassExtends(a, spots, e.name, e.arguments);
        }
      } else {
        Unannounced(t, spots);
      }
    } else {
      OthersLeaveAlone(c, t, spots, e);
      SpottedFirmly(TalkStep(c, t, e), spots);
    }
  }

  lemma SameSpots(t: Talk, u: Talk, spots: seq<nat>)
    requires Spotted(t, spots) && u == t.(started := u.started) && (t.started ==> u.started)
    ensures Spotted(u, spots)
  {}

  lemma Unannounced(t: Talk, spots: seq<nat>)
    requires Spotted(t, spots) && !t.started
    ensures !t.native
  {}

  /** What is missing stays missing. */
  lemma ShortStays(c: Codec, t: Talk, spots: seq<nat>, m: seq<Meant>, e: Upstream)
    requires Spotted(t, spots) && InRange(t.calls, spots) && Short(t, Pick(t.calls, spots), m)
    ensures
      var u, v := TalkStep(c, t, e), SpotsStep(t, spots, e);
      InRange(u.calls, v) && Short(u, Pick(u.calls, v), MeantStep(m, e))
  {
    hide TalkStep, Extend, Pick, Spotted, InRange;
    NativesAfter(c, t, spots, e);
    var u, n := TalkStep(c, t, e), MeantStep(m, e);
    var before, after := Pick(t.calls, spots), Pick(u.calls, SpotsStep(t, spots, e));
    if e.Native? && !e.hasId { ExtendGrows(m, e.index, e.arguments); }
    if |after| == |n| {
      assert |before| == |m|;
      var j: nat :| ClosedAt(t, before, j) && |before[j].arguments| < |m[j].arguments|;
      assert ClosedAt(u, after, j) && after[j] == before[j];
    }
  }

  /** Off course something goes missing. */
  lemma OffCourse(c: Codec, t: Talk, spots: seq<nat>, m: seq<Meant>, e: Upstream)
    requires Spotted(t, spots) && InRange(t.calls, spots) && Pick(t.calls, spots) == Calls(m) && !OnCourse(t, m, e)
    requires e.Native? && !e.hasId && e.arguments != "" ==> Begun(m, e.index)
    ensures
      var u, v := TalkStep(c, t, e), SpotsStep(t, spots, e);
      InRange(u.calls, v) && Short(u, Pick(u.calls, v), MeantStep(m, e))
  {
    hide TalkStep, Extend, Pick, Spotted, InRange;
    NativesAfter(c, t, spots, e);
    var u, n := TalkStep(c, t, e), MeantStep(m, e);
    if !e.hasId {
      var before, after := Calls(m), Pick(u.calls, spots);
      ExtendGrows(m, e.index, e.arguments);
      var j: nat :| j < |m| && |n[j].arguments| > |m[j].arguments| && (m[|m| - 1].index != e.index ==> j < |m| - 1);
      assert ClosedAt(u, after, j) && after[j] == before[j];
    }
  }

  lemma MoreOfLast(m: seq<Meant>, index: int, arguments: string)
    requires m != [] && m[|m| - 1].index == index
    ensures More(Calls(m), arguments) == Calls(Extend(m, index, arguments))
  {
    hide Calls, More;
    var n := |m| - 1;
    assert m[..n] + [m[n]] == m;
    CallsOfLast(m[..n], m[n]);
    CallsOfLast(m[..n], m[n].(arguments := m[n].arguments + arguments));
    MoreLast(Calls(m[..n]), ToolCall(m[n].name, m[n].arguments), arguments);
  }

  /** On course everything arrives. */
  lemma StaysOnCourse(c: Codec, t: Talk, spots: seq<nat>, m: seq<Meant>, e: Upstream)
    requires Spotted(t, spots) && InRange(t.calls, spots) && Pick(t.calls, spots) == Calls(m) && OnCourse(t, m, e)
    ensures
      var u, v := TalkStep(c, t, e), SpotsStep(t, spots, e);
      InRange(u.calls, v) && Pick(u.calls, v) == Calls(MeantStep(m, e))
  {
    hide TalkStep, Extend, Calls, Pick, Spotted, InRange, More;
    NativesAfter(c, t, spots, e);
    if e.Native? {
      if e.hasId {
        CallsOfLast(m, Meant(e.index, e.name, e.arguments));
      } else if e.arguments == "" {
        ExtendNothing(m, e.index);
        MoreNothing(Calls(m));
      } else {
        MoreOfLast(m, e.index, e.arguments);
      }
    }
  }

  lemma {:induction false} ExtendNothing(m: seq<Meant>, index: int)
    ensures Extend(m, index, "") == m
  {
    if m != [] {
      var n := |m| - 1;
      ExtendNothing(m[..n], index);
      assert m[n].arguments + "" == m[n].arguments;
      assert m[..n] + [m[n]] == m;
    }
  }

  lemma {:induction false} MissingForGood(c: Codec, t: Talk, spots: seq<nat>, m: seq<Meant>, es: seq<Upstream>)
    requires Spotted(t, spots) && InRange(t.calls, spots) && Short(t, Pick(t.calls, spots), m)
    ensures
      var u, v := TalkAll(c, t, es), Spots(c, t, spots, es);
      Spotted(u, v) && InRange(u.calls, v) && Pick(u.calls, v) != Calls(MeantAll(m, es))
    decreases |es|
  {
    hide Spotted, InRange, Pick, Short, TalkStep, MeantStep, SpotsStep;
    if es == [] {
      ShortDiffers(t, Pick(t.calls, spots), m);
    } else {
      NativesAfter(c, t, spots, es[0]);
      ShortStays(c, t, spots, m, es[0]);
      MissingForGood(c, TalkStep(c, t, es[0]), SpotsStep(t, spots, es[0]), MeantStep(m, es[0]), es[1..]);
    }
  }

  lemma {:induction false} TalkIsMeant(c: Codec, t: Talk, spots: seq<nat>, m: seq<Meant>, es: seq<Upstream>)
    requires Spotted(t, spots) && InRange(t.calls, spots) && Pick(t.calls, spots) == Calls(m) && Orderly(m, es)
    ensures
      var u, v := TalkAll(c, t, es), Spots(c, t, spots, es);
      && Spotted(u, v) && InRange(u.calls, v)
      && (Pick(u.calls, v) == Calls(MeantAll(m, es)) <==> AllOnCourse(c, t, m, es))
    decreases |es|
  {
    hide Spotted, InRange, Pick, TalkStep, MeantStep, OnCourse, SpotsStep;
    if es != [] {
      var e := es[0];
      NativesAfter(c, t, spots, e);
      if OnCourse(t, m, e) {
        StaysOnCourse(c, t, spots, m, e);
        TalkIsMeant(c, TalkStep(c, t, e), SpotsStep(t, spots, e), MeantStep(m, e), es[1..]);
      } else {
        OffCourse(c, t, spots, m, e);
        MissingForGood(c, TalkStep(c, t, e), SpotsStep(t, spots, e), MeantStep(m, e), es[1..]);
      }
    }
  }

  /** Among whatever streamed and announced calls, thinking and text: the client
      gets every native call, in its place, with its name and all its arguments if
      and only if every native delta is on course. */
  lemma NativeCallsArrive(codec: Codec, es: seq<Upstream>, end: Ending)
    requires !Touched(codec, es, end) && Orderly([], es)
    ensures
      var heard, spots := Hears(Run(codec, es, end)), Spots(codec, Silence, [], es);
      && InRange(heard, spots)
      && (Pick(heard, spots) == Calls(MeantAll([], es)) <==> AllOnCourse(codec, Silence, [], es))
  {
    hide Run, Hears, Settle, Leftover, TalkAll, Spots, Rendered, Counted, Orderly, AllOnCourse, MeantAll, Pick, Firm;
    var heard, spots := Hears(Run(codec, es, end)), Spots(codec, Silence, [], es);
    assert Spotted(Silence, []) && Pick([], []) == [] == Calls([]);
    TalkIsMeant(codec, Silence, [], [], es);
    var t := TalkAll(codec, Silence, es);
    SpottedFirmly(t, spots);
    EndMoves(codec, t, end);
    ClientHears(codec, es, end);
    var u := Told(codec, es, end);
    FirmIsSaid(u);
    PrefixMore(Firm(t), Firm(u), u.calls);
    PrefixMore(Firm(t), u.calls, heard);
    SamePick(Firm(t), heard, spots);
  }

  lemma FirmIsSaid(t: Talk)
    ensures Firm(t) <= t.calls
  {}

  // ---- Native calls alone ------------------------------------------------

  /** No call is streamed or announced. */
  predicate Wordless(e: Upstream) { Whole(e) && (e.Answer? ==> e.ready == []) }

  lemma WordlessIsWhole(es: seq<Upstream>)
    requires forall e :: e in es ==> Wordless(e)
    ensures forall e :: e in es ==> Whole(e)
  {}

  /** Only native deltas add calls. */
  lemma WordlessStep(c: Codec, t: Talk, e: Upstream)
    requires Plain(t) && Wordless(e)
    ensures
      var u := TalkStep(c, t, e);
      && Plain(u) && u.streamed == t.streamed
      && |u.calls| - |t.calls| == |SpotsStep(t, [], e)|
  {
    hide Reply, Solid, Rendered;
    StepIsPlain(c, t, e);
    NothingRendered(c);
    assert t.calls + [] == t.calls && t.streamed + [] == t.streamed;
    if e.Answer? { ReplyIsPlain(c, t.(started := t.started || Announces(e)), e.parser, e.ready); }
  }

  lemma {:induction false} OnlyNatives(c: Codec, t: Talk, spots: seq<nat>, es: seq<Upstream>)
    requires Plain(t) && |spots| == |t.calls| && forall e :: e in es ==> Wordless(e)
    ensures |Spots(c, t, spots, es)| == |TalkAll(c, t, es).calls| && TalkAll(c, t, es).streamed == t.streamed
    decreases |es|
  {
    hide Plain, Wordless, TalkStep;
    if es != [] {
      assert es[0] in es;
      WordlessStep(c, t, es[0]);
      OnlyNatives(c, TalkStep(c, t, es[0]), SpotsStep(t, spots, es[0]), es[1..]);
    }
  }

  lemma {:induction false} AllSpots(spots: seq<nat>, n: nat)
    requires forall j, k :: 0 <= j < k < |spots| ==> spots[j] < spots[k]
    requires forall k :: 0 <= k < |spots| ==> spots[k] < n
    ensures |spots| <= n
    ensures |spots| == n ==> forall k :: 0 <= k < n ==> spots[k] == k
    decreases n
  {
    if spots != [] {
      var last := spots[|spots| - 1];
      AllSpots(spots[..|spots| - 1], last);
    }
  }

  lemma PickAll(calls: seq<ToolCall>, spots: seq<nat>)
    requires InRange(calls, spots) && |spots| == |calls|
    requires forall j, k :: 0 <= j < k < |spots| ==> spots[j] < spots[k]
    ensures Pick(calls, spots) == calls
  {
    AllSpots(spots, |calls|);
  }

  /** If there are no other calls, the client gets the native calls and nothing
      else under the same condition. */
  lemma NativeCallsAlone(codec: Codec, es: seq<Upstream>, end: Ending)
    requires (forall e :: e in es ==> Wordless(e)) && Orderly([], es)
    requires end.calls == [] && NoLateCalls(end.parser)
    ensures Hears(Run(codec, es, end)) == Calls(MeantAll([], es)) <==> AllOnCourse(codec, Silence, [], es)
  {
    hide Run, Hears, Told, TalkAll, Wordless, Rendered, NoLateCalls, Orderly, AllOnCourse, MeantAll, Touched, Spots;
    hide Pick, Firm;
    WordlessIsWhole(es);
    WholeCallsArriveOnce(codec, es, end);
    ToldIsPlain(codec, es, end);
    OnlyNatives(codec, Silence, [], es);
    assert Spotted(Silence, []) && Pick([], []) == [] == Calls([]);
    TalkIsMeant(codec, Silence, [], [], es);
    var t, spots := TalkAll(codec, Silence, es), Spots(codec, Silence, [], es);
    PickAll(t.calls, spots);
    NothingRendered(codec);
    assert t.calls + [] == t.calls;
  }

  /** Only native deltas, and arguments directly follow their own call. */
  predicate Straight(m: seq<Meant>, es: seq<Upstream>)
    decreases |es|
  {
    es != [] ==>
      && es[0].Native?
      && (!es[0].hasId && es[0].arguments != "" ==> m != [] && m[|m| - 1].index == es[0].index)
      && Straight(MeantStep(m, es[0]), es[1..])
  }

  lemma {:induction false} StraightIsOnCourse(c: Codec, t: Talk, m: seq<Meant>, es: seq<Upstream>)
    requires t.started && (m != [] ==> t.native) && Straight(m, es)
    ensures AllOnCourse(c, t, m, es) && Orderly(m, es) && forall e :: e in es ==> Wordless(e)
    decreases |es|
  {
    hide Extend, More;
    if es != [] { StraightIsOnCourse(c, TalkStep(c, t, es[0]), MeantStep(m, es[0]), es[1..]); }
  }

  /** In particular all of them, if the message is announced first, the upstream
      finishes one call before it begins the next, and nothing comes between. */
  lemma StraightCallsArrive(codec: Codec, es: seq<Upstream>, end: Ending)
    requires Straight([], es) && end.calls == [] && NoLateCalls(end.parser)
    ensures Hears(Run(codec, [PromptMeta] + es, end)) == Calls(MeantAll([], es))
  {
    hide Run, Hears, NoLateCalls, MeantAll, TalkAll, Calls;
    var all := [PromptMeta] + es;
    assert all[1..] == es;
    StraightIsOnCourse(codec, Silence.(started := true), [], es);
    assert AllOnCourse(codec, Silence, [], all);
    MeantUnfold(all);
    forall e | e in all ensures Wordless(e) { assert e == PromptMeta || e in es; }
    NativeCallsAlone(codec, all, end);
  }

  lemma MeantUnfold(es: seq<Upstream>)
    requires es != [] && es[0] == PromptMeta
    ensures MeantAll([], es) == MeantAll([], es[1..])
  {}

  // ---- Inputs on which native calls go wrong ------------------------------

  lemma {:induction false} DroppedBefore(s: Stream, es: seq<Upstream>)
    requires !s.started && forall e :: e in es ==> !Announces(e)
    ensures Events(s, es) == s
    decreases |es|
  {
    hide Body, ShapeOf, Dispatch, Keeps;
    if es != [] {
      assert es[0] in es;
      DroppedBefore(s, es[1..]);
    }
  }

  lemma {:induction false} PlainEventsHeard(w: seq<Event>)
    requires forall e :: e in w ==> !e.Start? && !e.Delta?
    ensures Heard([], w) == []
    decreases |w|
  {
    if w != [] { PlainEventsHeard(w[1..]); }
  }

  /** If nothing announces the message, as when the upstream sends native calls
      without usage, all calls are dropped: the client gets an empty message
      whose stop reason denies them. */
  lemma UnannouncedCallsVanish(codec: Codec, es: seq<Upstream>)
    requires forall e :: e in es ==> e.ResponseCreated? || ((e.Native? || e.Other?) && !e.usage)
    ensures
      var r := Run(codec, es, Ending(Unfed, "", []));
      r.wire == [MessageStart, MessageDelta(false), MessageStop] && Hears(r) == []
  {
    hide Body, ShapeOf, Events;
    DroppedBefore(Init(codec), es);
    var r := Run(codec, es, Ending(Unfed, "", []));
    assert r.wire == [MessageStart, MessageDelta(false), MessageStop];
    PlainEventsHeard(r.wire);
  }

  lemma TalkTwo(c: Codec, t: Talk, d: Upstream, e: Upstream)
    ensures TalkAll(c, t, [d, e]) == TalkStep(c, TalkStep(c, t, d), e)
  {
    hide TalkStep;
    assert [d, e][1..] == [e];
    var a := TalkStep(c, t, d);
    assert TalkAll(c, TalkStep(c, a, e), [e][1..]) == TalkStep(c, a, e);
  }

  lemma TalkFour(c: Codec, t: Talk, es: seq<Upstream>)
    requires |es| == 4
    ensures TalkAll(c, t, es) == TalkStep(c, TalkStep(c, TalkStep(c, TalkStep(c, t, es[0]), es[1]), es[2]), es[3])
  {
    hide TalkStep;
    assert es == [es[0], es[1]] + [es[2], es[3]];
    TalkAppend(c, t, [es[0], es[1]], [es[2], es[3]]);
    TalkTwo(c, t, es[0], es[1]);
    TalkTwo(c, TalkStep(c, TalkStep(c, t, es[0]), es[1]), es[2], es[3]);
  }

  lemma OnlyTheseCalls(codec: Codec, es: seq<Upstream>)
    requires forall e :: e in es ==> Textless(e) && !e.Answer?
    ensures
      var end := Ending(Unfed, "", []);
      Clean(codec, es, end) && Hears(Run(codec, es, end)) == TalkAll(codec, Silence, es).calls
  {
    hide Run, Clean, Hears, TalkAll, Told, Rendered;
    var end := Ending(Unfed, "", []);
    TextlessRunsAreClean(codec, es, end);
    ToldIsPlain(codec, es, end);
    WholeCallsArriveOnce(codec, es, end);
    OnlyNatives(codec, Silence, [], es);
    NothingRendered(codec);
    var t := Told(codec, es, end);
    assert t.calls + [] == t.calls;
  }

  /** Thinking between a native call and its arguments: the arguments are lost,
      although the message is well formed. */
  lemma ThinkingLosesArguments(codec: Codec, index: int, name: string, arguments: string, content: string)
    requires content != ""
    ensures
      var begin, go := Native(false, true, index, name, ""), Native(false, false, index, "", arguments);
      var es, end := [PromptMeta, begin, ThinkingPart(content), go], Ending(Unfed, "", []);
      Clean(codec, es, end) && Hears(Run(codec, es, end)) == [ToolCall(name, "")]
  {
    hide Run, Clean, Hears, TalkAll;
    var begin, go := Native(false, true, index, name, ""), Native(false, false, index, "", arguments);
    var es := [PromptMeta, begin, ThinkingPart(content), go];
    OnlyTheseCalls(codec, es);
    TalkFour(codec, Silence, es);
  }

  lemma MeantFour(es: seq<Upstream>)
    requires |es| == 4
    ensures MeantAll([], es)
            == MeantStep(MeantStep(MeantStep(MeantStep([], es[0]), es[1]), es[2]), es[3])
  {
    hide MeantStep;
    var a := MeantStep([], es[0]);
    var b := MeantStep(a, es[1]);
    var m := MeantStep(b, es[2]);
    var n := MeantStep(m, es[3]);
    assert MeantAll([], es) == MeantAll(a, es[1..]) == MeantAll(b, es[2..]);
    assert es[2..][1..] == es[3..] && es[3..][1..] == [];
    assert MeantAll(b, es[2..]) == MeantAll(m, es[3..]) == MeantAll(n, []) == n;
  }

  lemma ExtendFirst(a: Meant, b: Meant, arguments: string)
    requires a.index != b.index
    ensures Calls(Extend([a, b], a.index, arguments))
            == [ToolCall(a.name, a.arguments + arguments), ToolCall(b.name, b.arguments)]
  {
    assert [a, b][..1] == [a] && [a][..0] == [];
    var more := a.(arguments := a.arguments + arguments);
    assert Extend([a], a.index, arguments) == [] + [more] == [more];
    assert Extend([a, b], a.index, arguments) == [more] + [b];
  }

  lemma TwoBegun(c: Codec, t: Talk, first: Upstream, second: Upstream)
    requires first.Native? && second.Native? && first.hasId && second.hasId
    requires first.arguments == "" && second.arguments == "" && t.started && t.calls == []
    ensures
      var u := TalkStep(c, TalkStep(c, t, first), second);
      u.calls == [ToolCall(first.name, ""), ToolCall(second.name, "")] && u.native && u.started
  {}

  /** Two native calls whose deltas are interleaved: arguments of the first are
      given to the second, although the message is well formed. */
  lemma ArgumentsGoToLatestCall(codec: Codec, i: int, j: int, f: string, g: string, arguments: string)
    requires i != j
    ensures
      var first, second := Native(false, true, i, f, ""), Native(false, true, j, g, "");
      var es, end := [PromptMeta, first, second, Native(false, false, i, "", arguments)], Ending(Unfed, "", []);
      && Clean(codec, es, end) && Hears(Run(codec, es, end)) == [ToolCall(f, ""), ToolCall(g, arguments)]
      && Calls(MeantAll([], es)) == [ToolCall(f, arguments), ToolCall(g, "")]
  {
    hide Run, Clean, Hears, TalkAll, MeantAll, Extend, Calls;
    var first, second := Native(false, true, i, f, ""), Native(false, true, j, g, "");
    var go := Native(false, false, i, "", arguments);
    var es := [PromptMeta, first, second, go];
    OnlyTheseCalls(codec, es);
    assert "" + arguments == arguments;
    TalkFour(codec, Silence, es);
    var t := TalkStep(codec, Silence, PromptMeta);
    TwoBegun(codec, t, first, second);
    MoreLast([ToolCall(f, "")], ToolCall(g, ""), arguments);
    MeantFour(es);
    var a, b := Meant(i, f, ""), Meant(j, g, "");
    assert [] + [a] == [a] && [a] + [b] == [a, b];
    ExtendFirst(a, b, arguments);
  }
}
