/** Inputs on which an Anthropic client gets the wrong tool calls. */
module AnthropicFaults {
  import opened Common
  import opened ToolParser
  import opened AnthropicWire
  import opened AnthropicSpec
  import opened AnthropicShape
  import opened AnthropicCalls
  import opened AnthropicTalk

  /** The message is announced, and nothing is said yet. */
  const Greeted := Silence.(started := true)

  lemma SayOne(c: Codec, t: Talk, d: ToolDelta)
    requires t.parser.deltas == [d] && d.json != ""
    ensures SayAll(c, t) == Say(c, t.(parser := t.parser.(deltas := [])), d)
  {
    hide Say;
    assert Consume(t.parser) == (Some(d), t.parser.(deltas := []));
    var a := Say(c, t.(parser := t.parser.(deltas := [])), d);
    assert SayAll(c, a) == a.(parser := Consume(a.parser).1);
    assert a.parser.deltas == [];
  }

  lemma TalkOne(c: Codec, t: Talk, e: Upstream)
    ensures TalkAll(c, t, [e]) == TalkStep(c, t, e)
  {
    hide TalkStep;
    assert TalkAll(c, TalkStep(c, t, e), [e][1..]) == TalkStep(c, t, e);
  }

  /** One answer that streams one delta. */
  lemma TalkDelta(c: Codec, t: Talk, d: ToolDelta, p: Parser)
    requires !t.talking && p == Unfed.(deltas := [d], text := p.text, hasCalls := p.hasCalls) && d.json != ""
    ensures
      Begin(t, SayAll(c, t.(parser := p)))
      == t.(calls := t.calls + [ToolCall(d.name, d.json)], talking := true, begun := t.begun + 1,
            parser := p.(deltas := []), native := false)
  {
    SayOne(c, t.(parser := p), d);
  }

  lemma NothingMissing(c: Codec, json: string, p: Parser)
    requires p.deltas == [] && p.completions == []
    ensures Arguments(c, json, p, None) == (json, p)
  {
    assert json + "" + "" == json;
    assert p.(deltas := []) == p;
  }

  lemma SpokenOver(c: Codec, d: ToolDelta, p: Parser, call: ToolCall)
    requires d.json != "" && p.text != "" && p == Unfed.(deltas := [d], text := p.text, hasCalls := true)
    ensures
      TalkStep(c, Silence, Answer(p, [call]))
      == Talk([ToolCall(d.name, d.json), ToolCall(call.name, c.render(call.arguments))], false, 1, 0, 1, [call],
              p.(deltas := []), |p.text|, 0, true, false, false)
  {
    hide Arguments, SayAll, Rendered;
    TalkDelta(c, Greeted, d, p);
    NothingMissing(c, d.json, p.(deltas := []));
    var said := ToolCall(d.name, d.json);
    assert [] + [said] == [said] && WithLast([said], d.json) == [said];
    RenderedCons(c, [call]);
    NothingRendered(c);
  }

  lemma NothingLeft(c: Codec, t: Talk, q: Parser, call: ToolCall)
    requires !t.talking && q == Unfed.(text := q.text, hasCalls := true) && t.lastSafe == |q.text|
    ensures
      var u := Settle(c, Leftover(c, t, Ending(q, "", [call])), [call]);
      u.calls == t.calls && u.uncounted == t.uncounted && u.skipped == t.skipped && u.begun == t.begun && !u.talking
  {
    NothingRendered(c);
    assert t.calls + [] == t.calls;
  }

  /** New text ends the call being said without counting it; the ready call that
      was said is then sent again as one of its own. */
  lemma SaidTwice(codec: Codec, d: ToolDelta, text: string, call: ToolCall)
    requires d.json != "" && text != ""
    ensures
      var p := Unfed.(deltas := [d], text := text, hasCalls := true);
      var end := Ending(p.(deltas := []), "", [call]);
      Hears(Run(codec, [Answer(p, [call])], end))
      == [ToolCall(d.name, d.json), ToolCall(call.name, codec.render(call.arguments))]
  {
    hide Run, Hears, TalkAll, TalkStep, Settle, Leftover, Touched;
    var p := Unfed.(deltas := [d], text := text, hasCalls := true);
    var es, end := [Answer(p, [call])], Ending(p.(deltas := []), "", [call]);
    UntouchedWithoutNatives(codec, es, end);
    ClientHears(codec, es, end);
    TalkOne(codec, Silence, es[0]);
    SpokenOver(codec, d, p, call);
    NothingLeft(codec, TalkStep(codec, Silence, es[0]), p.(deltas := []), call);
    NothingRendered(codec);
    var calls := [ToolCall(d.name, d.json), ToolCall(call.name, codec.render(call.arguments))];
    assert calls + [] == calls;
  }

  lemma SpokenAfter(c: Codec, d: ToolDelta, p: Parser)
    requires d.json != "" && p.text != "" && p == Unfed.(deltas := [d], text := p.text, hasCalls := true)
    ensures
      TalkStep(c, Silence, Answer(p, []))
      == Talk([ToolCall(d.name, d.json)], false, 1, 0, 1, [], p.(deltas := []), |p.text|, 0, true, false, false)
  {
    hide Arguments, SayAll;
    TalkDelta(c, Greeted, d, p);
    NothingMissing(c, d.json, p.(deltas := []));
    var said := ToolCall(d.name, d.json);
    assert [] + [said] == [said] && WithLast([said], d.json) == [said];
  }

  /** A call that is ended by text and announced in the final list alone is not sent
      again: the handler counts at least as many calls as answers began to stream. */
  lemma EndedByTextIsNotRepeated(codec: Codec, d: ToolDelta, text: string, call: ToolCall)
    requires d.json != "" && text != ""
    ensures
      var p := Unfed.(deltas := [d], text := text, hasCalls := true);
      Hears(Run(codec, [Answer(p, [])], Ending(p.(deltas := []), "", [call]))) == [ToolCall(d.name, d.json)]
  {
    hide Run, Hears, TalkAll, TalkStep, Settle, Leftover, Touched;
    var p := Unfed.(deltas := [d], text := text, hasCalls := true);
    var es, end := [Answer(p, [])], Ending(p.(deltas := []), "", [call]);
    UntouchedWithoutNatives(codec, es, end);
    ClientHears(codec, es, end);
    TalkOne(codec, Silence, es[0]);
    SpokenAfter(codec, d, p);
    NothingLeft(codec, TalkStep(codec, Silence, es[0]), p.(deltas := []), call);
    NothingRendered(codec);
    var calls := [ToolCall(d.name, d.json)];
    assert calls + [] == calls;
  }

  /** A call that breaks off, is announced late and gone when asked for again, is
      cut off for good. */
  lemma CutOffForGood(codec: Codec, d: ToolDelta, call: ToolCall)
    requires d.json != ""
    ensures
      var end := Ending(Unfed.(ready := [[call], []]), "", [call]);
      Hears(Run(codec, [Answer(Unfed.(deltas := [d]), [])], end)) == [ToolCall(d.name, d.json)]
  {
    hide Run, Hears, SayAll, Settle, TalkAll;
    var p, es := Unfed.(deltas := [d]), [Answer(Unfed.(deltas := [d]), [])];
    var end := Ending(Unfed.(ready := [[call], []]), "", [call]);
    TalkOne(codec, Silence, es[0]);
    TalkDelta(codec, Greeted, d, p);
    assert [] + [ToolCall(d.name, d.json)] == [ToolCall(d.name, d.json)];
    var b := Leftover(codec, TalkAll(codec, Silence, es), end);
    assert b.calls == [ToolCall(d.name, d.json)] && b.talking;
    assert [[call], []][1..] == [[]];
    UntouchedWithoutNatives(codec, es, end);
    OnlyCallCutOff(codec, es, end);
  }

  /** When a second call is said while more is queued behind its first delta, the
      queue goes to the first call. */
  lemma QueueGoesToOldCall(codec: Codec, x: ToolDelta, d: ToolDelta, e: ToolDelta)
    requires x.json != "" && d.json != "" && e.json != "" && d.name != x.name
    ensures
      var es := [Answer(Unfed.(deltas := [x]), []), Answer(Unfed.(deltas := [d, e]), [])];
      Hears(Events(Init(codec), es)) == [ToolCall(x.name, x.json + e.json), ToolCall(d.name, d.json)]
  {
    hide Events, Hears, SayAll;
    var p, q := Unfed.(deltas := [x]), Unfed.(deltas := [d, e]);
    var es := [Answer(p, []), Answer(q, [])];
    SilenceMatches(codec);
    NeverStale(codec, Silence, es);
    EventsMatch(Init(codec), Silence, es);
    TalkDelta(codec, Greeted, x, p);
    assert [] + [ToolCall(x.name, x.json)] == [ToolCall(x.name, x.json)];
    var a := TalkStep(codec, Silence, es[0]);
    assert a == Silence.(calls := [ToolCall(x.name, x.json)], talking := true, begun := 1, started := true);
    assert es[1..] == [es[1]];
    TalkOne(codec, a, es[1]);
    TwoQueued(codec, a.(parser := q), d, e);
  }

  lemma TwoQueued(c: Codec, t: Talk, d: ToolDelta, e: ToolDelta)
    requires t.talking && !t.native && |t.calls| == 1 && t.calls[0].name != d.name && d.json != "" && e.json != ""
    requires t.parser == Unfed.(deltas := [d, e])
    ensures SayAll(c, t) == t.(calls := [ToolCall(t.calls[0].name, t.calls[0].arguments + e.json),
                                         ToolCall(d.name, d.json)],
                               uncounted := t.uncounted + 1, parser := Unfed)
  {
    var p := t.parser.(deltas := [e]);
    assert [d, e][1..] == [e] && [e][1..] == [];
    assert Consume(t.parser) == (Some(d), p);
    assert Solid([e]) == [e] + Solid([]) && Json([e]) == e.json + Json([]);
    var json := t.calls[0].arguments;
    assert json + (e.json + "") + "" == json + e.json;
    assert Arguments(c, json, p, None) == (json + e.json, Unfed);
    var a := Say(c, t.(parser := p), d);
    assert a == t.(calls := [ToolCall(t.calls[0].name, json + e.json), ToolCall(d.name, d.json)],
                   uncounted := t.uncounted + 1, parser := Unfed);
    assert SayAll(c, t) == SayAll(c, a) == a;
  }

  // ---- The stop reason ---------------------------------------------------

  lemma BrokenOff(c: Codec, d: ToolDelta)
    requires d.json != ""
    ensures
      var t := Told(c, [Answer(Unfed.(deltas := [d]), [])], Ending(Unfed, "", []));
      t.calls == [ToolCall(d.name, d.json)] && !t.talking && t.streamed == [] && t.uncounted == 1 && t.skipped == 0
      && t.begun == 1
  {
    hide SayAll, TalkAll, Arguments;
    var p, es, end := Unfed.(deltas := [d]), [Answer(Unfed.(deltas := [d]), [])], Ending(Unfed, "", []);
    TalkOne(c, Silence, es[0]);
    TalkDelta(c, Greeted, d, p);
    var said := ToolCall(d.name, d.json);
    assert [] + [said] == [said] && WithLast([said], d.json) == [said];
    NothingMissing(c, d.json, Unfed);
  }

  /** Any single streamed delta: if nothing follows, the client hears the call
      and the finish denies it. */
  lemma OnlyCallDenied(codec: Codec, d: ToolDelta)
    requires d.json != ""
    ensures
      var r := Run(codec, [Answer(Unfed.(deltas := [d]), [])], Ending(Unfed, "", []));
      && Hears(r) == [ToolCall(d.name, d.json)]
      && |r.wire| >= 2 && r.wire[|r.wire| - 2..] == [MessageDelta(false), MessageStop]
  {
    hide Run, Hears, Told, Touched;
    var es, end := [Answer(Unfed.(deltas := [d]), [])], Ending(Unfed, "", []);
    UntouchedWithoutNatives(codec, es, end);
    ClientHears(codec, es, end);
    StopReason(codec, es, end);
    BrokenOff(codec, d);
    NothingRendered(codec);
    var said := [ToolCall(d.name, d.json)];
    assert said + [] == said;
    var w := Run(codec, es, end).wire;
    assert w[|w| - 2..] == [w[|w| - 2], w[|w| - 1]];
  }

  // ---- A ready call that is skipped --------------------------------------

  /** One delta and two ready calls in one answer: both count as sent, and of the
      two the client hears one. */
  lemma SecondReadyCallIsLost(codec: Codec, d: ToolDelta, a: ToolCall, b: ToolCall)
    requires d.json != ""
    ensures
      var p := Unfed.(hasCalls := true);
      var heard := Hears(Run(codec, [Answer(p.(deltas := [d]), [a, b])], Ending(p, "", [a, b])));
      |heard| == 1 && heard[0].name == d.name
  {
    hide Run, Hears, SayAll, TalkAll, Touched, Arguments, ExpectedArguments;
    var p := Unfed.(hasCalls := true);
    var es, end := [Answer(p.(deltas := [d]), [a, b])], Ending(p, "", [a, b]);
    UntouchedWithoutNatives(codec, es, end);
    ClientHears(codec, es, end);
    TalkOne(codec, Silence, es[0]);
    TalkDelta(codec, Greeted, d, p.(deltas := [d]));
    NothingRendered(codec);
    var t := TalkAll(codec, Silence, es);
    assert |t.calls| == 1 && t.calls[0].name == d.name && t.skipped == 1 && !t.talking && t.uncounted == 0;
  }
}
