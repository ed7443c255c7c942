/** The Anthropic event stream as the client receives it: which traces are
    well formed, and what text and arguments a trace carries. */
module AnthropicWire {
  import opened Common

  datatype Kind = Text | Thinking | Tool

  datatype Event =
    | MessageStart
    | Start(index: int, kind: Kind, name: string)
    | Delta(index: int, kind: Kind, body: string)
    | Stop(index: int)
    | MessageDelta(toolUse: bool)
    | MessageStop
    | Error

  /** How far a trace has got. `Idle(n)`: n blocks are complete and none is
      open. `Broken`: no continuation can make the trace well formed. */
  datatype Shape =
    | Fresh
    | Idle(next: nat)
    | Open(index: nat, kind: Kind)
    | Closing
    | Ended
    | Failed
    | Broken

  function Next(sh: Shape, e: Event): Shape {
    match (sh, e)
    case (Fresh, MessageStart) => Idle(0)
    case (Idle(n), Start(i, k, _)) => if i == n then Open(n, k) else Broken
    case (Open(n, k), Delta(i, d, _)) => if i == n && d == k then sh else Broken
    case (Open(n, k), Stop(i)) => if i == n then Idle(n + 1) else Broken
    case (Idle(_), MessageDelta(_)) => Closing
    case (Closing, MessageStop) => Ended
    case (Fresh, Error) => Failed
    case (Idle(_), Error) => Failed
    case (Open(_, _), Error) => Failed
    case (Closing, Error) => Failed
    case _ => Broken
  }

  function Advance(sh: Shape, es: seq<Event>): Shape
    decreases |es|
  {
    if es == [] then sh else Advance(Next(sh, es[0]), es[1..])
  }

  function ShapeOf(wire: seq<Event>): Shape { Advance(Fresh, wire) }

  lemma {:induction false} AdvanceAppend(sh: Shape, a: seq<Event>, b: seq<Event>)
    ensures Advance(sh, a + b) == Advance(Advance(sh, a), b)
    decreases |a|
  {
    if a == [] {
      assert a + b == b;
    } else {
      assert (a + b)[1..] == a[1..] + b;
      AdvanceAppend(Next(sh, a[0]), a[1..], b);
    }
  }

  lemma {:induction false} BrokenStays(es: seq<Event>)
    ensures Advance(Broken, es) == Broken
  {
    if es != [] { BrokenStays(es[1..]); }
  }

  /** Cutting a trace short never breaks it. */
  lemma PrefixUnbroken(part: seq<Event>, whole: seq<Event>)
    requires part <= whole && ShapeOf(whole) != Broken
    ensures ShapeOf(part) != Broken
  {
    assert whole == part + whole[|part|..];
    AdvanceAppend(Fresh, part, whole[|part|..]);
    BrokenStays(whole[|part|..]);
  }

  // ---- What a trace carries -------------------------------------------

  /** The bodies of all deltas of one kind, glued together. */
  function Body(wire: seq<Event>, k: Kind): string {
    if wire == [] then ""
    else (if wire[0].Delta? && wire[0].kind == k then wire[0].body else "") + Body(wire[1..], k)
  }

  /** The bodies of all deltas addressed to block `i`, glued together. */
  function BlockBody(wire: seq<Event>, i: int): string {
    if wire == [] then ""
    else (if wire[0].Delta? && wire[0].index == i then wire[0].body else "") + BlockBody(wire[1..], i)
  }

  lemma {:induction false} BodyAppend(a: seq<Event>, b: seq<Event>, k: Kind)
    ensures Body(a + b, k) == Body(a, k) + Body(b, k)
  {
    if a == [] {
      assert a + b == b;
    } else {
      assert (a + b)[1..] == a[1..] + b;
      BodyAppend(a[1..], b, k);
    }
  }

  lemma {:induction false} BlockBodyAppend(a: seq<Event>, b: seq<Event>, i: int)
    ensures BlockBody(a + b, i) == BlockBody(a, i) + BlockBody(b, i)
  {
    if a == [] {
      assert a + b == b;
    } else {
      assert (a + b)[1..] == a[1..] + b;
      BlockBodyAppend(a[1..], b, i);
    }
  }

  // ---- The grammar a complete trace follows ---------------------------

  /** One content block of a message. */
  datatype Block = Block(kind: Kind, name: string, bodies: seq<string>)

  function Deltas(i: int, k: Kind, bodies: seq<string>): (es: seq<Event>)
    ensures |es| == |bodies|
  {
    if bodies == [] then [] else [Delta(i, k, bodies[0])] + Deltas(i, k, bodies[1..])
  }

  function BlockEvents(i: int, b: Block): seq<Event> {
    [Start(i, b.kind, b.name)] + Deltas(i, b.kind, b.bodies) + [Stop(i)]
  }

  /** The blocks one after another, numbered from 0 without a gap. */
  function BlocksEvents(blocks: seq<Block>): seq<Event> {
    if blocks == [] then []
    else BlocksEvents(blocks[..|blocks| - 1]) + BlockEvents(|blocks| - 1, blocks[|blocks| - 1])
  }

  function Message(blocks: seq<Block>, toolUse: bool): seq<Event> {
    [MessageStart] + BlocksEvents(blocks) + [MessageDelta(toolUse), MessageStop]
  }

  lemma {:induction false} DeltasAdvance(i: nat, k: Kind, bodies: seq<string>)
    ensures Advance(Open(i, k), Deltas(i, k, bodies)) == Open(i, k)
  {
    if bodies != [] {
      assert Deltas(i, k, bodies)[1..] == Deltas(i, k, bodies[1..]);
      DeltasAdvance(i, k, bodies[1..]);
    }
  }

  lemma {:induction false} DeltasSnoc(i: int, k: Kind, bodies: seq<string>, last: string)
    ensures Deltas(i, k, bodies + [last]) == Deltas(i, k, bodies) + [Delta(i, k, last)]
  {
    if bodies == [] {
      assert bodies + [last] == [last];
      assert Deltas(i, k, [last]) == [Delta(i, k, last)] + Deltas(i, k, []);
    } else {
      assert (bodies + [last])[1..] == bodies[1..] + [last];
      DeltasSnoc(i, k, bodies[1..], last);
    }
  }

  lemma BlockAdvance(i: nat, b: Block)
    ensures Advance(Idle(i), BlockEvents(i, b)) == Idle(i + 1)
  {
    var head, body, closed := [Start(i, b.kind, b.name)], Deltas(i, b.kind, b.bodies), [Stop(i)];
    AdvanceAppend(Idle(i), head + body, closed);
    AdvanceAppend(Idle(i), head, body);
    DeltasAdvance(i, b.kind, b.bodies);
    assert Advance(Idle(i), head) == Advance(Open(i, b.kind), head[1..]);
    assert Advance(Open(i, b.kind), closed) == Advance(Idle(i + 1), closed[1..]);
  }

  lemma {:induction false} BlocksAdvance(blocks: seq<Block>)
    ensures Advance(Idle(0), BlocksEvents(blocks)) == Idle(|blocks|)
  {
    if blocks != [] {
      var n := |blocks| - 1;
      BlocksAdvance(blocks[..n]);
      AdvanceAppend(Idle(0), BlocksEvents(blocks[..n]), BlockEvents(n, blocks[n]));
      BlockAdvance(n, blocks[n]);
    }
  }

  /** Every message the grammar describes has a complete shape. */
  lemma MessageIsWellFormed(blocks: seq<Block>, toolUse: bool)
    ensures ShapeOf(Message(blocks, toolUse)) == Ended
  {
    var head, body, closed := [MessageStart], BlocksEvents(blocks), [MessageDelta(toolUse), MessageStop];
    AdvanceAppend(Fresh, head + body, closed);
    AdvanceAppend(Fresh, head, body);
    BlocksAdvance(blocks);
    assert Advance(Fresh, head) == Advance(Idle(0), head[1..]);
    assert Advance(Idle(|blocks|), closed) == Advance(Closing, closed[1..]);
    assert Advance(Closing, closed[1..]) == Advance(Ended, closed[2..]);
  }

  /** What a trace of each shape looks like. */
  ghost predicate Reads(sh: Shape, wire: seq<Event>, blocks: seq<Block>) {
    match sh
    case Fresh => wire == [] && blocks == []
    case Idle(n) => n == |blocks| && wire == [MessageStart] + BlocksEvents(blocks)
    case Open(i, k) =>
      && |blocks| == i + 1 && blocks[i].kind == k
      && wire == [MessageStart] + BlocksEvents(blocks[..i])
                 + ([Start(i, k, blocks[i].name)] + Deltas(i, k, blocks[i].bodies))
    case Closing => exists t :: wire == [MessageStart] + BlocksEvents(blocks) + [MessageDelta(t)]
    case Ended => exists t :: wire == Message(blocks, t)
    case _ => true
  }

  lemma ReadStart(wire: seq<Event>, bs: seq<Block>, k: Kind, name: string)
    requires Reads(Idle(|bs|), wire, bs)
    ensures Reads(Open(|bs|, k), wire + [Start(|bs|, k, name)], bs + [Block(k, name, [])])
  {
    assert (bs + [Block(k, name, [])])[..|bs|] == bs;
  }

  lemma ReadDelta(wire: seq<Event>, bs: seq<Block>, i: nat, k: Kind, body: string)
    requires Reads(Open(i, k), wire, bs)
    ensures Reads(Open(i, k), wire + [Delta(i, k, body)],
                  bs[i := bs[i].(bodies := bs[i].bodies + [body])])
  {
    DeltasSnoc(i, k, bs[i].bodies, body);
    assert bs[i := bs[i].(bodies := bs[i].bodies + [body])][..i] == bs[..i];
  }

  lemma ReadStop(wire: seq<Event>, bs: seq<Block>, i: nat, k: Kind)
    requires Reads(Open(i, k), wire, bs)
    ensures Reads(Idle(i + 1), wire + [Stop(i)], bs)
  {
    assert wire + [Stop(i)] == [MessageStart] + (BlocksEvents(bs[..i]) + BlockEvents(i, bs[i]));
  }

  lemma ReadFinish(wire: seq<Event>, bs: seq<Block>)
    requires Reads(Closing, wire, bs)
    ensures Reads(Ended, wire + [MessageStop], bs)
  {
    var t :| wire == [MessageStart] + BlocksEvents(bs) + [MessageDelta(t)];
    assert wire + [MessageStop] == Message(bs, t);
  }

  /** The blocks can be read back from any trace. */
  lemma {:induction false} Readable(wire: seq<Event>) returns (blocks: seq<Block>)
    ensures Reads(ShapeOf(wire), wire, blocks)
  {
    if wire == [] { return []; }
    var n := |wire| - 1;
    var before, e := wire[..n], wire[n];
    blocks := Readable(before);
    assert wire == before + [e];
    AdvanceAppend(Fresh, before, [e]);
    var sh := ShapeOf(before);
    assert ShapeOf(wire) == Next(sh, e) by { assert Advance(Next(sh, e), [e][1..]) == Next(sh, e); }
    if Next(sh, e) != Broken {
      match (sh, e)
      case (Idle(i), Start(_, k, name)) =>
        ReadStart(before, blocks, k, name);
        blocks := blocks + [Block(k, name, [])];
      case (Open(i, k), Delta(_, _, body)) =>
        ReadDelta(before, blocks, i, k, body);
        blocks := blocks[i := blocks[i].(bodies := blocks[i].bodies + [body])];
      case (Open(i, k), Stop(_)) =>
        ReadStop(before, blocks, i, k);
      case (Closing, MessageStop) =>
        ReadFinish(before, blocks);
      case _ =>
    }
  }

  /** The shape `Ended` says exactly that the trace is a complete message:
      start, numbered blocks that open, grow and close in turn, finish. */
  lemma EndedIsGrammar(wire: seq<Event>)
    ensures ShapeOf(wire) == Ended <==> exists blocks, t :: wire == Message(blocks, t)
  {
    var blocks := Readable(wire);
    if ShapeOf(wire) == Ended {
      assert exists t :: wire == Message(blocks, t);
    }
    forall bs, t | wire == Message(bs, t)
      ensures ShapeOf(wire) == Ended
    {
      MessageIsWellFormed(bs, t);
    }
  }
}
