/** The incremental tool-call parser as the stream handlers see it. Its
    internals are not part of this model: every answer it can give is data
    chosen freely for each feed, and the handlers are proved for all of it. */
module ToolParser {
  import opened Common

  datatype ToolCall = ToolCall(name: string, arguments: string)

  /** One streamed piece of a tool call's JSON arguments. */
  datatype ToolDelta = ToolDelta(name: string, json: string)

  /** What one request to complete an unfinished call answers, and whether the
      parser considers the call closed afterwards. */
  datatype Completion = Completion(piece: Option<ToolDelta>, closed: bool)

  /** Everything the parser will say until it is fed again. `deltas` is the
      queue of streamed pieces; `completions` and `ready` are the successive
      answers to the completion and ready-call requests, then nothing. */
  datatype Parser = Parser(
    deltas: seq<ToolDelta>,
    text: string,
    thinking: string,
    closed: bool,
    hasCalls: bool,
    completions: seq<Completion>,
    ready: seq<seq<ToolCall>>)

  const Unfed := Parser([], "", "", false, false, [], [])

  /** The next delta that carries JSON; deltas with empty JSON are skipped. */
  function Consume(p: Parser): (r: (Option<ToolDelta>, Parser))
    ensures r.1 == p.(deltas := r.1.deltas)
    ensures r.0.Some? ==> r.0.value.json != "" && |r.1.deltas| < |p.deltas|
    ensures r.0.None? ==> r.1.deltas == []
    ensures Solid(p.deltas) == (if r.0.Some? then [r.0.value] else []) + Solid(r.1.deltas)
    decreases |p.deltas|
  {
    if p.deltas == [] then (None, p)
    else if p.deltas[0].json == "" then Consume(p.(deltas := p.deltas[1..]))
    else (Some(p.deltas[0]), p.(deltas := p.deltas[1..]))
  }

  /** The queued deltas that carry JSON. */
  function Solid(ds: seq<ToolDelta>): seq<ToolDelta> {
    if ds == [] then []
    else (if ds[0].json == "" then [] else [ds[0]]) + Solid(ds[1..])
  }

  /** The JSON of a run of deltas, glued together. */
  function Json(ds: seq<ToolDelta>): string {
    if ds == [] then "" else ds[0].json + Json(ds[1..])
  }

  /** The closing JSON of an unfinished call, empty when there is none, and the
      parser after being asked for it. A closed call is not asked about. */
  function FinalJson(p: Parser): (r: (string, Parser))
    ensures r.1.deltas == p.deltas && r.1.text == p.text && r.1.thinking == p.thinking
    ensures r.1.ready == p.ready && r.1.hasCalls == p.hasCalls
  {
    if p.closed || p.completions == [] then ("", p)
    else
      var c := p.completions[0];
      (if c.piece.Some? then c.piece.value.json else "",
       p.(completions := p.completions[1..], closed := c.closed))
  }

  /** The piece with which the parser closes a call it has not finished. */
  function ClosingPiece(p: Parser): string {
    if p.closed || p.completions == [] || p.completions[0].piece.None? then ""
    else p.completions[0].piece.value.json
  }

  /** The parser has closed the call, by itself or when asked to complete it. */
  predicate ClosesCall(p: Parser) { p.closed || (p.completions != [] && p.completions[0].closed) }

  /** The calls that became ready since the last request. */
  function TakeReady(p: Parser): (r: (seq<ToolCall>, Parser))
    ensures r.1 == p.(ready := r.1.ready)
  {
    if p.ready == [] then ([], p) else (p.ready[0], p.(ready := p.ready[1..]))
  }

  // ---- Calls as a client puts them together -----------------------------

  /** More arguments for the last call. */
  function More(calls: seq<ToolCall>, json: string): seq<ToolCall> {
    if calls == [] then calls
    else
      var n := |calls| - 1;
      calls[..n] + [calls[n].(arguments := calls[n].arguments + json)]
  }

  lemma MoreNothing(calls: seq<ToolCall>)
    ensures More(calls, "") == calls
  {
    if calls != [] { assert calls[|calls| - 1].arguments + "" == calls[|calls| - 1].arguments; }
  }

  lemma MoreMore(calls: seq<ToolCall>, a: string, b: string)
    ensures More(More(calls, a), b) == More(calls, a + b)
  {
    if calls != [] {
      var n := |calls| - 1;
      assert calls[n].arguments + a + b == calls[n].arguments + (a + b);
    }
  }

  lemma MoreLast(calls: seq<ToolCall>, c: ToolCall, b: string)
    ensures More(calls + [c], b) == calls + [c.(arguments := c.arguments + b)]
  {
    assert (calls + [c])[..|calls|] == calls;
  }

  function Drop(calls: seq<ToolCall>, n: nat): seq<ToolCall> {
    if n < |calls| then calls[n..] else []
  }

  /** The calls sent and the rest of a list make up the list exactly when it
      begins with them. */
  lemma DropCompletes(sent: seq<ToolCall>, all: seq<ToolCall>)
    ensures sent + Drop(all, |sent|) == all <==> sent <= all
    ensures all == [] ==> sent + Drop(all, |sent|) == sent
  {
    if |sent| < |all| {
      assert sent <= all <==> sent == all[..|sent|];
      assert (sent + all[|sent|..])[..|sent|] == sent;
    } else {
      assert sent + [] == sent;
    }
  }
}
