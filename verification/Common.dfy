/** Small shared vocabulary: optional values and the text helpers that both
    chat protocols use. */
module Common {
  datatype Option<+T> = None | Some(value: T)

  function Max(a: int, b: int): int { if a < b then b else a }

  function Min(a: int, b: int): int { if a < b then a else b }

  /** The longest piece of streamed text or JSON put in one event. */
  const STREAM_CHUNK_SIZE: nat := 20

  /** All pieces glued together in order. */
  function Concat(pieces: seq<string>): string {
    if pieces == [] then "" else pieces[0] + Concat(pieces[1..])
  }

  lemma {:induction false} ConcatAppend(a: seq<string>, b: seq<string>)
    ensures Concat(a + b) == Concat(a) + Concat(b)
  {
    if a == [] {
      assert a + b == b;
    } else {
      ConcatAppend(a[1..], b);
      assert (a + b)[1..] == a[1..] + b;
    }
  }

  /** The fixed-size pieces of a text; nothing for the empty text. */
  function Chunks(text: string): (pieces: seq<string>)
    ensures Concat(pieces) == text
    ensures forall p :: p in pieces ==> 0 < |p| <= STREAM_CHUNK_SIZE
    ensures forall k :: 0 <= k < |pieces| - 1 ==> |pieces[k]| == STREAM_CHUNK_SIZE
  {
    if |text| <= STREAM_CHUNK_SIZE then
      if text == "" then [] else
        assert Concat([text]) == text + Concat([]);
        [text]
    else
      var rest := Chunks(text[STREAM_CHUNK_SIZE..]);
      assert ([text[..STREAM_CHUNK_SIZE]] + rest)[1..] == rest;
      [text[..STREAM_CHUNK_SIZE]] + rest
  }

  /** What a growing buffer has gained since `last` characters of it were used.
      A buffer that did not grow contributes nothing. */
  function Grown(last: nat, current: string): string {
    if |current| <= last then "" else current[last..]
  }

  /** What has been used and what is gained make up the buffer exactly when the
      buffer extends what has been used. */
  lemma GrownCompletes(sent: string, text: string)
    ensures sent + Grown(|sent|, text) == text <==> sent <= text
    ensures sent <= text ==> Mark(|sent|, text) == |text|
  {
    if sent + Grown(|sent|, text) == text { assert text[..|sent|] == sent; }
  }

  /** How much of the buffer has been used after taking `Grown(last, current)`. */
  function Mark(last: nat, current: string): nat {
    if |current| <= last then last else |current|
  }
}
