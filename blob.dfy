/**
 * The recording buffer and the artifact built from it. Each data-available
 * event delivers one chunk of bytes; the stop handler builds one blob whose
 * bytes are the chunks' bytes in delivery order (action.js, handleStop).
 */
module Blob {

  newtype byte = x: int | 0 <= x < 256

  /** One fragment delivered by a data-available event. */
  type Chunk = seq<byte>

  /** The bytes of `new Blob(chunks)`: the chunks joined in order. */
  function Concat(cs: seq<Chunk>): seq<byte> {
    if cs == [] then [] else cs[0] + Concat(cs[1..])
  }

  /** The sum of the chunk sizes. */
  function TotalSize(cs: seq<Chunk>): nat {
    if cs == [] then 0 else |cs[0]| + TotalSize(cs[1..])
  }

  /** Joining two runs of chunks is joining their blobs. */
  lemma {:induction false} ConcatSplit(a: seq<Chunk>, b: seq<Chunk>)
    ensures Concat(a + b) == Concat(a) + Concat(b)
  {
    if a != [] {
      assert (a + b)[1..] == a[1..] + b;
      ConcatSplit(a[1..], b);
    } else {
      assert a + b == b;
    }
  }

  /** A chunk delivered last lands at the end of the blob. */
  lemma {:induction false} ConcatAppend(cs: seq<Chunk>, c: Chunk)
    ensures Concat(cs + [c]) == Concat(cs) + c
  {
    ConcatSplit(cs, [c]);
    assert Concat([c]) == c + Concat([]);
  }

  /** The blob's length is the sum of the chunk sizes. */
  lemma {:induction false} ConcatSize(cs: seq<Chunk>)
    ensures |Concat(cs)| == TotalSize(cs)
  {
    if cs != [] {
      ConcatSize(cs[1..]);
    }
  }

  /**
   * Chunk k sits in the blob right after the bytes of the chunks delivered
   * before it, and right before those delivered after it.
   */
  lemma ConcatAt(cs: seq<Chunk>, k: nat)
    requires k < |cs|
    ensures Concat(cs) == Concat(cs[..k]) + cs[k] + Concat(cs[k + 1..])
    ensures |Concat(cs[..k])| == TotalSize(cs[..k])
    ensures Concat(cs)[TotalSize(cs[..k])..TotalSize(cs[..k]) + |cs[k]|] == cs[k]
  {
    assert cs == cs[..k] + [cs[k]] + cs[k + 1..];
    ConcatSplit(cs[..k] + [cs[k]], cs[k + 1..]);
    ConcatAppend(cs[..k], cs[k]);
    ConcatSize(cs[..k]);
  }
}
