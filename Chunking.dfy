/**
 * Draining a stream buffer into fixed-size chunks: the
 * `while entry.samples.len() >= chunk_samples` loop that both audio
 * aggregators run after appending new samples to a stream buffer.
 */
module Chunking {

  /** The full chunks cut from the front of `s`, oldest first. */
  function Chunks<T>(s: seq<T>, n: nat): seq<seq<T>>
    requires n > 0
    decreases |s|
  {
    if |s| < n then [] else [s[..n]] + Chunks(s[n..], n)
  }

  /** What stays in the buffer once no full chunk is left. */
  function Residue<T>(s: seq<T>, n: nat): seq<T>
    requires n > 0
    decreases |s|
  {
    if |s| < n then s else Residue(s[n..], n)
  }

  /** The samples of a list of chunks, in dispatch order. */
  function Concat<T>(cs: seq<seq<T>>): seq<T> {
    if cs == [] then [] else cs[0] + Concat(cs[1..])
  }

  lemma ConcatOne<T>(x: seq<T>)
    ensures Concat([x]) == x
  {
    assert [x][1..] == [];
    assert Concat([x]) == x + Concat([]);
  }

  lemma {:induction false} ConcatAppend<T>(a: seq<seq<T>>, b: seq<seq<T>>)
    ensures Concat(a + b) == Concat(a) + Concat(b)
  {
    if a == [] {
      assert a + b == b;
    } else {
      assert (a + b)[1..] == a[1..] + b;
      ConcatAppend(a[1..], b);
    }
  }

  /** Conservation: the chunks followed by the residue give back the input. */
  lemma {:induction false} ChunksConserve<T>(s: seq<T>, n: nat)
    requires n > 0
    ensures Concat(Chunks(s, n)) + Residue(s, n) == s
    decreases |s|
  {
    if |s| >= n {
      ChunksConserve(s[n..], n);
      assert Chunks(s, n)[1..] == Chunks(s[n..], n);
      assert s == s[..n] + s[n..];
    }
  }

  /** Every chunk has exactly `n` samples and fewer than `n` stay behind. */
  lemma {:induction false} ChunkSizes<T>(s: seq<T>, n: nat)
    requires n > 0
    ensures forall i :: 0 <= i < |Chunks(s, n)| ==> |Chunks(s, n)[i]| == n
    ensures |Residue(s, n)| < n
    decreases |s|
  {
    if |s| >= n {
      ChunkSizes(s[n..], n);
      var cs := Chunks(s, n);
      forall i | 0 <= i < |cs| ensures |cs[i]| == n {
        if i > 0 { assert cs[i] == Chunks(s[n..], n)[i - 1]; }
      }
    }
  }

  /** Input shorter than one chunk is kept whole and nothing is cut. */
  lemma ShortInputStays<T>(s: seq<T>, n: nat)
    requires n > 0 && |s| < n
    ensures Chunks(s, n) == [] && Residue(s, n) == s
  {
  }

  /**
   * The drain loop: repeatedly remove exactly `n` samples from the front
   * of the buffer until fewer than `n` remain.
   */
  method DrainChunks<T>(samples: seq<T>, n: nat) returns (chunks: seq<seq<T>>, rest: seq<T>)
    requires n > 0
    ensures chunks == Chunks(samples, n) && rest == Residue(samples, n)
    ensures forall i :: 0 <= i < |chunks| ==> |chunks[i]| == n
    ensures |rest| < n
    ensures Concat(chunks) + rest == samples
  {
    chunks, rest := [], samples;
    while |rest| >= n
      invariant chunks + Chunks(rest, n) == Chunks(samples, n)
      invariant Residue(rest, n) == Residue(samples, n)
      decreases |rest|
    {
      assert Chunks(rest, n) == [rest[..n]] + Chunks(rest[n..], n);
      chunks := chunks + [rest[..n]];
      rest := rest[n..];
    }
    assert chunks == Chunks(samples, n);
    ChunkSizes(samples, n);
    ChunksConserve(samples, n);
  }
}
