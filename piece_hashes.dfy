/**
 * How the `pieces` byte string of a metainfo `info` dictionary is cut into
 * piece hashes: consecutive slices of HashLength bytes, in order.  Nothing
 * checks that the length is a multiple of HashLength; a shorter remainder
 * becomes a shorter last slice.
 */
module PieceHashes {

  /** The length in bytes of one SHA-1 piece hash. */
  const HashLength: nat := 20

  function Min(a: int, b: int): (m: int) {
    if a <= b then a else b
  }

  /** The slices `data` is cut into, first to last. */
  function Chunks(data: seq<bv8>): (chunks: seq<seq<bv8>>)
    decreases |data|
  {
    if data == [] then []
    else if |data| <= HashLength then [data]
    else [data[..HashLength]] + Chunks(data[HashLength..])
  }

  /** The slices joined back together, in order. */
  function Flatten(chunks: seq<seq<bv8>>): (data: seq<bv8>) {
    if chunks == [] then [] else chunks[0] + Flatten(chunks[1..])
  }

  /**
   * Every slice is non-empty and at most HashLength long, and every slice
   * but the last is exactly HashLength long.
   */
  predicate WellChunked(chunks: seq<seq<bv8>>) {
    && (forall k | 0 <= k < |chunks| :: 1 <= |chunks[k]| <= HashLength)
    && (forall k | 0 <= k < |chunks| - 1 :: |chunks[k]| == HashLength)
  }

  /** Joining the slices in order gives back the byte string. */
  lemma {:induction false} FlattenChunks(data: seq<bv8>)
    ensures Flatten(Chunks(data)) == data
    decreases |data|
  {
    if |data| > HashLength {
      var rest := data[HashLength..];
      FlattenChunks(rest);
      assert Chunks(data)[1..] == Chunks(rest);
      assert data == data[..HashLength] + rest;
    }
  }

  /** There are ceil(|data| / HashLength) slices; none for an empty string. */
  lemma {:induction false} ChunksCount(data: seq<bv8>)
    ensures |Chunks(data)| == (|data| + HashLength - 1) / HashLength
    ensures Chunks(data) == [] <==> data == []
    decreases |data|
  {
    if |data| > HashLength {
      ChunksCount(data[HashLength..]);
    }
  }

  /** Slice k is the k-th run of HashLength bytes, cut short at the end. */
  lemma {:induction false} ChunksAt(data: seq<bv8>, k: nat)
    requires k < |Chunks(data)|
    ensures HashLength * k < |data|
    ensures Chunks(data)[k] == data[HashLength * k .. Min(HashLength * k + HashLength, |data|)]
    decreases |data|
  {
    if k > 0 {
      var rest := data[HashLength..];
      assert Chunks(data) == [data[..HashLength]] + Chunks(rest);
      ChunksAt(rest, k - 1);
      assert rest[HashLength * (k - 1) .. Min(HashLength * (k - 1) + HashLength, |rest|)]
          == data[HashLength * k .. Min(HashLength * k + HashLength, |data|)];
    }
  }

  /** The slices have the shape of piece hashes, except a short last one. */
  lemma {:induction false} ChunksWellChunked(data: seq<bv8>)
    ensures WellChunked(Chunks(data))
  {
    var chunks := Chunks(data);
    ChunksCount(data);
    forall k | 0 <= k < |chunks|
      ensures 1 <= |chunks[k]| <= HashLength
      ensures k < |chunks| - 1 ==> |chunks[k]| == HashLength
    {
      ChunksAt(data, k);
    }
  }

  /**
   * The converse of FlattenChunks: slices of piece-hash shape are exactly
   * what cutting their concatenation produces.
   */
  lemma {:induction false} ChunksFlatten(chunks: seq<seq<bv8>>)
    requires WellChunked(chunks)
    ensures Chunks(Flatten(chunks)) == chunks
    decreases |chunks|
  {
    if chunks != [] {
      var rest := chunks[1..];
      assert WellChunked(rest) by {
        forall k | 0 <= k < |rest| ensures 1 <= |rest[k]| <= HashLength {
          assert rest[k] == chunks[k + 1];
        }
        forall k | 0 <= k < |rest| - 1 ensures |rest[k]| == HashLength {
          assert rest[k] == chunks[k + 1];
        }
      }
      ChunksFlatten(rest);
      var data := Flatten(chunks);
      assert data == chunks[0] + Flatten(rest);
      if rest == [] {
        assert data == chunks[0];
      } else {
        assert |chunks[0]| == HashLength;
        assert 1 <= |rest[0]|;
        assert Flatten(rest) == rest[0] + Flatten(rest[1..]);
        assert data[..HashLength] == chunks[0];
        assert data[HashLength..] == Flatten(rest);
      }
    }
  }

  /** Forty bytes are two full piece hashes, first half then second half. */
  lemma FortyBytes(data: seq<bv8>)
    requires |data| == 40
    ensures Chunks(data) == [data[..20], data[20..]]
  {
  }

  /**
   * A length that is not a multiple of HashLength is not rejected: 41 bytes
   * give two full slices and a one-byte third one.
   */
  lemma FortyOneBytes(data: seq<bv8>)
    requires |data| == 41
    ensures Chunks(data) == [data[..20], data[20..40], data[40..]]
  {
    var rest := data[20..];
    assert rest[..20] == data[20..40];
    assert rest[20..] == data[40..];
    assert Chunks(rest[20..]) == [data[40..]];
  }
}
