/** Byte sequences, batches of bytes and the cutting of a byte string into batches. */
module Streams {

  type byte = x: int | 0 <= x < 256

  /** Channel.batchSize, the size of every cut; bufio.NewReader's default buffer has the same size. */
  const BATCH: nat := 4096

  function Min(a: int, b: int): (m: int)
    ensures m <= a && m <= b && (m == a || m == b)
  {
    if a < b then a else b
  }

  /** All batches joined, in order. */
  function Flatten(batches: seq<seq<byte>>): seq<byte> {
    if batches == [] then [] else batches[0] + Flatten(batches[1..])
  }

  /** The cut that Write and OnData make: full batches, then the short remainder. */
  function Chunks(data: seq<byte>): seq<seq<byte>>
    decreases |data|
  {
    if data == [] then []
    else
      var k := Min(BATCH, |data|);
      [data[..k]] + Chunks(data[k..])
  }

  lemma {:induction false} FlattenAppend(a: seq<seq<byte>>, b: seq<seq<byte>>)
    ensures Flatten(a + b) == Flatten(a) + Flatten(b)
  {
    if a == [] {
      assert a + b == b;
    } else {
      assert (a + b)[1..] == a[1..] + b;
      FlattenAppend(a[1..], b);
    }
  }

  lemma FlattenOne(b: seq<byte>)
    ensures Flatten([b]) == b
  {
    assert Flatten([b]) == b + Flatten([]);
  }

  lemma FlattenSnoc(a: seq<seq<byte>>, b: seq<byte>)
    ensures Flatten(a + [b]) == Flatten(a) + b
  {
    FlattenAppend(a, [b]);
    FlattenOne(b);
  }

  /** Cutting loses, adds and reorders nothing. */
  lemma {:induction false} FlattenChunks(data: seq<byte>)
    ensures Flatten(Chunks(data)) == data
    decreases |data|
  {
    if data != [] {
      var k := Min(BATCH, |data|);
      FlattenChunks(data[k..]);
      assert Chunks(data)[1..] == Chunks(data[k..]);
      assert data == data[..k] + data[k..];
    }
  }

  ghost predicate GoodBatches(batches: seq<seq<byte>>) {
    forall i :: 0 <= i < |batches| ==> 0 < |batches[i]| <= BATCH
  }

  /** Every batch is non-empty, every one but the last is full, and there are ceil(n / BATCH) of them. */
  lemma {:induction false} ChunksShape(data: seq<byte>)
    ensures GoodBatches(Chunks(data))
    ensures |Chunks(data)| == (|data| + BATCH - 1) / BATCH == (|data| + 4095) / 4096
    ensures forall i :: 0 <= i < |Chunks(data)| - 1 ==> |Chunks(data)[i]| == BATCH
    decreases |data|
  {
    if data != [] {
      var k := Min(BATCH, |data|);
      ChunksShape(data[k..]);
    }
  }

  /** One turn of the cutting loop at offset i. */
  lemma ChunksFrom(data: seq<byte>, i: nat)
    requires i < |data|
    ensures var end := Min(i + BATCH, |data|); Chunks(data[i..]) == [data[i..end]] + Chunks(data[end..])
  {
    var end := Min(i + BATCH, |data|);
    assert data[i..][..end - i] == data[i..end] && data[i..][end - i..] == data[end..];
  }

  /** The first i batches are the first i * BATCH bytes, or all of the data at the end. */
  lemma {:induction false} ChunksPrefix(data: seq<byte>, i: nat)
    requires i <= |Chunks(data)|
    ensures Flatten(Chunks(data)[..i]) == data[..Min(i * BATCH, |data|)]
    decreases |data|
  {
    if data != [] && i > 0 {
      var k := Min(BATCH, |data|);
      var tail := data[k..];
      ChunksPrefix(tail, i - 1);
      assert Chunks(data)[..i] == [data[..k]] + Chunks(tail)[..i - 1];
      FlattenAppend([data[..k]], Chunks(tail)[..i - 1]);
      FlattenOne(data[..k]);
      if k == BATCH {
        assert data[..Min(i * BATCH, |data|)] == data[..k] + tail[..Min((i - 1) * BATCH, |tail|)];
      } else {
        assert tail == [];
      }
    }
  }
}
