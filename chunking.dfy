/** How the audio tap cuts decoded samples into chunks, and how a chunk is
    judged loud enough to animate the mouth. */
module Chunking {

  /** Samples per chunk (FishDeviceStream.UPDATE_SAMPLES). */
  const UPDATE_SAMPLES: nat := 400
  /** Peak-to-trough amplitude a chunk must exceed (MOUTH_THRESH). */
  const MOUTH_THRESH: int := 250

  function Lesser(a: int, b: int): int {
    if a <= b then a else b
  }

  /** The chunks `samples[i:i+400]` for i = start, start + 400, ... while
      i < |samples|, as the write loop produces them; Python clamps the end
      of the last slice to the length of the samples. There are
      ceil((|samples| - start) / 400) of them, each 1 to 400 samples long. */
  function ChunksFrom(samples: seq<int>, start: nat): (chunks: seq<seq<int>>)
    ensures forall c | c in chunks :: 0 < |c| <= UPDATE_SAMPLES
    ensures |chunks| == if start >= |samples| then 0
                        else (|samples| - start + UPDATE_SAMPLES - 1) / UPDATE_SAMPLES
    decreases |samples| - start
  {
    if start >= |samples| then []
    else [samples[start..Lesser(start + UPDATE_SAMPLES, |samples|)]]
         + ChunksFrom(samples, start + UPDATE_SAMPLES)
  }

  /** The chunks laid end to end. */
  function Flatten(chunks: seq<seq<int>>): seq<int> {
    if chunks == [] then [] else chunks[0] + Flatten(chunks[1..])
  }

  /** `chunks` cuts `samples` into non-empty pieces of 400, the last of which
      may be shorter. */
  ghost predicate IsPartition(chunks: seq<seq<int>>, samples: seq<int>) {
    Flatten(chunks) == samples &&
    (forall k | 0 <= k < |chunks| :: 0 < |chunks[k]| <= UPDATE_SAMPLES) &&
    (forall k | 0 <= k < |chunks| - 1 :: |chunks[k]| == UPDATE_SAMPLES)
  }

  /** The chunks of the write loop partition the samples from `start` on. */
  lemma {:induction false} ChunksFromPartition(samples: seq<int>, start: nat)
    requires start <= |samples|
    ensures IsPartition(ChunksFrom(samples, start), samples[start..])
    decreases |samples| - start
  {
    var cs := ChunksFrom(samples, start);
    if start == |samples| {
      assert samples[start..] == [];
    } else {
      var end := Lesser(start + UPDATE_SAMPLES, |samples|);
      var head := samples[start..end];
      if end == |samples| {
        assert ChunksFrom(samples, start + UPDATE_SAMPLES) == [];
        assert cs == [head];
        assert Flatten(cs) == head + Flatten([]);
        assert head == samples[start..];
      } else {
        var rest := ChunksFrom(samples, end);
        ChunksFromPartition(samples, end);
        assert cs == [head] + rest;
        assert cs[1..] == rest;
        assert Flatten(cs) == head + Flatten(rest);
        assert samples[start..] == head + samples[end..];
        assert |cs| == 1 + |rest|;
        forall k | 0 <= k < |cs|
          ensures 0 < |cs[k]| <= UPDATE_SAMPLES
          ensures k < |cs| - 1 ==> |cs[k]| == UPDATE_SAMPLES
        {
          if k > 0 {
            assert cs[k] == rest[k - 1];
          }
        }
      }
    }
  }

  /** The chunks write enqueues for a buffer: in order they are the samples
      again, each non-empty, all but the last exactly 400 long, and n samples
      make ceil(n / 400) of them. */
  function Chunks(samples: seq<int>): (chunks: seq<seq<int>>)
    ensures IsPartition(chunks, samples)
    ensures |chunks| == (|samples| + UPDATE_SAMPLES - 1) / UPDATE_SAMPLES
  {
    ChunksFromPartition(samples, 0);
    assert samples[0..] == samples;
    ChunksFrom(samples, 0)
  }

  /** The partition is unique: any cutting of the samples into non-empty pieces
      of 400 but the last is the one the write loop produces. */
  lemma {:induction false} PartitionUnique(chunks: seq<seq<int>>, samples: seq<int>, start: nat)
    requires start <= |samples|
    requires IsPartition(chunks, samples[start..])
    ensures chunks == ChunksFrom(samples, start)
    decreases |chunks|
  {
    if chunks == [] {
      assert samples[start..] == Flatten(chunks) == [];
    } else {
      var first := chunks[0];
      var rest := chunks[1..];
      assert Flatten(chunks) == first + Flatten(rest);
      assert 0 < |first| <= UPDATE_SAMPLES;
      var end := start + |first|;
      assert samples[start..] == first + Flatten(rest);
      assert end <= |samples|;
      assert first == samples[start..end];
      assert Flatten(rest) == samples[end..];
      if rest == [] {
        assert end == |samples|;
        assert Lesser(start + UPDATE_SAMPLES, |samples|) == end;
        assert ChunksFrom(samples, start + UPDATE_SAMPLES) == [];
      } else {
        assert |first| == UPDATE_SAMPLES;
        assert Lesser(start + UPDATE_SAMPLES, |samples|) == end;
        forall k | 0 <= k < |rest|
          ensures 0 < |rest[k]| <= UPDATE_SAMPLES
          ensures k < |rest| - 1 ==> |rest[k]| == UPDATE_SAMPLES
        {
          assert rest[k] == chunks[k + 1];
        }
        PartitionUnique(rest, samples, end);
      }
    }
  }

  /** Largest sample of a non-empty chunk (Python's max). */
  function Max(c: seq<int>): (m: int)
    requires |c| > 0
    ensures m in c
    ensures forall x | x in c :: x <= m
  {
    if |c| == 1 then c[0]
    else
      var rest := Max(c[1..]);
      assert forall x | x in c :: x == c[0] || x in c[1..];
      if c[0] >= rest then c[0] else rest
  }

  /** Smallest sample of a non-empty chunk (Python's min). */
  function Min(c: seq<int>): (m: int)
    requires |c| > 0
    ensures m in c
    ensures forall x | x in c :: m <= x
  {
    if |c| == 1 then c[0]
    else
      var rest := Min(c[1..]);
      assert forall x | x in c :: x == c[0] || x in c[1..];
      if c[0] <= rest then c[0] else rest
  }

  /** Peak-to-trough amplitude of a chunk. */
  function Amplitude(c: seq<int>): (a: int)
    requires |c| > 0
    ensures a >= 0
    ensures forall i, j | 0 <= i < |c| && 0 <= j < |c| :: c[i] - c[j] <= a
    ensures exists i, j | 0 <= i < |c| && 0 <= j < |c| :: c[i] - c[j] == a
  {
    assert forall i | 0 <= i < |c| :: c[i] in c;
    assert exists i, j | 0 <= i < |c| && 0 <= j < |c| :: c[i] - c[j] == Max(c) - Min(c) by {
      var i :| 0 <= i < |c| && c[i] == Max(c);
      var j :| 0 <= j < |c| && c[j] == Min(c);
      assert c[i] - c[j] == Max(c) - Min(c);
    }
    Max(c) - Min(c)
  }

  /** The test the audio tap applies to every chunk it dequeues: a chunk is
      loud exactly when two of its samples lie more than the threshold apart. */
  function Loud(c: seq<int>): (loud: bool)
    requires |c| > 0
    ensures loud <==> exists i, j | 0 <= i < |c| && 0 <= j < |c| :: c[i] - c[j] > MOUTH_THRESH
  {
    Amplitude(c) > MOUTH_THRESH
  }
}
