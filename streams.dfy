/** The two stream wrappers around the audio helpers: the audio tap that
    feeds the mouth, and the conversation hooks that move the head. */
module Streams {
  import opened Actuators
  import opened Chunking
  import opened FishMotors

  /** FishDeviceStream: taps every buffer written for playback, queues it in
      chunks of 400 samples, and lets a mover thread judge one chunk per
      period. */
  class FishDeviceStream {
    const fish: Fish
    /** audioFifo, front first. */
    var audioFifo: seq<seq<int>>
    /** The mover thread is parked in audioFifo.get(), waiting for a chunk. */
    var waiting: bool

    /** The fish is valid and every queued chunk has between 1 and 400 samples. */
    ghost predicate Valid()
      reads this, fish, fish.duty, fish.dir
    {
      fish.Valid() && forall c | c in audioFifo :: 0 < |c| <= UPDATE_SAMPLES
    }

    /** The base class set-up, the pacing interval and the mover thread are
        not modelled. */
    constructor (fish: Fish)
      requires fish.Valid()
      ensures Valid() && this.fish == fish
      ensures audioFifo == [] && !waiting
    {
      this.fish := fish;
      audioFifo := [];
      waiting := false;
    }

    /** write: queue the decoded samples in chunks, in order, behind what is
        already queued, then hand the buffer on to playback. */
    method Write(samples: seq<int>)
      requires Valid()
      modifies this, fish`trace
      ensures Valid()
      ensures audioFifo == old(audioFifo) + Chunks(samples)
      ensures waiting == old(waiting)
      ensures fish.State() == old(fish.State())
      ensures fish.trace == old(fish.trace) + [Delegate(SuperWrite(samples))]
    {
      ghost var queued := old(audioFifo) + ChunksFrom(samples, 0);
      var i: nat := 0;
      while i < |samples|
        invariant audioFifo + ChunksFrom(samples, i) == queued
        invariant forall c | c in audioFifo :: 0 < |c| <= UPDATE_SAMPLES
        invariant waiting == old(waiting) && unchanged(fish)
        decreases |samples| - i
      {
        var chunk := samples[i..Lesser(i + UPDATE_SAMPLES, |samples|)];
        ghost var rest := ChunksFrom(samples, i + UPDATE_SAMPLES);
        assert ChunksFrom(samples, i) == [chunk] + rest;
        assert (audioFifo + [chunk]) + rest == audioFifo + ([chunk] + rest);
        audioFifo := audioFifo + [chunk];
        i := i + UPDATE_SAMPLES;
      }
      assert ChunksFrom(samples, i) == [];
      assert audioFifo == queued;
      fish.Delegated(SuperWrite(samples));
    }

    /** One pass of mouthMover. If the queue is empty when the pass starts,
        the motors are reset and the thread parks in get() until a chunk
        arrives; a parked thread finding the queue still empty stays parked
        without resetting again. Otherwise the front chunk is taken and the
        fish's randMouth flag becomes whether that chunk is loud. */
    method MouthMoverStep()
      requires Valid()
      modifies this, fish, fish.duty, fish.dir
      ensures Valid()
      ensures old(audioFifo) == [] ==> audioFifo == [] && waiting
      ensures old(audioFifo) == [] && !old(waiting) ==>
        fish.State() == AfterReset(old(fish.State())) && fish.trace == old(fish.trace) + ResetWrites
      ensures old(audioFifo) == [] && old(waiting) ==>
        fish.State() == old(fish.State()) && fish.trace == old(fish.trace)
      ensures old(audioFifo) != [] ==>
        audioFifo == old(audioFifo)[1..] && !waiting && fish.trace == old(fish.trace) &&
        fish.State() == old(fish.State()).(randMouth := Loud(old(audioFifo)[0]))
    {
      if |audioFifo| == 0 {
        if !waiting {
          fish.ResetMotors();
          waiting := true;
        }
      } else {
        var samples := audioFifo[0];
        assert samples in audioFifo;
        audioFifo := audioFifo[1..];
        fish.randMouth := Loud(samples);
        waiting := false;
      }
    }
  }

  /** FishConversationStream: head out before recording starts, reset after
      it stops. */
  class FishConversationStream {
    const fish: Fish

    constructor (fish: Fish)
      ensures this.fish == fish
    {
      this.fish := fish;
    }

    /** start_recording: the head moves out, then the base class starts recording. */
    method StartRecording()
      requires fish.Valid()
      modifies fish, fish.duty, fish.dir
      ensures fish.Valid()
      ensures fish.State() == HeadAfter(old(fish.State()), true)
      ensures fish.trace == old(fish.trace) + HeadWrites(old(fish.headOut), true)
                                            + [Delegate(SuperStartRecording)]
    {
      fish.ChangeHead(true);
      fish.Delegated(SuperStartRecording);
    }

    /** stop_recording: the motors are reset, then the base class stops recording. */
    method StopRecording()
      requires fish.Valid()
      modifies fish, fish.duty, fish.dir
      ensures fish.Valid()
      ensures fish.State() == AfterReset(old(fish.State()))
      ensures fish.trace == old(fish.trace) + ResetWrites + [Delegate(SuperStopRecording)]
    {
      fish.ResetMotors();
      fish.Delegated(SuperStopRecording);
    }
  }
}
