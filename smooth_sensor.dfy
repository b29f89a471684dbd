/** The sampling side of SmoothSensor.kt: each poll of the sensor pushes a
    finite reading into a ten-entry ring buffer (and into the recording,
    while one is running), and `get()` answers with the latest reading until
    the buffer has filled once.

    The background polling loop is modelled as one call of `Poll` per
    reading; a reading that is not finite is given as `None`. */
module Sensors {
  import opened Wrappers

  const SAMPLE_DELAY_MS: nat := 100

  /** One second of samples. */
  const HISTORY_SIZE: nat := 1000 / SAMPLE_DELAY_MS

  /** The last `n` elements of `s` (all of `s` when it is shorter). */
  function LastN(s: seq<real>, n: nat): (r: seq<real>)
    ensures |r| == if |s| <= n then |s| else n
    ensures forall i :: 0 <= i < |r| ==> r[i] == s[|s| - |r| + i]
  {
    if |s| <= n then s else s[|s| - n..]
  }

  /** `CircularFifoQueue.add`: append, evicting the oldest entry when the
      queue is full. */
  function PushBounded(queue: seq<real>, x: real, capacity: nat): (r: seq<real>)
    requires 0 < capacity && |queue| <= capacity
    ensures |r| == if |queue| < capacity then |queue| + 1 else capacity
    ensures r[|r| - 1] == x
  {
    if |queue| < capacity then queue + [x] else queue[1..] + [x]
  }

  /** Before the new entry, the queue keeps its entries in order, less the
      oldest one when it was full. */
  lemma PushKeepsOrder(queue: seq<real>, x: real, capacity: nat)
    requires 0 < capacity && |queue| <= capacity
    ensures var r := PushBounded(queue, x, capacity);
            && (|queue| < capacity ==> r[..|r| - 1] == queue)
            && (|queue| == capacity ==> r[..|r| - 1] == queue[1..])
  {
    var r := PushBounded(queue, x, capacity);
    if |queue| < capacity {
      assert r == queue + [x];
    } else {
      assert r == queue[1..] + [x];
    }
  }

  /** Pushing onto the last `n` samples keeps exactly the last `n` samples:
      the ring buffer never exceeds its capacity and keeps arrival order. */
  lemma PushKeepsLastN(s: seq<real>, x: real, n: nat)
    requires n > 0
    ensures |LastN(s, n)| <= n
    ensures PushBounded(LastN(s, n), x, n) == LastN(s + [x], n)
  {
    var t := s + [x];
    if |s| < n {
      assert LastN(s, n) == s;
    } else {
      assert LastN(s, n)[1..] + [x] == t[|t| - n..];
    }
  }

  class SmoothSensor {
    var sampleHistory: seq<real>
    var sampleCount: int
    var directSampleCount: int
    var recording: seq<real>
    var isRecording: bool
    /** Every finite reading so far, oldest first. */
    ghost var samples: seq<real>

    /** The buffer holds the last `HISTORY_SIZE` finite readings and the
        count is the number of finite readings. */
    ghost predicate Valid()
      reads this
    {
      sampleHistory == LastN(samples, HISTORY_SIZE) && sampleCount == |samples|
    }

    constructor ()
      ensures Valid() && samples == [] && recording == [] && !isRecording
      ensures directSampleCount == 0
    {
      sampleHistory, sampleCount, directSampleCount := [], 0, 0;
      recording, isRecording := [], false;
      samples := [];
    }

    /** One pass of the polling loop with the reading `sample`. */
    method Poll(sample: Option<real>)
      requires Valid()
      modifies this
      ensures Valid()
      ensures isRecording == old(isRecording) && directSampleCount == old(directSampleCount)
      ensures sample.None? ==>
                && samples == old(samples) && sampleHistory == old(sampleHistory)
                && sampleCount == old(sampleCount) && recording == old(recording)
      ensures sample.Some? ==>
                && samples == old(samples) + [sample.value]
                && sampleHistory == PushBounded(old(sampleHistory), sample.value, HISTORY_SIZE)
                && sampleCount == old(sampleCount) + 1
                && recording == old(recording) + (if isRecording then [sample.value] else [])
    {
      if sample.Some? {
        PushKeepsLastN(samples, sample.value, HISTORY_SIZE);
        sampleHistory := PushBounded(sampleHistory, sample.value, HISTORY_SIZE);
        sampleCount := sampleCount + 1;
        samples := samples + [sample.value];
        if isRecording {
          recording := recording + [sample.value];
        }
      }
    }

    /** `startRecording()`: only raises the flag. */
    method StartRecording()
      modifies this
      ensures isRecording
      ensures sampleHistory == old(sampleHistory) && sampleCount == old(sampleCount)
      ensures directSampleCount == old(directSampleCount) && recording == old(recording)
      ensures samples == old(samples)
    {
      isRecording := true;
    }

    /** `stopRecording()`: lowers the flag and hands over the recorded
        readings, in arrival order, leaving the recording empty. */
    method StopRecording() returns (results: seq<real>)
      modifies this
      ensures !isRecording && recording == []
      ensures results == old(recording)
      ensures sampleHistory == old(sampleHistory) && sampleCount == old(sampleCount)
      ensures directSampleCount == old(directSampleCount) && samples == old(samples)
    {
      isRecording := false;
      results := recording;
      recording := [];
    }

    /** The warm-up branch of `get()`: the most recent reading, counted as a
        direct answer. With no reading yet, `last()` throws; that is `None`. */
    method Get() returns (r: Option<real>)
      requires Valid() && sampleCount < HISTORY_SIZE
      modifies this
      ensures Valid()
      ensures r.Some? <==> samples != []
      ensures r.Some? ==> r.value == samples[|samples| - 1]
      ensures directSampleCount == old(directSampleCount) + 1
      ensures sampleHistory == old(sampleHistory) && sampleCount == old(sampleCount)
      ensures recording == old(recording) && isRecording == old(isRecording)
      ensures samples == old(samples)
    {
      directSampleCount := directSampleCount + 1;
      if sampleHistory == [] {
        r := None;
      } else {
        r := Some(sampleHistory[|sampleHistory| - 1]);
      }
    }
  }
}
