/**
 * The heart-rate chart shown during the survey: a sliding window of the most
 * recent samples. Each tick appends a sample with a random rate and keeps
 * only the last thirty. The clock reading and the random draw are parameters.
 */
module HeartRate {

  /** How many samples the chart keeps. */
  const Capacity: nat := 30

  /** One point of the chart: the minute:second label and the rate in beats per minute. */
  datatype Sample = Sample(time: string, bpm: int)

  /** The last `Capacity` entries of `s` (all of them when there are fewer), as `slice(-30)` keeps them. */
  function LastSamples(s: seq<Sample>): (w: seq<Sample>)
    ensures |w| == if |s| < Capacity then |s| else Capacity
    ensures w == s[|s| - |w|..]
  {
    if |s| <= Capacity then s else s[|s| - Capacity..]
  }

  /**
   * The window after appending `x` to `prev`: it never holds more than
   * `Capacity` samples, the new one is last, and the ones before it are the
   * latest of `prev`, in order.
   */
  function Window(prev: seq<Sample>, x: Sample): (w: seq<Sample>)
    ensures 1 <= |w| <= Capacity
    ensures w[|w| - 1] == x
    ensures |w| - 1 <= |prev| && w[..|w| - 1] == prev[|prev| - (|w| - 1)..]
  {
    LastSamples(prev + [x])
  }

  /** Below capacity nothing is dropped: the sample is appended. */
  lemma WindowAppendsWhenShort(prev: seq<Sample>, x: Sample)
    requires |prev| < Capacity
    ensures Window(prev, x) == prev + [x]
  {
  }

  /** At capacity the oldest sample is dropped and the others keep their order. */
  lemma WindowDropsOldestWhenFull(prev: seq<Sample>, x: Sample)
    requires |prev| == Capacity
    ensures Window(prev, x) == prev[1..] + [x]
  {
    assert (prev + [x])[1..] == prev[1..] + [x];
  }

  /** The window after feeding the samples of `stream` in order into `w`. */
  function Feed(w: seq<Sample>, stream: seq<Sample>): seq<Sample>
  {
    if stream == [] then w else Window(Feed(w, stream[..|stream| - 1]), stream[|stream| - 1])
  }

  /** Cutting before appending keeps the same last samples as cutting after it. */
  lemma WindowOfLatest(s: seq<Sample>, x: Sample)
    ensures Window(LastSamples(s), x) == LastSamples(s + [x])
  {
    if |s| > Capacity {
      var w := s[|s| - Capacity..];
      assert (w + [x])[1..] == (s + [x])[|s| + 1 - Capacity..];
    }
  }

  /** Feeding a stream into the empty chart leaves exactly the stream's last thirty samples, in order. */
  lemma {:induction false} FeedKeepsLatest(stream: seq<Sample>)
    ensures Feed([], stream) == LastSamples(stream)
  {
    if stream != [] {
      var init := stream[..|stream| - 1];
      var x := stream[|stream| - 1];
      assert init + [x] == stream;
      calc {
        Feed([], stream);
        Window(Feed([], init), x);
        { FeedKeepsLatest(init); }
        Window(LastSamples(init), x);
        { WindowOfLatest(init, x); }
        LastSamples(stream);
      }
    }
  }

  /** A rate in the range the generator produces. */
  predicate InRange(bpm: int)
  {
    60 <= bpm <= 100
  }

  /** The generator: 60 plus the integer part of a uniform draw in [0, 1) times 41. */
  function RandomBpm(draw: real): (bpm: int)
    requires 0.0 <= draw < 1.0
    ensures InRange(bpm)
  {
    60 + (draw * 41.0).Floor
  }

  /** Every rate of the range is produced by some draw. */
  lemma EveryRateReachable(bpm: int)
    requires InRange(bpm)
    ensures RandomBpm((bpm - 60) as real / 41.0) == bpm
  {
    var draw := (bpm - 60) as real / 41.0;
    assert draw * 41.0 == (bpm - 60) as real;
  }

  /** The chart: its window of samples, replaced on every tick. */
  class HeartRateChart {
    var data: seq<Sample>

    /** The window is within capacity and every rate in it came from the generator. */
    ghost predicate Valid()
      reads this
    {
      |data| <= Capacity && forall i :: 0 <= i < |data| ==> InRange(data[i].bpm)
    }

    /** The chart mounts empty. */
    constructor ()
      ensures Valid() && data == []
    {
      data := [];
    }

    /**
     * One tick: a sample with the clock label `time` and the rate drawn from
     * `draw` is appended and the window cut to its last thirty entries.
     */
    method AddHeartBeat(time: string, draw: real)
      requires Valid()
      requires 0.0 <= draw < 1.0
      modifies this
      ensures Valid()
      ensures data == Window(old(data), Sample(time, RandomBpm(draw)))
    {
      var sample := Sample(time, RandomBpm(draw));
      var updated := data + [sample];
      if |updated| > Capacity {
        updated := updated[|updated| - Capacity..];
      }
      data := updated;
    }
  }
}
