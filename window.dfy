/** The rolling window of (block height, commit time) samples that the monitor
    keeps across polls, and the block production rate read off it. */
module Window {

  /** An instant, in microseconds since the Unix epoch (UTC), or a signed
      duration in microseconds: the resolution of Python's datetime. */
  type Micros = int

  const MicrosPerSecond: int := 1_000_000

  /** The window keeps at most this many samples. */
  const Capacity: nat := 10

  /** One poll's observation: the node's current block height and the time
      the last block was committed. */
  datatype Sample = Sample(height: int, committedAt: Micros)

  /** The last `n` elements of `s` in their order, or all of `s` when it is shorter. */
  function LastN<T>(s: seq<T>, n: nat): (r: seq<T>)
    ensures |r| == if |s| <= n then |s| else n
    ensures forall i :: 0 <= i < |r| ==> r[i] == s[|s| - |r| + i]
  {
    if |s| <= n then s else s[|s| - n..]
  }

  /** One poll's update of the window: append the new sample, then drop the
      oldest one if the window has grown past its capacity. */
  function Push(w: seq<Sample>, s: Sample): (r: seq<Sample>)
    ensures |w| <= Capacity ==> |r| <= Capacity
    ensures |r| > 0 && r[|r| - 1] == s
    ensures r[..|r| - 1] == if |w| < Capacity then w else w[1..]
  {
    var appended := w + [s];
    assert appended[..|appended| - 1] == w;
    if |appended| > Capacity then
      assert appended[1..][..|appended| - 2] == w[1..];
      appended[1..]
    else appended
  }

  /** The window of an engine that started empty and has observed `samples`, in order. */
  function History(samples: seq<Sample>): seq<Sample>
  {
    if samples == [] then []
    else Push(History(samples[..|samples| - 1]), samples[|samples| - 1])
  }

  /** Pushing onto the last `Capacity` observations gives the last `Capacity`
      observations of the extended sequence. */
  lemma PushKeepsLastN(observed: seq<Sample>, s: Sample)
    ensures Push(LastN(observed, Capacity), s) == LastN(observed + [s], Capacity)
  {
    var w := LastN(observed, Capacity);
    var r := Push(w, s);
    var e := LastN(observed + [s], Capacity);
    assert |r| == |e|;
    forall i | 0 <= i < |r|
      ensures r[i] == e[i]
    {
      if i < |r| - 1 {
        assert r[i] == r[..|r| - 1][i];
      }
    }
  }

  /** After any number of polls the window is exactly the last (at most)
      `Capacity` samples observed, in the order they were observed. */
  lemma {:induction false} HistoryIsLastN(samples: seq<Sample>)
    ensures History(samples) == LastN(samples, Capacity)
  {
    if samples != [] {
      var init, last := samples[..|samples| - 1], samples[|samples| - 1];
      assert init + [last] == samples;
      assert History(samples) == Push(History(init), last);
      HistoryIsLastN(init);
      PushKeepsLastN(init, last);
    }
  }

  /** The time between the oldest and the newest sample in the window. */
  function Elapsed(w: seq<Sample>): Micros
    requires |w| > 0
  {
    w[|w| - 1].committedAt - w[0].committedAt
  }

  /** A duration in seconds, as `timedelta.total_seconds` gives it (without float rounding). */
  function Seconds(d: Micros): real
  {
    d as real / MicrosPerSecond as real
  }

  /** Blocks per second between the oldest and the newest sample of the window;
      zero when no time has elapsed between them. */
  function BlockRate(w: seq<Sample>): (r: real)
    requires |w| > 0
    ensures Elapsed(w) == 0 ==> r == 0.0
    ensures Elapsed(w) != 0 ==> r * Seconds(Elapsed(w)) == (w[|w| - 1].height - w[0].height) as real
  {
    var start, end := w[0], w[|w| - 1];
    var timeChange := Seconds(end.committedAt - start.committedAt);
    if timeChange == 0.0 then 0.0
    else (end.height - start.height) as real / timeChange
  }

  /** The rate depends on the oldest and the newest sample only: the samples
      between them do not change it. */
  lemma BlockRateEndpointsOnly(w1: seq<Sample>, w2: seq<Sample>)
    requires |w1| > 0 && |w2| > 0
    requires w1[0] == w2[0] && w1[|w1| - 1] == w2[|w2| - 1]
    ensures BlockRate(w1) == BlockRate(w2)
  {
  }

  /** A window whose oldest and newest samples were committed at the same
      instant has rate zero, whatever the heights. */
  lemma BlockRateZeroElapsed(w: seq<Sample>)
    requires |w| > 0 && w[0].committedAt == w[|w| - 1].committedAt
    ensures BlockRate(w) == 0.0
  {
  }
}
