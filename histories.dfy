/** The bounded confidence and position histories kept per (device, side).
    A history is modelled by the list of everything added to it and its
    configured capacity: the history retains the most recent `capacity`
    additions, so adding past capacity evicts the oldest retained entry. */
module Histories {
  import opened Sums
  import opened Geometry
  import opened Tracking

  /** One recorded palm position with the time it was recorded. */
  datatype PositionSample = PositionSample(position: Vec3, time: real)

  function Min(a: nat, b: nat): nat
  {
    if a < b then a else b
  }

  /** The entries a history of the given capacity still holds, oldest first. */
  function Retained<T>(log: seq<T>, capacity: nat): seq<T>
  {
    log[|log| - Min(|log|, capacity)..]
  }

  /** Adding to a history appends to the retained window and, once the window
      is full, evicts its oldest entry: a fixed-capacity FIFO. */
  lemma RetainedAfterAdd<T>(log: seq<T>, capacity: nat, x: T)
    requires capacity > 0
    ensures var w := Retained(log, capacity);
            Retained(log + [x], capacity) == if |w| < capacity then w + [x] else w[1..] + [x]
  {
    var w := Retained(log, capacity);
    var w' := Retained(log + [x], capacity);
    if |w| < capacity {
      assert w == log;
      assert w' == log + [x];
    } else {
      assert |w'| == capacity;
      assert w' == w[1..] + [x];
    }
  }

  /** GetOldestPosition: the oldest retained sample, if any. */
  function Oldest<T>(log: seq<T>, capacity: nat): Option<T>
  {
    var w := Retained(log, capacity);
    if |w| == 0 then None else Some(w[0])
  }

  /** GetAveragedConfidence: the mean of the retained confidences. */
  function Averaged(log: seq<real>, capacity: nat): real
    requires capacity > 0 && |log| > 0
  {
    var w := Retained(log, capacity);
    Sum(w) / |w| as real
  }

  /** GetAveragedConfidences: the entry-by-entry mean of the retained
      confidence vectors. */
  function AveragedVector(log: seq<seq<real>>, capacity: nat, width: nat): (r: seq<real>)
    requires capacity > 0 && |log| > 0
    requires forall i :: 0 <= i < |log| ==> |log[i]| == width
    ensures |r| == width
  {
    var w := Retained(log, capacity);
    seq(width, j requires 0 <= j < width => Sum(Column(w, j)) / |w| as real)
  }

  /** Averaging keeps the smoothed confidence within any bounds that hold for
      every retained confidence. */
  lemma AveragedWithin(log: seq<real>, capacity: nat, lo: real, hi: real)
    requires capacity > 0 && |log| > 0
    requires forall i :: 0 <= i < |log| ==> lo <= log[i] <= hi
    ensures lo <= Averaged(log, capacity) <= hi
  {
    var w := Retained(log, capacity);
    var n := |w| as real;
    assert forall i :: 0 <= i < |w| ==> w[i] == log[|log| - |w| + i];
    SumBounds(w, lo, hi);
    MeanWithin(Sum(w), n, lo, hi);
  }

  /** The same for each entry of an averaged confidence vector. */
  lemma AveragedVectorWithin(log: seq<seq<real>>, capacity: nat, width: nat, lo: real, hi: real)
    requires capacity > 0 && |log| > 0
    requires forall i :: 0 <= i < |log| ==> |log[i]| == width
    requires forall i, j :: 0 <= i < |log| && 0 <= j < width ==> lo <= log[i][j] <= hi
    ensures forall j :: 0 <= j < width ==> lo <= AveragedVector(log, capacity, width)[j] <= hi
  {
    var w := Retained(log, capacity);
    var n := |w| as real;
    forall j | 0 <= j < width
      ensures lo <= AveragedVector(log, capacity, width)[j] <= hi
    {
      var c := Column(w, j);
      assert forall i :: 0 <= i < |c| ==> c[i] == log[|log| - |w| + i][j];
      SumBounds(c, lo, hi);
      MeanWithin(Sum(c), n, lo, hi);
    }
  }
}
