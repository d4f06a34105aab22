/** The merge half of MergeFrames: normalising the confidences of each side's
    group across devices, and MergeHands, which blends a group into one hand. */
module Merge {
  import opened Sums
  import opened Geometry
  import opened Tracking
  import opened EngineMaths

  // ---------------------------------------------------------------- hand confidences

  /** The normalised hand confidences of a group: each raw value divided by
      the group's sum, or 1/k for each of the k members when the sum is 0. */
  function NormalizedHand(c: seq<real>): (r: seq<real>)
    ensures |r| == |c|
  {
    var s := Sum(c);
    seq(|c|, i requires 0 <= i < |c| => if s != 0.0 then c[i] / s else 1.0 / |c| as real)
  }

  /** The normalisation loop of MergeFrames for one side: sum with
      SumFloatArray, then divide every entry by the sum, or set every entry to
      1/k when the sum is 0. */
  method NormalizeHandConfidences(c: seq<real>) returns (r: seq<real>)
    ensures r == NormalizedHand(c)
    ensures |c| > 0 ==> Sum(r) == 1.0
  {
    var sum := SumFloatArray(c);
    r := c;
    if sum != 0.0 {
      for handsIdx := 0 to |r|
        invariant |r| == |c|
        invariant forall k :: 0 <= k < handsIdx ==> r[k] == c[k] / sum
        invariant forall k :: handsIdx <= k < |r| ==> r[k] == c[k]
      {
        r := r[handsIdx := r[handsIdx] / sum];
      }
    } else {
      for handsIdx := 0 to |r|
        invariant |r| == |c|
        invariant forall k :: 0 <= k < handsIdx ==> r[k] == 1.0 / |c| as real
      {
        r := r[handsIdx := 1.0 / |r| as real];
      }
    }
    if |c| > 0 {
      NormalizedHandSumsToOne(c);
    }
  }

  /** A non-empty group's normalised hand confidences total 1, through both
      the dividing branch and the uniform fallback. */
  lemma NormalizedHandSumsToOne(c: seq<real>)
    requires |c| > 0
    ensures Sum(NormalizedHand(c)) == 1.0
  {
    var s := Sum(c);
    var k := |c| as real;
    if s != 0.0 {
      SumDivided(c, NormalizedHand(c), s);
      DivTimes(1.0, s);
    } else {
      SumUniform(NormalizedHand(c));
    }
  }

  /** Normalisation keeps the proportions of a group whose raw confidences
      sum to s != 0: every normalised value times s gives back the raw value. */
  lemma NormalizedHandProportional(c: seq<real>, i: nat, s: real)
    requires i < |c| && s == Sum(c) && s != 0.0
    ensures NormalizedHand(c)[i] * s == c[i]
  {
    var q := NormalizedHand(c)[i];
    assert q == c[i] / s;
    QuotientTimes(q, c[i], s);
  }

  /** A group whose raw confidences sum to 0 is split evenly. */
  lemma NormalizedHandZeroSumUniform(c: seq<real>, i: nat)
    requires i < |c| && Sum(c) == 0.0
    ensures NormalizedHand(c)[i] * |c| as real == 1.0
  {
    var q := NormalizedHand(c)[i];
    assert q == 1.0 / |c| as real;
    QuotientTimes(q, 1.0, |c| as real);
  }

  /** Non-negative raw confidences normalise to values in [0, 1]. */
  lemma NormalizedHandWithin(c: seq<real>, i: nat)
    requires i < |c|
    requires forall k :: 0 <= k < |c| ==> c[k] >= 0.0
    ensures 0.0 <= NormalizedHand(c)[i] <= 1.0
  {
    var s := Sum(c);
    var q := NormalizedHand(c)[i];
    if s != 0.0 {
      SumOfNonNegativeAtLeastEach(c, i);
      assert q == c[i] / s;
      RatioWithin(q, c[i], s);
    } else {
      assert q == 1.0 / |c| as real;
    }
  }

  /** Over non-negative values the total is at least any one entry. */
  lemma {:induction false} SumOfNonNegativeAtLeastEach(c: seq<real>, i: nat)
    requires i < |c|
    requires forall k :: 0 <= k < |c| ==> c[k] >= 0.0
    ensures c[i] <= Sum(c)
    decreases |c|
  {
    var prefix := c[..|c| - 1];
    SumNonNegative(prefix);
    if i < |c| - 1 {
      SumOfNonNegativeAtLeastEach(prefix, i);
    }
  }

  // ---------------------------------------------------------------- joint confidences

  /** One pass of the joint normalisation loop, for joint index j: the divisor
      is RowSum(list, j), the sum of hand j's whole vector, and every hand's
      entry j is divided by it, or set to 1/k when it is 0. */
  function NormalizeColumn(list: seq<seq<real>>, j: nat): (r: seq<seq<real>>)
    requires forall i :: 0 <= i < |list| ==> j < |list[i]|
    ensures |r| == |list|
    ensures forall i :: 0 <= i < |r| ==> |r[i]| == |list[i]|
  {
    var s := RowSum(list, j);
    seq(|list|, i requires 0 <= i < |list| =>
      list[i][j := if s != 0.0 then list[i][j] / s else 1.0 / |list| as real])
  }

  /** The list after the first n passes of the joint normalisation loop. */
  function NormalizedJoints(list: seq<seq<real>>, n: nat): (r: seq<seq<real>>)
    requires forall i :: 0 <= i < |list| ==> n <= |list[i]|
    ensures |r| == |list|
    ensures forall i :: 0 <= i < |r| ==> |r[i]| == |list[i]|
    decreases n
  {
    if n == 0 then list else NormalizeColumn(NormalizedJoints(list, n - 1), n - 1)
  }

  /** The pass for joint index j changes entry j of each hand and nothing
      else; entry j becomes the old entry over the divisor, or 1/k when the
      divisor RowSum(list, j) is 0. */
  lemma NormalizeColumnEffect(list: seq<seq<real>>, j: nat, i: nat, k: nat)
    requires forall h :: 0 <= h < |list| ==> j < |list[h]|
    requires i < |list| && k < |list[i]|
    ensures k != j ==> NormalizeColumn(list, j)[i][k] == list[i][k]
    ensures RowSum(list, j) != 0.0 ==> NormalizeColumn(list, j)[i][j] * RowSum(list, j) == list[i][j]
    ensures RowSum(list, j) == 0.0 ==> NormalizeColumn(list, j)[i][j] * |list| as real == 1.0
  {
    if RowSum(list, j) != 0.0 {
      DivTimes(list[i][j], RowSum(list, j));
    } else {
      DivTimes(1.0, |list| as real);
    }
  }

  /** After n passes, entry j < n holds what pass j + 1 wrote and entry j >= n
      is untouched: each joint index is normalised exactly once. */
  lemma {:induction false} NormalizedJointsEntry(list: seq<seq<real>>, n: nat, i: nat, j: nat)
    requires forall h :: 0 <= h < |list| ==> n <= |list[h]|
    requires i < |list| && j < |list[i]|
    ensures j < n ==> NormalizedJoints(list, n)[i][j] == NormalizedJoints(list, j + 1)[i][j]
    ensures n <= j ==> NormalizedJoints(list, n)[i][j] == list[i][j]
    decreases n
  {
    if n > 0 {
      var prev := NormalizedJoints(list, n - 1);
      assert NormalizedJoints(list, n) == NormalizeColumn(prev, n - 1);
      if j != n - 1 {
        assert NormalizeColumn(prev, n - 1)[i][j] == prev[i][j];
        NormalizedJointsEntry(list, n - 1, i, j);
      }
    }
  }

  /** The joint normalisation loop of MergeFrames for one side: for each of
      the 25 joint indices in turn, take Sum2DFloatArray(list, JointIdx) of
      the list as it stands and rewrite entry JointIdx of every hand. */
  method NormalizeJointConfidences(list: seq<seq<real>>) returns (r: seq<seq<real>>)
    requires forall i :: 0 <= i < |list| ==> NumJointPositions <= |list[i]|
    ensures r == NormalizedJoints(list, NumJointPositions)
  {
    r := list;
    for jointIdx := 0 to NumJointPositions
      invariant r == NormalizedJoints(list, jointIdx)
    {
      r := NormalizeJoint(r, jointIdx);
    }
  }

  /** One pass of the joint normalisation loop: entry j of every hand is
      divided by Sum2DFloatArray(list, j), or set to 1 / |list| when that
      sum is 0. */
  method NormalizeJoint(list: seq<seq<real>>, j: nat) returns (r: seq<seq<real>>)
    requires forall i :: 0 <= i < |list| ==> j < |list[i]|
    ensures r == NormalizeColumn(list, j)
  {
    var sum := Sum2DFloatArray(list, j);
    ghost var after := NormalizeColumn(list, j);
    r := list;
    if sum != 0.0 {
      for handsIdx := 0 to |r|
        invariant |r| == |list|
        invariant forall h :: 0 <= h < handsIdx ==> r[h] == after[h]
        invariant forall h :: handsIdx <= h < |r| ==> r[h] == list[h]
      {
        r := r[handsIdx := r[handsIdx][j := r[handsIdx][j] / sum]];
      }
    } else {
      for handsIdx := 0 to |r|
        invariant |r| == |list|
        invariant forall h :: 0 <= h < handsIdx ==> r[h] == after[h]
        invariant forall h :: handsIdx <= h < |r| ==> r[h] == list[h]
      {
        r := r[handsIdx := r[handsIdx][j := 1.0 / |r| as real]];
      }
    }
  }

  /** Entry j of a group with fewer than j + 1 hands is split evenly: the
      divisor is then 0, so each of the k hands gets 1/k, and that column
      totals 1. */
  lemma NormalizedJointsFewHands(list: seq<seq<real>>, j: nat)
    requires forall i :: 0 <= i < |list| ==> NumJointPositions <= |list[i]|
    requires 0 < |list| <= j < NumJointPositions
    ensures forall i :: 0 <= i < |list| ==> NormalizedJoints(list, NumJointPositions)[i][j] == 1.0 / |list| as real
    ensures Sum(Column(NormalizedJoints(list, NumJointPositions), j)) == 1.0
  {
    var r := NormalizedJoints(list, NumJointPositions);
    forall i | 0 <= i < |list|
      ensures r[i][j] == 1.0 / |list| as real
    {
      NormalizedJointsFewHandsEntry(list, j, i);
    }
    UniformColumnSum(r, j);
  }

  /** A column whose k entries are all 1 / k sums to 1. */
  lemma UniformColumnSum(r: seq<seq<real>>, j: nat)
    requires 0 < |r| && forall i :: 0 <= i < |r| ==> j < |r[i]|
    requires forall i :: 0 <= i < |r| ==> r[i][j] == 1.0 / |r| as real
    ensures Sum(Column(r, j)) == 1.0
  {
    var col := Column(r, j);
    forall i | 0 <= i < |col|
      ensures col[i] == 1.0 / |col| as real
    {
      assert col[i] == r[i][j];
    }
    SumUniform(col);
  }

  /** One entry of the above. */
  lemma NormalizedJointsFewHandsEntry(list: seq<seq<real>>, j: nat, i: nat)
    requires forall i :: 0 <= i < |list| ==> NumJointPositions <= |list[i]|
    requires i < |list| <= j < NumJointPositions
    ensures NormalizedJoints(list, NumJointPositions)[i][j] == 1.0 / |list| as real
  {
    NormalizedJointsEntry(list, NumJointPositions, i, j);
    NormalizedJointsUniformEntry(list, j, i);
  }

  /** Pass j of a group with at most j hands writes 1/k. */
  lemma NormalizedJointsUniformEntry(list: seq<seq<real>>, j: nat, i: nat)
    requires forall h :: 0 <= h < |list| ==> j < |list[h]|
    requires i < |list| <= j
    ensures NormalizedJoints(list, j + 1)[i][j] == 1.0 / |list| as real
  {
    var before := NormalizedJoints(list, j);
    assert RowSum(before, j) == 0.0;
    assert NormalizedJoints(list, j + 1)[i] == NormalizeColumn(before, j)[i];
  }

  /** A lone hand keeps entry 0 divided by the sum of its own vector ... */
  lemma NormalizedJointsSingleHandFirst(row: seq<real>)
    requires NumJointPositions <= |row|
    requires Sum(row) != 0.0
    ensures NormalizedJoints([row], NumJointPositions)[0][0] == row[0] / Sum(row)
  {
    NormalizedJointsFirstEntry([row], 0);
  }

  /** ... while every other entry becomes 1: the divisor of every later index
      is the sum of a row that does not exist. */
  lemma NormalizedJointsSingleHandRest(row: seq<real>)
    requires NumJointPositions <= |row|
    ensures forall j :: 1 <= j < NumJointPositions ==> NormalizedJoints([row], NumJointPositions)[0][j] == 1.0
  {
    forall j | 1 <= j < NumJointPositions
      ensures NormalizedJoints([row], NumJointPositions)[0][j] == 1.0
    {
      NormalizedJointsFewHandsEntry([row], j, 0);
    }
  }

  /** Entry 0 of every hand is divided by the sum of the first hand's whole
      vector, the row Sum2DFloatArray reads for index 0. */
  lemma NormalizedJointsFirstEntry(list: seq<seq<real>>, i: nat)
    requires forall h :: 0 <= h < |list| ==> NumJointPositions <= |list[h]|
    requires i < |list| && RowSum(list, 0) != 0.0
    ensures NormalizedJoints(list, NumJointPositions)[i][0] == list[i][0] / RowSum(list, 0)
  {
    NormalizedJointsEntry(list, NumJointPositions, i, 0);
    assert NormalizedJoints(list, 1)[i] == NormalizeColumn(list, 0)[i];
  }

  /** Two hands reporting 1 for every joint: the divisor for joint 0 is the
      first hand's whole vector (25), so joint 0's normalised confidences are
      1/25 each and total 2/25, not 1. */
  lemma NormalizedJointsColumnNeedNotSumToOne(ones: seq<real>)
    requires |ones| == NumJointPositions && forall k :: 0 <= k < |ones| ==> ones[k] == 1.0
    ensures var r := NormalizedJoints([ones, ones], NumJointPositions);
            r[0][0] == 1.0 / 25.0 && r[1][0] == 1.0 / 25.0 && r[0][0] + r[1][0] != 1.0
  {
    var list := [ones, ones];
    SumConstant(ones, 1.0);
    assert RowSum(list, 0) == 25.0;
    NormalizedJointsFirstEntry(list, 0);
    NormalizedJointsFirstEntry(list, 1);
  }

  // ---------------------------------------------------------------- blending

  /** The lerp weight of step i of MergeHands: the confidence of the hands
      merged so far over that of the hands up to and including hand i.
      `None` when the denominator is 0, where float division yields a value
      that is not finite. */
  function LerpValue(c: seq<real>, i: nat): Option<real>
    requires i < |c|
  {
    var den := Sum(c[..i + 1]);
    if den == 0.0 then None else Some(Sum(c[..i]) / den)
  }

  /** With non-negative confidences a defined lerp weight lies in [0, 1]. */
  lemma LerpValueWithin(c: seq<real>, i: nat)
    requires i < |c|
    requires forall k :: 0 <= k < |c| ==> c[k] >= 0.0
    requires LerpValue(c, i).Some?
    ensures 0.0 <= LerpValue(c, i).value <= 1.0
  {
    PrefixSumMonotone(c, i, i + 1);
    SumNonNegative(c[..i]);
    var num, den := Sum(c[..i]), Sum(c[..i + 1]);
    assert num / den * den == num;
  }

  /** With non-negative confidences and a positive first one, every lerp
      weight is defined. */
  lemma LerpValueDefined(c: seq<real>, i: nat)
    requires i < |c|
    requires forall k :: 0 <= k < |c| ==> c[k] >= 0.0
    requires c[0] > 0.0
    ensures LerpValue(c, i).Some?
  {
    PrefixSumAtLeastFirst(c, i + 1);
  }

  /** With two contributors the one lerp weight is the first one's share. */
  lemma LerpValuePair(u: real, v: real)
    requires u + v != 0.0
    ensures LerpValue([u, v], 1) == Some(u / (u + v))
  {
    assert [u, v][..1] == [u];
    assert [u, v][..2][..1] == [u];
    assert Sum([u]) == Sum([]) + u;
  }

  /** The merged palm rotation after the first n hands: start from hand 0's
      orientation, then FastLerp(hand i, merged so far, LerpValue(i)) for each
      later hand. A non-finite weight, and anything lerped with a non-finite
      rotation, is non-finite. */
  function MergedRotationUpTo(m: Maths, qs: seq<Quat>, c: seq<real>, n: nat): Rotation
    requires 1 <= n <= |qs| && n <= |c|
    decreases n
  {
    if n == 1 then Rotation(qs[0])
    else
      match MergedRotationUpTo(m, qs, c, n - 1)
      case NonFinite => NonFinite
      case Rotation(q) =>
        match LerpValue(c, n - 1)
        case None => NonFinite
        case Some(alpha) => Rotation(m.fastLerp(qs[n - 1], q, alpha))
  }

  /** Non-negative confidences with a positive first one always merge to a
      finite rotation. */
  lemma {:induction false} MergedRotationFinite(m: Maths, qs: seq<Quat>, c: seq<real>, n: nat)
    requires 1 <= n <= |qs| && n <= |c|
    requires forall k :: 0 <= k < |c| ==> c[k] >= 0.0
    requires c[0] > 0.0
    ensures MergedRotationUpTo(m, qs, c, n).Rotation?
    decreases n
  {
    if n > 1 {
      MergedRotationFinite(m, qs, c, n - 1);
      LerpValueDefined(c, n - 1);
    }
  }

  /** Raw confidences [0, 0, 0.5] normalise to [0, 0, 1]; the weight of step 1
      is then 0/0, and the merged rotation is not finite although the group's
      confidences total 1. */
  lemma MergedRotationLeadingZeros(m: Maths, qs: seq<Quat>)
    requires |qs| == 3
    ensures NormalizedHand([0.0, 0.0, 0.5]) == [0.0, 0.0, 1.0]
    ensures MergedRotationUpTo(m, qs, [0.0, 0.0, 1.0], 3) == NonFinite
  {
    var raw := [0.0, 0.0, 0.5];
    assert raw[..2][..1] == [0.0];
    assert raw[..2] == [0.0, 0.0];
    assert raw == raw[..2] + [0.5];
    assert Sum([0.0]) == Sum([]) + 0.0;
    assert Sum(raw) == 0.5;
    var c := [0.0, 0.0, 1.0];
    assert c[..2] == [0.0, 0.0] && c[..2][..1] == [0.0];
    assert LerpValue(c, 1) == None;
  }

  /** A group's palm positions, orientations and palm-local joint lists. */
  function PalmPositions(hands: seq<Hand>): (ps: seq<Vec3>)
    ensures |ps| == |hands|
  {
    seq(|hands|, i requires 0 <= i < |hands| => hands[i].palm.position)
  }

  function PalmOrientations(hands: seq<Hand>): (qs: seq<Quat>)
    ensures |qs| == |hands|
  {
    seq(|hands|, i requires 0 <= i < |hands| => hands[i].palm.orientation)
  }

  function JointLists(m: Maths, hands: seq<Hand>): (ls: seq<seq<Vec3>>)
    ensures |ls| == |hands|
  {
    seq(|hands|, i requires 0 <= i < |hands| => m.localLinearJoints(hands[i]))
  }

  /** Preconditions of MergeHands: at least one hand, one hand confidence and
      one vector of 25 joint confidences per hand, and 25 local joints per
      hand. */
  predicate MergeableGroup(m: Maths, hands: seq<Hand>, c: seq<real>, jc: seq<seq<real>>)
  {
    && |hands| >= 1 && |c| == |hands| && |jc| == |hands|
    && (forall i :: 0 <= i < |jc| ==> |jc[i]| == NumJointPositions)
    && (forall i :: 0 <= i < |hands| ==> |m.localLinearJoints(hands[i])| == NumJointPositions)
  }

  /** What MergeHands produces: the side of the first hand; the palm
      position Σ c[i] * position[i]; the lerped rotation; and joint j the
      per-joint weighted sum Σ jc[i][j] * local[i][j]. */
  function MergedHandOf(m: Maths, hands: seq<Hand>, c: seq<real>, jc: seq<seq<real>>): (h: MergedHand)
    requires MergeableGroup(m, hands, c, jc)
    ensures |h.jointPositions| == NumJointPositions
  {
    var lists := JointLists(m, hands);
    MergedHand(
      IsLeft(hands[0]),
      WeightedSumUpTo(PalmPositions(hands), c, |hands|),
      MergedRotationUpTo(m, PalmOrientations(hands), c, |hands|),
      seq(NumJointPositions, j requires 0 <= j < NumJointPositions =>
        WeightedSumUpTo(Column(lists, j), Column(jc, j), |hands|)))
  }

  /** The palm loop of MergeHands: the position is accumulated as a weighted
      sum and the rotation lerped hand after hand. */
  method MergePalms(hands: seq<Hand>, c: seq<real>, m: Maths) returns (palmPos: Vec3, palmRot: Rotation)
    requires |hands| >= 1 && |c| == |hands|
    ensures palmPos == WeightedSumUpTo(PalmPositions(hands), c, |hands|)
    ensures palmRot == MergedRotationUpTo(m, PalmOrientations(hands), c, |hands|)
  {
    palmPos := Scale(hands[0].palm.position, c[0]);
    palmRot := Rotation(hands[0].palm.orientation);
    for handsIdx := 1 to |hands|
      invariant palmPos == WeightedSumUpTo(PalmPositions(hands), c, handsIdx)
      invariant palmRot == MergedRotationUpTo(m, PalmOrientations(hands), c, handsIdx)
    {
      palmPos := Add(palmPos, Scale(hands[handsIdx].palm.position, c[handsIdx]));
      var lerp := LerpValue(c, handsIdx);
      palmRot := match (palmRot, lerp)
        case (Rotation(q), Some(alpha)) => Rotation(m.fastLerp(hands[handsIdx].palm.orientation, q, alpha))
        case _ => NonFinite;
    }
  }

  /** The joint loop of MergeHands: joint j accumulates, hand after hand,
      the hand's local joint j scaled by that hand's confidence for joint j. */
  method MergeJoints(lists: seq<seq<Vec3>>, jc: seq<seq<real>>) returns (joints: seq<Vec3>)
    requires |jc| == |lists|
    requires forall i :: 0 <= i < |lists| ==> |lists[i]| == NumJointPositions && |jc[i]| == NumJointPositions
    ensures |joints| == NumJointPositions
    ensures forall j :: 0 <= j < NumJointPositions ==>
              joints[j] == WeightedSumUpTo(Column(lists, j), Column(jc, j), |lists|)
  {
    joints := seq(NumJointPositions, j => Zero);
    for handsIdx := 0 to |lists|
      invariant |joints| == NumJointPositions
      invariant forall j :: 0 <= j < NumJointPositions ==>
                  joints[j] == WeightedSumUpTo(Column(lists, j), Column(jc, j), handsIdx)
    {
      for jointIdx := 0 to NumJointPositions
        invariant |joints| == NumJointPositions
        invariant forall j :: 0 <= j < jointIdx ==>
                    joints[j] == WeightedSumUpTo(Column(lists, j), Column(jc, j), handsIdx + 1)
        invariant forall j :: jointIdx <= j < NumJointPositions ==>
                    joints[j] == WeightedSumUpTo(Column(lists, j), Column(jc, j), handsIdx)
      {
        joints := joints[jointIdx := Add(joints[jointIdx], Scale(lists[handsIdx][jointIdx], jc[handsIdx][jointIdx]))];
      }
    }
  }

  /** MergeHands: accumulate the palm position and rotation over the hands,
      build each hand's local joint list, then accumulate every joint. */
  method MergeHands(hands: seq<Hand>, c: seq<real>, jc: seq<seq<real>>, m: Maths)
    returns (merged: MergedHand)
    requires MergeableGroup(m, hands, c, jc)
    ensures merged == MergedHandOf(m, hands, c, jc)
  {
    var isLeft := hands[0].handType == Left;
    var palmPos, palmRot := MergePalms(hands, c, m);
    var lists: seq<seq<Vec3>> := [];
    for handsIdx := 0 to |hands|
      invariant lists == JointLists(m, hands)[..handsIdx]
    {
      lists := lists + [m.localLinearJoints(hands[handsIdx])];
    }
    assert lists == JointLists(m, hands);
    var joints := MergeJoints(lists, jc);
    merged := MergedHand(isLeft, palmPos, palmRot, joints);
  }

  /** A lone hand (whose normalised confidence is always 1) is reproduced:
      same side, palm position and orientation, and each joint is its local
      joint scaled by that joint's confidence. */
  lemma MergedHandOfSingle(m: Maths, h: Hand, jc: seq<real>)
    requires |jc| == NumJointPositions && |m.localLinearJoints(h)| == NumJointPositions
    ensures var r := MergedHandOf(m, [h], [1.0], [jc]);
            && r.isLeft == IsLeft(h)
            && r.palmPosition == h.palm.position
            && r.palmRotation == Rotation(h.palm.orientation)
            && forall j :: 0 <= j < NumJointPositions ==> r.jointPositions[j] == Scale(m.localLinearJoints(h)[j], jc[j])
  {
    assert PalmPositions([h]) == [h.palm.position];
    WeightedSumSingle(h.palm.position);
    var lists := JointLists(m, [h]);
    forall j | 0 <= j < NumJointPositions
      ensures WeightedSumUpTo(Column(lists, j), Column([jc], j), 1) == Scale(m.localLinearJoints(h)[j], jc[j])
    {
      assert Column(lists, j) == [m.localLinearJoints(h)[j]];
      assert Column([jc], j) == [jc[j]];
    }
  }

  /** When every device reports the same palm position the merged position is
      that position scaled by the group's total confidence: exactly that
      position once the confidences are normalised. */
  lemma MergedPalmOfAgreeingHands(m: Maths, hands: seq<Hand>, c: seq<real>, jc: seq<seq<real>>, p: Vec3)
    requires MergeableGroup(m, hands, c, jc)
    requires forall i :: 0 <= i < |hands| ==> hands[i].palm.position == p
    requires Sum(c) == 1.0
    ensures MergedHandOf(m, hands, c, jc).palmPosition == p
  {
    WeightedSumOfAgreeingPoints(PalmPositions(hands), c, |hands|, p);
    assert c[..|hands|] == c;
  }

  /** Two devices blend their palm positions as u * a + v * b and lerp the
      second orientation towards the first by the first's share. */
  lemma MergedHandOfPair(m: Maths, h0: Hand, h1: Hand, u: real, v: real, jc: seq<seq<real>>)
    requires MergeableGroup(m, [h0, h1], [u, v], jc)
    requires u + v != 0.0
    ensures var r := MergedHandOf(m, [h0, h1], [u, v], jc);
            && r.palmPosition == Add(Scale(h0.palm.position, u), Scale(h1.palm.position, v))
            && r.palmRotation == Rotation(m.fastLerp(h1.palm.orientation, h0.palm.orientation, u / (u + v)))
  {
    assert PalmPositions([h0, h1]) == [h0.palm.position, h1.palm.position];
    WeightedSumPair(h0.palm.position, h1.palm.position, u, v);
    LerpValuePair(u, v);
  }

  // ---------------------------------------------------------------- merged frame

  /** One side's group as MergeFrames collects it: the hands, their raw hand
      confidences and their smoothed 25-entry joint confidences. */
  datatype Group = Group(hands: seq<Hand>, confidences: seq<real>, jointConfidences: seq<seq<real>>)

  predicate ValidGroup(m: Maths, g: Group)
  {
    && |g.confidences| == |g.hands| && |g.jointConfidences| == |g.hands|
    && (forall i :: 0 <= i < |g.jointConfidences| ==> |g.jointConfidences[i]| == NumJointPositions)
    && (forall i :: 0 <= i < |g.hands| ==> |m.localLinearJoints(g.hands[i])| == NumJointPositions)
  }

  /** The group with one more hand, with its confidence and joint confidences. */
  function WithHand(g: Group, hand: Hand, c: real, jc: seq<real>): Group
  {
    Group(g.hands + [hand], g.confidences + [c], g.jointConfidences + [jc])
  }

  /** Adding a hand with 25 joint confidences and 25 local joints keeps a
      group valid. */
  lemma WithHandValid(m: Maths, g: Group, hand: Hand, c: real, jc: seq<real>)
    requires ValidGroup(m, g) && |jc| == NumJointPositions && |m.localLinearJoints(hand)| == NumJointPositions
    ensures ValidGroup(m, WithHand(g, hand, c, jc))
  {
    var g' := WithHand(g, hand, c, jc);
    forall i | 0 <= i < |g'.hands|
      ensures |g'.jointConfidences[i]| == NumJointPositions && |m.localLinearJoints(g'.hands[i])| == NumJointPositions
    {
      if i < |g.hands| {
        assert g'.jointConfidences[i] == g.jointConfidences[i] && g'.hands[i] == g.hands[i];
      }
    }
  }

  /** The merged hand of a non-empty group, from its normalised confidences. */
  function MergedGroup(m: Maths, g: Group): (h: MergedHand)
    requires ValidGroup(m, g) && |g.hands| > 0
  {
    MergedHandOf(m, g.hands, NormalizedHand(g.confidences), NormalizedJoints(g.jointConfidences, NumJointPositions))
  }

  /** The merged frame: the left group's hand if it has one, then the right
      group's, and their number. */
  function MergedFrameOf(m: Maths, left: Group, right: Group): (f: MergedFrame)
    requires ValidGroup(m, left) && ValidGroup(m, right)
  {
    var hands := (if |left.hands| > 0 then [MergedGroup(m, left)] else [])
               + (if |right.hands| > 0 then [MergedGroup(m, right)] else []);
    MergedFrame(hands, |hands|)
  }

  /** The normalising and blending part of MergeFrames: normalise each side's
      hand and joint confidences, then merge each non-empty side, left first. */
  method MergeGroups(left: Group, right: Group, m: Maths) returns (combined: MergedFrame)
    requires ValidGroup(m, left) && ValidGroup(m, right)
    ensures combined == MergedFrameOf(m, left, right)
  {
    var leftHands: seq<MergedHand> := [];
    if |left.hands| > 0 {
      var hand := MergeGroup(left, m);
      leftHands := [hand];
    }
    var rightHands: seq<MergedHand> := [];
    if |right.hands| > 0 {
      var hand := MergeGroup(right, m);
      rightHands := [hand];
    }
    var mergedHands := leftHands + rightHands;
    combined := MergedFrame(mergedHands, |mergedHands|);
  }

  /** One side of MergeGroups: normalise the side's hand and joint
      confidences, then merge its hands with them. */
  method MergeGroup(g: Group, m: Maths) returns (hand: MergedHand)
    requires ValidGroup(m, g) && |g.hands| > 0
    ensures hand == MergedGroup(m, g)
  {
    var confidences := NormalizeHandConfidences(g.confidences);
    var joints := NormalizeJointConfidences(g.jointConfidences);
    hand := MergeHands(g.hands, confidences, joints, m);
  }

  /** The merged frame holds one hand per non-empty side, at most two, the
      left one first, and NumberOfHandsVisible counts them. */
  lemma MergedFrameShape(m: Maths, left: Group, right: Group)
    requires ValidGroup(m, left) && ValidGroup(m, right)
    ensures var f := MergedFrameOf(m, left, right);
            && f.numberOfHandsVisible == |f.hands| <= 2
            && |f.hands| == (if |left.hands| > 0 then 1 else 0) + (if |right.hands| > 0 then 1 else 0)
            && (|left.hands| > 0 ==> f.hands[0] == MergedGroup(m, left))
            && (|right.hands| > 0 ==> f.hands[|f.hands| - 1] == MergedGroup(m, right))
  {
    var leftHands := if |left.hands| > 0 then [MergedGroup(m, left)] else [];
    var rightHands := if |right.hands| > 0 then [MergedGroup(m, right)] else [];
    assert MergedFrameOf(m, left, right).hands == leftHands + rightHands;
    ConcatOfAtMostOne(leftHands, rightHands);
  }

  /** Joining two lists of at most one element each. */
  lemma ConcatOfAtMostOne<T>(a: seq<T>, b: seq<T>)
    requires |a| <= 1 && |b| <= 1
    ensures |a + b| == |a| + |b| <= 2
    ensures |a| > 0 ==> (a + b)[0] == a[0]
    ensures |b| > 0 ==> (a + b)[|a + b| - 1] == b[0]
  {
  }

  /** A side whose group holds only hands of that side merges to a hand of
      that side. */
  lemma MergedGroupSide(m: Maths, g: Group, left: bool)
    requires ValidGroup(m, g) && |g.hands| > 0
    requires forall h :: h in g.hands ==> IsLeft(h) == left
    ensures MergedGroup(m, g).isLeft == left
  {
    assert g.hands[0] in g.hands;
  }
}
