/** The confidence rules: the per-hand sub-scores and their weighted
    combination, and the per-joint scorers with their combination and
    finger-local smoothing. */
module Confidence {
  import opened Sums
  import opened Geometry
  import opened Tracking
  import opened EngineMaths
  import opened Histories

  /** The weights and switches of the fusion, and the history capacities. */
  datatype Config = Config(
    palmPosFactor: real,
    palmRotFactor: real,
    palmVelocityFactor: real,
    jointRotFactor: real,
    jointRotToPalmFactor: real,
    jointOcclusionFactor: real,
    ignoreRecentNewHands: bool,
    handHistoryCapacity: nat,
    jointHistoryCapacity: nat,
    positionHistoryCapacity: nat)

  /** Non-negative weights that total at most 1. */
  predicate Convex3(a: real, b: real, c: real)
  {
    a >= 0.0 && b >= 0.0 && c >= 0.0 && a + b + c <= 1.0
  }

  /** A weight times a value in [0, 1] lies between 0 and the weight. */
  lemma ScaledWithin(a: real, x: real) returns (p: real)
    requires a >= 0.0 && 0.0 <= x <= 1.0
    ensures p == a * x && 0.0 <= p <= a
  {
    p := a * x;
    assert a * (1.0 - x) >= 0.0;
  }

  /** Three terms below their bounds total at most the bounds' total. */
  lemma TermsWithin(p: real, q: real, r: real, a: real, b: real, c: real)
    requires 0.0 <= p <= a && 0.0 <= q <= b && 0.0 <= r <= c && a + b + c <= 1.0
    ensures 0.0 <= p + q + r <= 1.0
  {
  }

  /** Convex weights of values in [0, 1] combine to a value in [0, 1]. */
  lemma WeightedWithin(a: real, b: real, c: real, x: real, y: real, z: real)
    requires Convex3(a, b, c)
    requires 0.0 <= x <= 1.0 && 0.0 <= y <= 1.0 && 0.0 <= z <= 1.0
    ensures 0.0 <= a * x + b * y + c * z <= 1.0
  {
    var p := ScaledWithin(a, x);
    var q := ScaledWithin(b, y);
    var r := ScaledWithin(c, z);
    TermsWithin(p, q, r, a, b, c);
  }

  // ---------------------------------------------------------------- hand

  /** ConfidenceRelativeHandPos: the engine's Gaussian score for the palm
      position, clamped below at 0. */
  function ConfidenceRelativeHandPos(m: Maths, device: nat, handPos: Vec3): (r: real)
    ensures r >= 0.0
    ensures m.handPositionGauss(device, handPos) >= 0.0 ==> r == m.handPositionGauss(device, handPos)
    ensures m.handPositionGauss(device, handPos) < 0.0 ==> r == 0.0
  {
    var c := m.handPositionGauss(device, handPos);
    if c < 0.0 then 0.0 else c
  }

  /** The cosine score of a doubled angle, (cos(2 * angle) + 1) / 2. */
  function DoubledAngleScore(m: Maths, angle: real): real
  {
    (m.cosDegrees(2.0 * angle) + 1.0) / 2.0
  }

  /** The cosine score of an angle, (cos(angle) + 1) / 2. */
  function AngleScore(m: Maths, angle: real): real
  {
    (m.cosDegrees(angle) + 1.0) / 2.0
  }

  /** The doubled-angle score is symmetric about 90 degrees. */
  lemma DoubledAngleScoreSymmetric(m: Maths, d: real)
    requires Sound(m)
    ensures DoubledAngleScore(m, 90.0 + d) == DoubledAngleScore(m, 90.0 - d)
  {
    assert 2.0 * (90.0 + d) + 2.0 * (90.0 - d) == 360.0;
    assert m.cosDegrees(2.0 * (90.0 + d)) == m.cosDegrees(2.0 * (90.0 - d));
  }

  /** ConfidenceRelativeHandRot: the doubled-angle score of the angle between
      the palm normal and the direction from the palm to the device. */
  function ConfidenceRelativeHandRot(m: Maths, origin: Vec3, handPos: Vec3, palmNormal: Vec3): (r: real)
    ensures Sound(m) ==> 0.0 <= r <= 1.0
  {
    var angle := m.angleBetweenVectors(palmNormal, Sub(origin, handPos));
    DoubledAngleScore(m, angle)
  }

  /** ConfidenceRelativeHandVelocity, given the oldest retained position
      sample: 0 without a sample or when that sample is more than ten ticks
      old; otherwise 1 - v / 2 below a speed v of 2 and 0 from there on. A
      zero elapsed time makes the source divide by zero; the float result
      (infinite or not a number) is never below 2, so the score is 0. */
  function ConfidenceRelativeHandVelocity(oldest: Option<PositionSample>, handPos: Vec3, now: real,
                                          deltaTimeFromTick: real, m: Maths): (r: real)
    ensures r >= 0.0
    ensures oldest.None? ==> r == 0.0
    ensures oldest.Some? && now - oldest.value.time > deltaTimeFromTick * 10.0 ==> r == 0.0
  {
    if oldest.None? || now - oldest.value.time > deltaTimeFromTick * 10.0 then 0.0
    else
      var elapsed := now - oldest.value.time;
      if elapsed == 0.0 then 0.0
      else
        var velocity := m.distance(handPos, oldest.value.position) / elapsed;
        if velocity < 2.0 then -0.5 * velocity + 1.0 else 0.0
  }

  /** For a recent sample and a positive elapsed time the velocity score is
      1 - speed / 2 clamped to [0, 1]: it falls linearly from 1 at rest to 0
      at speed 2 and stays 0 beyond. */
  lemma VelocityScoreIsClampedRamp(oldest: Option<PositionSample>, handPos: Vec3, now: real,
                                   deltaTimeFromTick: real, m: Maths)
    requires Sound(m)
    requires oldest.Some? && 0.0 < now - oldest.value.time <= deltaTimeFromTick * 10.0
    ensures var speed := m.distance(handPos, oldest.value.position) / (now - oldest.value.time);
            var ramp := 1.0 - speed / 2.0;
            ConfidenceRelativeHandVelocity(oldest, handPos, now, deltaTimeFromTick, m)
              == if ramp < 0.0 then 0.0 else if ramp > 1.0 then 1.0 else ramp
  {
    var speed := m.distance(handPos, oldest.value.position) / (now - oldest.value.time);
    assert m.distance(handPos, oldest.value.position) >= 0.0;
    assert speed >= 0.0;
  }

  /** The velocity score never exceeds 1 while time does not run backwards,
      and a hand that moved further since the same sample scores no higher. */
  lemma VelocityScoreBounds(oldest: Option<PositionSample>, p: Vec3, q: Vec3, now: real,
                            deltaTimeFromTick: real, m: Maths)
    requires Sound(m)
    requires oldest.Some? ==> now >= oldest.value.time
    ensures ConfidenceRelativeHandVelocity(oldest, p, now, deltaTimeFromTick, m) <= 1.0
    ensures oldest.Some? && m.distance(p, oldest.value.position) <= m.distance(q, oldest.value.position) ==>
              ConfidenceRelativeHandVelocity(oldest, q, now, deltaTimeFromTick, m)
                <= ConfidenceRelativeHandVelocity(oldest, p, now, deltaTimeFromTick, m)
  {
    if oldest.Some? && now - oldest.value.time > 0.0 {
      var e := now - oldest.value.time;
      var dp := m.distance(p, oldest.value.position);
      var dq := m.distance(q, oldest.value.position);
      assert dp >= 0.0;
      if dp <= dq {
        assert dp / e <= dq / e;
      }
    }
  }

  /** ConfidenceTimeSinceHandFirstVisible: 0 while the side is not visible
      (first-visible time 0), otherwise the time visible so far, capped at 1. */
  function ConfidenceTimeSinceHandFirstVisible(firstVisible: real, now: real): (r: real)
    ensures r <= 1.0
    ensures firstVisible == 0.0 ==> r == 0.0
    ensures firstVisible != 0.0 && now - firstVisible >= 1.0 ==> r == 1.0
    ensures firstVisible != 0.0 && now - firstVisible < 1.0 ==> r == now - firstVisible
  {
    if firstVisible == 0.0 then 0.0
    else
      var lengthVisible := now - firstVisible;
      if lengthVisible < 1.0 then lengthVisible else 1.0
  }

  /** The raw hand confidence of CalculateHandConfidence: the weighted
      positional, rotational and velocity scores, scaled by the new-hand ramp
      when IgnoreRecentNewHands is set. */
  function HandScore(cfg: Config, pos: real, rot: real, velocity: real, ramp: real): real
  {
    var c := cfg.palmPosFactor * pos + cfg.palmRotFactor * rot + cfg.palmVelocityFactor * velocity;
    if cfg.ignoreRecentNewHands then c * ramp else c
  }

  /** With non-negative weights totalling at most 1 and scores and ramp in
      [0, 1], the hand score is in [0, 1]. */
  lemma HandScoreWithin(cfg: Config, pos: real, rot: real, velocity: real, ramp: real)
    requires Convex3(cfg.palmPosFactor, cfg.palmRotFactor, cfg.palmVelocityFactor)
    requires 0.0 <= pos <= 1.0 && 0.0 <= rot <= 1.0 && 0.0 <= velocity <= 1.0 && 0.0 <= ramp <= 1.0
    ensures 0.0 <= HandScore(cfg, pos, rot, velocity, ramp) <= 1.0
  {
    WeightedWithin(cfg.palmPosFactor, cfg.palmRotFactor, cfg.palmVelocityFactor, pos, rot, velocity);
    var c := cfg.palmPosFactor * pos + cfg.palmRotFactor * rot + cfg.palmVelocityFactor * velocity;
    var scaled := ScaledWithin(c, ramp);
  }

  // ---------------------------------------------------------------- joints

  /** The outward normal of a bone: the rotated right axis on the thumb
      (finger 0), the negated rotated forward axis on the other fingers. */
  function JointNormal(m: Maths, bone: Bone, fingerIndex: nat): Vec3
  {
    if fingerIndex == 0 then m.rotateVector(bone.rotation, RightVector)
    else Scale(m.rotateVector(bone.rotation, ForwardVector), -1.0)
  }

  /** The joint-rotation score of one bone: the doubled-angle score of the
      angle between the device-to-joint direction and the bone normal. */
  function JointRotScore(m: Maths, origin: Vec3, bone: Bone, fingerIndex: nat): (r: real)
    ensures Sound(m) ==> 0.0 <= r <= 1.0
  {
    DoubledAngleScore(m, m.angleBetweenVectors(Sub(bone.nextJoint, origin), JointNormal(m, bone, fingerIndex)))
  }

  /** The joint-rotation-to-palm score of one bone: the single-angle score of
      the angle between the palm normal and the negated rotated forward axis. */
  function JointPalmRotScore(m: Maths, palmNormal: Vec3, bone: Bone): (r: real)
    ensures Sound(m) ==> 0.0 <= r <= 1.0
  {
    AngleScore(m, m.angleBetweenVectors(palmNormal, Scale(m.rotateVector(bone.rotation, ForwardVector), -1.0)))
  }

  /** The list the scorers write into: a zero-filled list of NumJointPositions
      when it is empty, itself otherwise. */
  function ScoreBase(confidences: seq<real>): seq<real>
  {
    if |confidences| == 0 then seq(NumJointPositions, k => 0.0) else confidences
  }

  /** The row ConfidenceRelativeJointRot leaves behind. */
  function JointRotRow(confidences: seq<real>, origin: Vec3, hand: Hand, m: Maths): (r: seq<real>)
    requires WellFormedHand(hand)
    requires |confidences| == 0 || |confidences| >= NumDigits * NumBones
    ensures |r| == |ScoreBase(confidences)|
  {
    var base := ScoreBase(confidences);
    seq(|base|, k requires 0 <= k < |base| =>
      if k < NumDigits * NumBones then JointRotScore(m, origin, hand.digits[k / NumBones].bones[k % NumBones], k / NumBones)
      else base[k])
  }

  /** The row ConfidenceRelativeJointRotToPalmRot leaves behind. */
  function JointPalmRotRow(confidences: seq<real>, hand: Hand, m: Maths): (r: seq<real>)
    requires WellFormedHand(hand)
    requires |confidences| == 0 || |confidences| >= NumBones
    ensures |r| == |ScoreBase(confidences)|
  {
    var base := ScoreBase(confidences);
    seq(|base|, k requires 0 <= k < |base| =>
      if k < NumBones then JointPalmRotScore(m, hand.palm.normal, hand.digits[NumDigits - 1].bones[k])
      else base[k])
  }

  /** ConfidenceRelativeJointRot: bone b of digit f is scored into key
      f * 4 + b, so keys 0..19 hold the 20 bone scores in digit order and
      keys from 20 on keep what they held. */
  method ConfidenceRelativeJointRot(confidences: seq<real>, origin: Vec3, hand: Hand, m: Maths)
    returns (r: seq<real>)
    requires WellFormedHand(hand)
    requires |confidences| == 0 || |confidences| >= NumDigits * NumBones
    ensures |r| == |ScoreBase(confidences)|
    ensures forall k :: 0 <= k < NumDigits * NumBones ==>
              r[k] == JointRotScore(m, origin, hand.digits[k / NumBones].bones[k % NumBones], k / NumBones)
    ensures forall k :: NumDigits * NumBones <= k < |r| ==> r[k] == ScoreBase(confidences)[k]
    ensures r == JointRotRow(confidences, origin, hand, m)
  {
    r := confidences;
    if |r| == 0 {
      r := seq(NumJointPositions, k => 0.0);
    }
    ghost var base := r;
    for fingerIndex := 0 to |hand.digits|
      invariant |r| == |base|
      invariant forall k :: 0 <= k < fingerIndex * NumBones ==>
                  r[k] == JointRotScore(m, origin, hand.digits[k / NumBones].bones[k % NumBones], k / NumBones)
      invariant forall k :: fingerIndex * NumBones <= k < |r| ==> r[k] == base[k]
    {
      var finger := hand.digits[fingerIndex];
      for boneIdx := 0 to NumBones
        invariant |r| == |base|
        invariant forall k :: 0 <= k < fingerIndex * NumBones + boneIdx ==>
                    r[k] == JointRotScore(m, origin, hand.digits[k / NumBones].bones[k % NumBones], k / NumBones)
        invariant forall k :: fingerIndex * NumBones + boneIdx <= k < |r| ==> r[k] == base[k]
      {
        var key := fingerIndex * NumBones + boneIdx;
        assert key / NumBones == fingerIndex && key % NumBones == boneIdx;
        r := r[key := JointRotScore(m, origin, finger.bones[boneIdx], fingerIndex)];
      }
    }
  }

  /** ConfidenceRelativeJointRotToPalmRot: the finger index is reset to 0 for
      every digit, so each digit writes keys 0..3 in turn; keys 0..3 end up
      holding the LAST digit's four bone scores and every other key keeps
      what it held. */
  method ConfidenceRelativeJointRotToPalmRot(confidences: seq<real>, origin: Vec3, hand: Hand, m: Maths)
    returns (r: seq<real>)
    requires WellFormedHand(hand)
    requires |confidences| == 0 || |confidences| >= NumBones
    ensures |r| == |ScoreBase(confidences)|
    ensures forall b :: 0 <= b < NumBones ==>
              r[b] == JointPalmRotScore(m, hand.palm.normal, hand.digits[NumDigits - 1].bones[b])
    ensures forall k :: NumBones <= k < |r| ==> r[k] == ScoreBase(confidences)[k]
    ensures r == JointPalmRotRow(confidences, hand, m)
  {
    r := confidences;
    if |r| == 0 {
      r := seq(NumJointPositions, k => 0.0);
    }
    ghost var base := r;
    for digitIdx := 0 to |hand.digits|
      invariant |r| == |base|
      invariant 0 < digitIdx ==> forall b :: 0 <= b < NumBones ==>
                  r[b] == JointPalmRotScore(m, hand.palm.normal, hand.digits[digitIdx - 1].bones[b])
      invariant forall k :: NumBones <= k < |r| ==> r[k] == base[k]
    {
      var finger := hand.digits[digitIdx];
      var fingerIndex := 0;
      for boneIdx := 0 to NumBones
        invariant |r| == |base|
        invariant forall b :: 0 <= b < boneIdx ==>
                    r[b] == JointPalmRotScore(m, hand.palm.normal, finger.bones[b])
        invariant 0 < digitIdx ==> forall b :: boneIdx <= b < NumBones ==>
                    r[b] == JointPalmRotScore(m, hand.palm.normal, hand.digits[digitIdx - 1].bones[b])
        invariant forall k :: NumBones <= k < |r| ==> r[k] == base[k]
      {
        var key := fingerIndex * NumBones + boneIdx;
        r := r[key := JointPalmRotScore(m, hand.palm.normal, finger.bones[boneIdx])];
      }
      fingerIndex := fingerIndex + 1;
    }
  }

  /** The weighted joint confidence of one key before smoothing. */
  function CombinedJointConfidence(cfg: Config, rot: seq<real>, palm: seq<real>, occlusion: seq<real>, key: nat): real
    requires key < |rot| && key < |palm| && key < |occlusion|
  {
    cfg.jointRotFactor * rot[key] + cfg.jointRotToPalmFactor * palm[key] + cfg.jointOcclusionFactor * occlusion[key]
  }

  /** The weighted joint confidences of all 25 keys before smoothing. */
  function CombinedJointConfidences(cfg: Config, rot: seq<real>, palm: seq<real>, occlusion: seq<real>): (c: seq<real>)
    requires |rot| >= NumJointPositions && |palm| >= NumJointPositions && |occlusion| >= NumJointPositions
    ensures |c| == NumJointPositions
  {
    seq(NumJointPositions, k requires 0 <= k < NumJointPositions => CombinedJointConfidence(cfg, rot, palm, occlusion, k))
  }

  /** Finger-local smoothing of key f * 5 + b: bone 0 keeps its combined value,
      every later bone is the mean of its combined value and the smoothed value
      of the bone before it on the same finger. */
  ghost predicate FingerSmoothed(r: seq<real>, combined: seq<real>)
    requires |r| >= NumJointPositions && |combined| >= NumJointPositions
  {
    forall k {:trigger r[k]} :: 0 <= k < NumJointPositions ==>
      r[k] == if k % 5 == 0 then combined[k] else (combined[k] + r[k - 1]) / 2.0
  }

  /** The combination and smoothing loop of CalculateJointConfidence over the
      25 keys of one hand's row: the new row is the finger-smoothed combined
      confidences, and entries past the 25th are untouched. */
  method CombineJointConfidences(confidences: seq<real>, cfg: Config, rot: seq<real>, palm: seq<real>,
                                 occlusion: seq<real>)
    returns (r: seq<real>)
    requires |confidences| >= NumJointPositions
    requires |rot| >= NumJointPositions && |palm| >= NumJointPositions && |occlusion| >= NumJointPositions
    ensures |r| == |confidences|
    ensures FingerSmoothed(r, CombinedJointConfidences(cfg, rot, palm, occlusion))
    ensures forall k :: NumJointPositions <= k < |r| ==> r[k] == confidences[k]
  {
    ghost var combined := CombinedJointConfidences(cfg, rot, palm, occlusion);
    r := confidences;
    for fingerIdx := 0 to 5
      invariant |r| == |confidences|
      invariant SmoothedUpTo(r, combined, fingerIdx * 5)
      invariant forall k :: NumJointPositions <= k < |r| ==> r[k] == confidences[k]
    {
      for boneIdx := 0 to 5
        invariant |r| == |confidences|
        invariant SmoothedUpTo(r, combined, fingerIdx * 5 + boneIdx)
        invariant forall k :: NumJointPositions <= k < |r| ==> r[k] == confidences[k]
      {
        var key := fingerIdx * 5 + boneIdx;
        assert key % 5 == boneIdx;
        var confidence := CombinedJointConfidence(cfg, rot, palm, occlusion, key);
        assert confidence == combined[key];
        if boneIdx != 0 {
          confidence := confidence + r[key - 1];
          confidence := confidence / 2.0;
        }
        SmoothedStep(r, combined, key, confidence);
        r := r[key := confidence];
      }
    }
  }

  /** The smoothing recurrence holds for the first n keys. */
  ghost predicate SmoothedUpTo(r: seq<real>, combined: seq<real>, n: nat)
    requires |r| >= NumJointPositions && |combined| >= NumJointPositions && n <= NumJointPositions
  {
    forall k {:trigger r[k]} :: 0 <= k < n ==>
      r[k] == if k % 5 == 0 then combined[k] else (combined[k] + r[k - 1]) / 2.0
  }

  /** Writing key n's smoothed value extends the recurrence by one key. */
  lemma SmoothedStep(r: seq<real>, combined: seq<real>, n: nat, v: real)
    requires |r| >= NumJointPositions && |combined| >= NumJointPositions && n < NumJointPositions
    requires SmoothedUpTo(r, combined, n)
    requires v == if n % 5 == 0 then combined[n] else (combined[n] + r[n - 1]) / 2.0
    ensures SmoothedUpTo(r[n := v], combined, n + 1)
  {
    var r' := r[n := v];
    forall k | 0 <= k < n + 1
      ensures r'[k] == if k % 5 == 0 then combined[k] else (combined[k] + r'[k - 1]) / 2.0
    {
      assert r'[k] == if k == n then v else r[k];
      if k % 5 != 0 {
        assert r'[k - 1] == r[k - 1];
      }
    }
  }

  /** Smoothing keeps every joint confidence within bounds that hold for the
      combined confidences. */
  lemma {:induction false} FingerSmoothedWithinAt(r: seq<real>, combined: seq<real>, lo: real, hi: real, k: nat)
    requires |r| >= NumJointPositions && |combined| >= NumJointPositions
    requires FingerSmoothed(r, combined)
    requires forall j :: 0 <= j < NumJointPositions ==> lo <= combined[j] <= hi
    requires k < NumJointPositions
    ensures lo <= r[k] <= hi
    decreases k
  {
    if k % 5 != 0 {
      FingerSmoothedWithinAt(r, combined, lo, hi, k - 1);
    }
  }

  /** The smoothing recurrence determines the row: two rows smoothed from the
      same combined confidences agree on all 25 keys. */
  lemma {:induction false} FingerSmoothedUnique(r: seq<real>, s: seq<real>, combined: seq<real>, k: nat)
    requires |r| >= NumJointPositions && |s| >= NumJointPositions && |combined| >= NumJointPositions
    requires FingerSmoothed(r, combined) && FingerSmoothed(s, combined)
    requires k < NumJointPositions
    ensures r[k] == s[k]
    decreases k
  {
    if k % 5 != 0 {
      FingerSmoothedUnique(r, s, combined, k - 1);
    }
  }

  /** The smoothed value of key k: the reference definition of the smoothing
      recurrence, key by key. */
  function SmoothedKey(combined: seq<real>, k: nat): real
    requires k < |combined|
    decreases k
  {
    if k % 5 == 0 then combined[k] else (combined[k] + SmoothedKey(combined, k - 1)) / 2.0
  }

  /** The 25 finger-smoothed joint confidences of a combined row. */
  function Smoothed(combined: seq<real>): (r: seq<real>)
    requires |combined| >= NumJointPositions
    ensures |r| == NumJointPositions
  {
    seq(NumJointPositions, k requires 0 <= k < NumJointPositions => SmoothedKey(combined, k))
  }

  /** A row of 25 entries that satisfies the smoothing recurrence is the
      smoothed row, and the smoothed row satisfies the recurrence. */
  lemma FingerSmoothedIsSmoothed(r: seq<real>, combined: seq<real>)
    requires |r| == NumJointPositions && |combined| >= NumJointPositions
    ensures FingerSmoothed(Smoothed(combined), combined)
    ensures FingerSmoothed(r, combined) <==> r == Smoothed(combined)
  {
    var s := Smoothed(combined);
    forall k | 0 <= k < NumJointPositions
      ensures s[k] == if k % 5 == 0 then combined[k] else (combined[k] + s[k - 1]) / 2.0
    {
    }
    if FingerSmoothed(r, combined) {
      forall k | 0 <= k < NumJointPositions
        ensures r[k] == s[k]
      {
        FingerSmoothedUnique(r, s, combined, k);
      }
    }
  }

  /** Smoothing keeps every key within bounds the combined confidences share. */
  lemma SmoothedWithin(combined: seq<real>, lo: real, hi: real)
    requires |combined| >= NumJointPositions
    requires forall j :: 0 <= j < NumJointPositions ==> lo <= combined[j] <= hi
    ensures forall k :: 0 <= k < NumJointPositions ==> lo <= Smoothed(combined)[k] <= hi
  {
    FingerSmoothedIsSmoothed(Smoothed(combined), combined);
    forall k | 0 <= k < NumJointPositions
      ensures lo <= Smoothed(combined)[k] <= hi
    {
      FingerSmoothedWithinAt(Smoothed(combined), combined, lo, hi, k);
    }
  }

  /** With non-negative joint weights totalling at most 1 and every scorer
      result in [0, 1], each combined confidence is in [0, 1]. */
  lemma CombinedJointWithin(cfg: Config, rot: seq<real>, palm: seq<real>, occlusion: seq<real>, key: nat)
    requires Convex3(cfg.jointRotFactor, cfg.jointRotToPalmFactor, cfg.jointOcclusionFactor)
    requires key < |rot| && key < |palm| && key < |occlusion|
    requires 0.0 <= rot[key] <= 1.0 && 0.0 <= palm[key] <= 1.0 && 0.0 <= occlusion[key] <= 1.0
    ensures 0.0 <= CombinedJointConfidence(cfg, rot, palm, occlusion, key) <= 1.0
  {
    WeightedWithin(cfg.jointRotFactor, cfg.jointRotToPalmFactor, cfg.jointOcclusionFactor,
                   rot[key], palm[key], occlusion[key]);
  }
}
