/** The tracking data one fusion tick reads and writes: per-device frames of
    hands in, one merged frame out. */
module Tracking {
  import opened Geometry

  datatype Option<T> = None | Some(value: T)

  /** NumJointPositions: 5 fingers times 5 joint slots. */
  const NumJointPositions: nat := 25

  /** Bones per digit that the joint-rotation scorers read. */
  const NumBones: nat := 4

  const NumDigits: nat := 5

  datatype HandType = Left | Right

  /** One bone: its rotation and the position of its distal joint. */
  datatype Bone = Bone(rotation: Quat, nextJoint: Vec3)

  datatype Digit = Digit(bones: seq<Bone>)

  /** The palm pose: position, orientation and outward normal. */
  datatype Palm = Palm(position: Vec3, orientation: Quat, normal: Vec3)

  datatype Hand = Hand(handType: HandType, palm: Palm, digits: seq<Digit>)

  /** One device's frame for the tick. */
  datatype Frame = Frame(hands: seq<Hand>)

  /** A merged palm rotation, or the non-finite value the source's float
      arithmetic produces once a lerp weight divides by zero. */
  datatype Rotation = Rotation(q: Quat) | NonFinite

  /** What MergeHands hands to ConvertToWorldSpaceHand: the side, the merged
      palm position and rotation, and the 25 merged palm-local joint positions. */
  datatype MergedHand = MergedHand(isLeft: bool, palmPosition: Vec3, palmRotation: Rotation,
                                   jointPositions: seq<Vec3>)

  /** The combined frame: the merged hands and NumberOfHandsVisible. */
  datatype MergedFrame = MergedFrame(hands: seq<MergedHand>, numberOfHandsVisible: nat)

  /** Every hand record carries five digits of at least four bones. */
  predicate WellFormedHand(h: Hand)
  {
    |h.digits| == NumDigits && forall f :: 0 <= f < NumDigits ==> |h.digits[f].bones| >= NumBones
  }

  predicate WellFormedFrames(frames: seq<Frame>)
  {
    forall i, j :: 0 <= i < |frames| && 0 <= j < |frames[i].hands| ==> WellFormedHand(frames[i].hands[j])
  }

  predicate IsLeft(h: Hand)
  {
    h.handType == Left
  }

  /** The hands of one side, in their original order; `left == false`
      selects every hand that is not a left hand. */
  function OfSide(hands: seq<Hand>, left: bool): seq<Hand>
    decreases |hands|
  {
    if |hands| == 0 then []
    else
      var last := hands[|hands| - 1];
      OfSide(hands[..|hands| - 1], left) + (if IsLeft(last) == left then [last] else [])
  }

  /** All hands of a list of frames, frame after frame. */
  function AllHands(frames: seq<Frame>): seq<Hand>
    decreases |frames|
  {
    if |frames| == 0 then [] else AllHands(frames[..|frames| - 1]) + frames[|frames| - 1].hands
  }

  /** Selecting a side commutes with concatenation. */
  lemma {:induction false} OfSideConcat(a: seq<Hand>, b: seq<Hand>, left: bool)
    ensures OfSide(a + b, left) == OfSide(a, left) + OfSide(b, left)
    decreases |b|
  {
    if |b| == 0 {
      assert a + b == a;
    } else {
      var b' := b[..|b| - 1];
      assert (a + b)[..|a + b| - 1] == a + b';
      OfSideConcat(a, b', left);
    }
  }

  /** The two sides partition the hands: every hand lands in exactly one
      group, so the group sizes add up to the number of hands. */
  lemma {:induction false} OfSidePartition(hands: seq<Hand>)
    ensures |OfSide(hands, true)| + |OfSide(hands, false)| == |hands|
    decreases |hands|
  {
    if |hands| > 0 {
      OfSidePartition(hands[..|hands| - 1]);
    }
  }

  /** Every hand of a group has that group's side. */
  lemma {:induction false} OfSideHasSide(hands: seq<Hand>, left: bool)
    ensures forall h :: h in OfSide(hands, left) ==> IsLeft(h) == left
    decreases |hands|
  {
    if |hands| > 0 {
      OfSideHasSide(hands[..|hands| - 1], left);
    }
  }

  /** Hands in well-formed frames are well formed. */
  lemma {:induction false} AllHandsWellFormed(frames: seq<Frame>)
    requires WellFormedFrames(frames)
    ensures forall h :: h in AllHands(frames) ==> WellFormedHand(h)
    decreases |frames|
  {
    if |frames| > 0 {
      AllHandsWellFormed(frames[..|frames| - 1]);
    }
  }
}
