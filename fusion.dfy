/** The combined device: the class whose fields are the per-device state
    carried from tick to tick (first-visible times, position histories, hand
    and joint confidence histories, the per-hand joint confidence rows), and
    one fusion tick, MergeFrames, proved to follow the functions of module
    Tick. */
module Fusion {
  import opened Sums
  import opened Geometry
  import opened Tracking
  import opened EngineMaths
  import opened Histories
  import opened Confidence
  import opened Merge
  import opened Tick
  import opened Bounds

  /** A map giving every one of the n devices the value v. */
  method DeviceMap<V>(n: nat, v: V) returns (m: map<nat, V>)
    ensures Covers(m, n)
    ensures forall d: nat :: d < n ==> m[d] == v
  {
    m := map[];
    for d := 0 to n
      invariant Covers(m, d)
      invariant forall e: nat :: e < d ==> m[e] == v
    {
      m := m[d := v];
    }
  }

  function ZeroRows(n: nat): (rows: seq<seq<real>>)
    ensures Rows(rows, n)
  {
    seq(n, i => seq(NumJointPositions, k => 0.0))
  }

  /** Zeroed rows lie in [0, 1]. */
  lemma ZeroRowsWithin(n: nat)
    ensures UnitRows(ZeroRows(n))
  {
  }

  // ---------------------------------------------------------------- the device

  class CombinedDeviceConfidence {
    /** The number of devices combined; device d is the one whose frame is at
        index d of each tick's frame list. */
    const numDevices: nat
    const config: Config

    var leftHandFirstVisible: map<nat, real>
    var rightHandFirstVisible: map<nat, real>
    var lastLeftHandPositions: map<nat, seq<PositionSample>>
    var lastRightHandPositions: map<nat, seq<PositionSample>>
    var handConfidenceHistoriesLeft: map<nat, seq<real>>
    var handConfidenceHistoriesRight: map<nat, seq<real>>
    var jointConfidenceHistoriesLeft: map<nat, seq<seq<real>>>
    var jointConfidenceHistoriesRight: map<nat, seq<seq<real>>>
    var jointConfidences: seq<seq<real>>
    var confidencesJointRot: seq<seq<real>>
    var confidencesJointPalmRot: seq<seq<real>>
    var confidencesJointOcclusion: seq<seq<real>>

    /** The visibility and position records, as one value. */
    function CurrentRecords(): Records
      reads this`leftHandFirstVisible, this`rightHandFirstVisible, this`lastLeftHandPositions, this`lastRightHandPositions
    {
      Records(leftHandFirstVisible, rightHandFirstVisible, lastLeftHandPositions, lastRightHandPositions)
    }

    /** The hand confidence histories, as one value. */
    function HandLogs(): SideLogs<real>
      reads this`handConfidenceHistoriesLeft, this`handConfidenceHistoriesRight
    {
      SideLogs(handConfidenceHistoriesLeft, handConfidenceHistoriesRight)
    }

    /** The joint confidence histories, as one value. */
    function JointLogsNow(): SideLogs<seq<real>>
      reads this`jointConfidenceHistoriesLeft, this`jointConfidenceHistoriesRight
    {
      SideLogs(jointConfidenceHistoriesLeft, jointConfidenceHistoriesRight)
    }

    /** The joint histories and the three joint rows scoring writes. */
    function JointRowsNow(): JointRows
      reads this`jointConfidenceHistoriesLeft, this`jointConfidenceHistoriesRight
      reads this`jointConfidences, this`confidencesJointRot, this`confidencesJointPalmRot
    {
      JointRows(JointLogsNow(), jointConfidences, confidencesJointRot, confidencesJointPalmRot)
    }

    /** The histories and rows together with the groups the hand loop holds. */
    function CollectedNow(left: Group, right: Group): Collected
      reads this`handConfidenceHistoriesLeft, this`handConfidenceHistoriesRight
      reads this`jointConfidenceHistoriesLeft, this`jointConfidenceHistoriesRight
      reads this`jointConfidences, this`confidencesJointRot, this`confidencesJointPalmRot
    {
      Collected(HandLogs(), JointRowsNow(), left, right)
    }

    /** Everything a tick changes, with the groups the frame loop holds. */
    function TickStateNow(left: Group, right: Group): TickState
      reads this`leftHandFirstVisible, this`rightHandFirstVisible, this`lastLeftHandPositions, this`lastRightHandPositions
      reads this`handConfidenceHistoriesLeft, this`handConfidenceHistoriesRight
      reads this`jointConfidenceHistoriesLeft, this`jointConfidenceHistoriesRight
      reads this`jointConfidences, this`confidencesJointRot, this`confidencesJointPalmRot
    {
      TickState(CurrentRecords(), CollectedNow(left, right))
    }

    /** Every map has an entry for each device and no other; the four joint
        arrays hold two rows of 25 per device; the histories have a positive
        capacity and every recorded joint vector has 25 entries. */
    ghost predicate Valid()
      reads this
    {
      VisibilityValid() && ScoringValid() && CapacitiesPositive(config)
    }

    /** The parts of Valid that scoring a hand reads or changes. */
    ghost predicate ScoringValid()
      reads this`handConfidenceHistoriesLeft, this`handConfidenceHistoriesRight
      reads this`jointConfidenceHistoriesLeft, this`jointConfidenceHistoriesRight
      reads this`jointConfidences, this`confidencesJointRot, this`confidencesJointPalmRot, this`confidencesJointOcclusion
    {
      HandHistoriesValid() && JointHistoriesValid() && RowsValid()
    }

    ghost predicate VisibilityValid()
      reads this`leftHandFirstVisible, this`rightHandFirstVisible, this`lastLeftHandPositions, this`lastRightHandPositions
    {
      RecordsCover(CurrentRecords(), numDevices)
    }

    ghost predicate HandHistoriesValid()
      reads this`handConfidenceHistoriesLeft, this`handConfidenceHistoriesRight
    {
      LogsCover(HandLogs(), numDevices)
    }

    ghost predicate JointHistoriesValid()
      reads this`jointConfidenceHistoriesLeft, this`jointConfidenceHistoriesRight
    {
      LogsCover(JointLogsNow(), numDevices) && JointLogsValid(JointLogsNow())
    }

    ghost predicate RowsValid()
      reads this`jointConfidences, this`confidencesJointRot, this`confidencesJointPalmRot, this`confidencesJointOcclusion
    {
      && Rows(jointConfidences, 2 * numDevices) && Rows(confidencesJointRot, 2 * numDevices)
      && Rows(confidencesJointPalmRot, 2 * numDevices) && Rows(confidencesJointOcclusion, 2 * numDevices)
    }

    /** Every stored hand and joint confidence and every joint row entry
        lies in [0, 1]. */
    ghost predicate ConfidencesWithin()
      reads this`handConfidenceHistoriesLeft, this`handConfidenceHistoriesRight
      reads this`jointConfidenceHistoriesLeft, this`jointConfidenceHistoriesRight
      reads this`jointConfidences, this`confidencesJointRot, this`confidencesJointPalmRot, this`confidencesJointOcclusion
    {
      UnitHandLogs(HandLogs()) && UnitJointRows(JointRowsNow()) && UnitRows(confidencesJointOcclusion)
    }

    /** The constructor: every device starts with first-visible times of 0,
        empty histories, and zeroed joint rows. */
    constructor (numDevices: nat, config: Config)
      requires CapacitiesPositive(config)
      ensures this.numDevices == numDevices && this.config == config
      ensures Valid()
      ensures forall d: nat :: d < numDevices ==>
                && leftHandFirstVisible[d] == 0.0 && rightHandFirstVisible[d] == 0.0
                && lastLeftHandPositions[d] == [] && lastRightHandPositions[d] == []
                && handConfidenceHistoriesLeft[d] == [] && handConfidenceHistoriesRight[d] == []
                && jointConfidenceHistoriesLeft[d] == [] && jointConfidenceHistoriesRight[d] == []
      ensures jointConfidences == ZeroRows(2 * numDevices) && confidencesJointRot == ZeroRows(2 * numDevices)
      ensures confidencesJointPalmRot == ZeroRows(2 * numDevices) && confidencesJointOcclusion == ZeroRows(2 * numDevices)
    {
      var times := DeviceMap(numDevices, 0.0);
      var positions := DeviceMap(numDevices, []);
      var hands := DeviceMap(numDevices, []);
      var joints := DeviceMap(numDevices, []);
      var rows: seq<seq<real>> := [];
      for i := 0 to 2 * numDevices
        invariant rows == ZeroRows(i)
      {
        rows := rows + [seq(NumJointPositions, k => 0.0)];
      }
      this.numDevices := numDevices;
      this.config := config;
      leftHandFirstVisible, rightHandFirstVisible := times, times;
      lastLeftHandPositions, lastRightHandPositions := positions, positions;
      handConfidenceHistoriesLeft, handConfidenceHistoriesRight := hands, hands;
      jointConfidenceHistoriesLeft, jointConfidenceHistoriesRight := joints, joints;
      jointConfidences, confidencesJointRot := rows, rows;
      confidencesJointPalmRot, confidencesJointOcclusion := rows, rows;
    }

    /** The state the constructor leaves holds every confidence in [0, 1] and
        no recorded time after 0. */
    lemma InitialWithin()
      requires Valid()
      requires forall d: nat :: d < numDevices ==>
                && leftHandFirstVisible[d] == 0.0 && rightHandFirstVisible[d] == 0.0
                && lastLeftHandPositions[d] == [] && lastRightHandPositions[d] == []
                && handConfidenceHistoriesLeft[d] == [] && handConfidenceHistoriesRight[d] == []
                && jointConfidenceHistoriesLeft[d] == [] && jointConfidenceHistoriesRight[d] == []
      requires jointConfidences == ZeroRows(2 * numDevices) && confidencesJointRot == ZeroRows(2 * numDevices)
      requires confidencesJointPalmRot == ZeroRows(2 * numDevices) && confidencesJointOcclusion == ZeroRows(2 * numDevices)
      ensures ConfidencesWithin() && TimesNotAfter(CurrentRecords(), 0.0)
    {
      ZeroRowsWithin(2 * numDevices);
    }

    /** The hand loop of AddFrameToTimeVisibleDicts on one device's entries:
        each side's first-visible time becomes the current time when a hand of
        that side is present and the stored time is 0, and 0 when none is
        present; every hand appends its palm position and the current time to
        its side's positions. */
    static method ScanHands(hands: seq<Hand>, leftStored: real, rightStored: real,
                            leftLog: seq<PositionSample>, rightLog: seq<PositionSample>, now: real)
      returns (leftFirst: real, rightFirst: real, leftPositions: seq<PositionSample>, rightPositions: seq<PositionSample>)
      ensures leftFirst == FirstVisibleAfter(leftStored, |OfSide(hands, true)| > 0, now)
      ensures rightFirst == FirstVisibleAfter(rightStored, |OfSide(hands, false)| > 0, now)
      ensures leftPositions == leftLog + Samples(OfSide(hands, true), now)
      ensures rightPositions == rightLog + Samples(OfSide(hands, false), now)
    {
      var leftVisible, rightVisible := false, false;
      leftFirst, rightFirst := leftStored, rightStored;
      leftPositions, rightPositions := leftLog, rightLog;
      assert hands[..0] == [];
      assert leftLog + Samples([], now) == leftLog && rightLog + Samples([], now) == rightLog;
      for i := 0 to |hands|
        invariant leftVisible == (|OfSide(hands[..i], true)| > 0)
        invariant rightVisible == (|OfSide(hands[..i], false)| > 0)
        invariant leftFirst == if leftVisible then FirstVisibleAfter(leftStored, true, now) else leftStored
        invariant rightFirst == if rightVisible then FirstVisibleAfter(rightStored, true, now) else rightStored
        invariant leftPositions == leftLog + Samples(OfSide(hands[..i], true), now)
        invariant rightPositions == rightLog + Samples(OfSide(hands[..i], false), now)
      {
        var hand := hands[i];
        SideStep(hands, i, true, now);
        SideStep(hands, i, false, now);
        if hand.handType == Left {
          leftVisible := true;
          if leftFirst == 0.0 {
            leftFirst := now;
          }
          leftPositions := leftPositions + [PositionSample(hand.palm.position, now)];
        } else {
          rightVisible := true;
          if rightFirst == 0.0 {
            rightFirst := now;
          }
          rightPositions := rightPositions + [PositionSample(hand.palm.position, now)];
        }
      }
      assert hands[..|hands|] == hands;
      if !leftVisible {
        leftFirst := 0.0;
      }
      if !rightVisible {
        rightFirst := 0.0;
      }
    }

    /** AddFrameToTimeVisibleDicts: for the frame's device, update both
        sides' first-visible times and append one position sample per hand
        to the history of its side. */
    method AddFrameToTimeVisibleDicts(frames: seq<Frame>, frameIdx: nat, now: real)
      requires VisibilityValid() && frameIdx < |frames| && frameIdx < numDevices
      modifies this`leftHandFirstVisible, this`rightHandFirstVisible, this`lastLeftHandPositions, this`lastRightHandPositions
      ensures VisibilityValid()
      ensures HasDevice(old(CurrentRecords()), frameIdx)
      ensures CurrentRecords() == RecordFrame(old(CurrentRecords()), frameIdx, frames[frameIdx], now)
      ensures 0.0 <= now && old(TimesNotAfter(CurrentRecords(), now)) ==> TimesNotAfter(CurrentRecords(), now)
    {
      if 0.0 <= now && TimesNotAfter(CurrentRecords(), now) {
        RecordFrameTimesNotAfter(CurrentRecords(), frameIdx, frames[frameIdx], now, now);
      }
      var leftFirst, rightFirst, leftPositions, rightPositions := ScanHands(frames[frameIdx].hands,
        leftHandFirstVisible[frameIdx], rightHandFirstVisible[frameIdx],
        lastLeftHandPositions[frameIdx], lastRightHandPositions[frameIdx], now);
      CoversUpdate(leftHandFirstVisible, numDevices, frameIdx, leftFirst);
      CoversUpdate(rightHandFirstVisible, numDevices, frameIdx, rightFirst);
      CoversUpdate(lastLeftHandPositions, numDevices, frameIdx, leftPositions);
      CoversUpdate(lastRightHandPositions, numDevices, frameIdx, rightPositions);
      leftHandFirstVisible := leftHandFirstVisible[frameIdx := leftFirst];
      rightHandFirstVisible := rightHandFirstVisible[frameIdx := rightFirst];
      lastLeftHandPositions := lastLeftHandPositions[frameIdx := leftPositions];
      lastRightHandPositions := lastRightHandPositions[frameIdx := rightPositions];
    }

    /** CalculateHandConfidence: push the raw confidence into the hand's
        (device, side) history and return the mean of the history's window,
        as ScoredHand does. */
    method CalculateHandConfidence(frameIdx: nat, hand: Hand, now: real, deltaTimeFromTick: real, m: Maths)
      returns (confidence: real)
      requires VisibilityValid() && HandHistoriesValid() && frameIdx < numDevices && config.handHistoryCapacity > 0
      modifies this`handConfidenceHistoriesLeft, this`handConfidenceHistoriesRight
      ensures HandHistoriesValid()
      ensures HandScored(HandLogs(), confidence)
           == ScoredHand(config, old(HandLogs()), old(CurrentRecords()), frameIdx, hand, now, deltaTimeFromTick, m)
      ensures ScoresBounded(config, m) && TimesNotAfter(old(CurrentRecords()), now) && old(UnitHandLogs(HandLogs()))
              ==> UnitHandLogs(HandLogs()) && 0.0 <= confidence <= 1.0
    {
      ghost var logs, r := HandLogs(), CurrentRecords();
      if ScoresBounded(config, m) && TimesNotAfter(r, now) && UnitHandLogs(logs) {
        ScoredHandWithin(config, logs, r, frameIdx, hand, now, deltaTimeFromTick, m);
      }
      var raw := RawHandConfidence(config, CurrentRecords(), frameIdx, hand, now, deltaTimeFromTick, m);
      if hand.handType == Left {
        var log := handConfidenceHistoriesLeft[frameIdx] + [raw];
        CoversUpdate(handConfidenceHistoriesLeft, numDevices, frameIdx, log);
        handConfidenceHistoriesLeft := handConfidenceHistoriesLeft[frameIdx := log];
        confidence := Averaged(log, config.handHistoryCapacity);
      } else {
        var log := handConfidenceHistoriesRight[frameIdx] + [raw];
        CoversUpdate(handConfidenceHistoriesRight, numDevices, frameIdx, log);
        handConfidenceHistoriesRight := handConfidenceHistoriesRight[frameIdx := log];
        confidence := Averaged(log, config.handHistoryCapacity);
      }
    }

    /** The rescoring step of CalculateJointConfidence: the hand's
        joint-rotation row is rescored when the joint-rotation weight is
        non-zero, its rotation-to-palm row when that weight is non-zero. */
    method RescoreJointRows(frameIdx: nat, hand: Hand, m: Maths)
      requires RowsValid() && frameIdx < numDevices && WellFormedHand(hand)
      modifies this`confidencesJointRot, this`confidencesJointPalmRot
      ensures RowsValid()
      ensures var idx := RowIndex(frameIdx, hand);
              && confidencesJointRot == (if config.jointRotFactor != 0.0
                   then old(confidencesJointRot)[idx := JointRotRow(old(confidencesJointRot[idx]), m.sourceDeviceOrigin(frameIdx), hand, m)]
                   else old(confidencesJointRot))
              && confidencesJointPalmRot == (if config.jointRotToPalmFactor != 0.0
                   then old(confidencesJointPalmRot)[idx := JointPalmRotRow(old(confidencesJointPalmRot[idx]), hand, m)]
                   else old(confidencesJointPalmRot))
    {
      var idx := frameIdx * 2 + (if hand.handType == Left then 0 else 1);
      var origin := m.sourceDeviceOrigin(frameIdx);
      if config.jointRotFactor != 0.0 {
        var row := ConfidenceRelativeJointRot(confidencesJointRot[idx], origin, hand, m);
        confidencesJointRot := confidencesJointRot[idx := row];
      }
      if config.jointRotToPalmFactor != 0.0 {
        var row := ConfidenceRelativeJointRotToPalmRot(confidencesJointPalmRot[idx], origin, hand, m);
        confidencesJointPalmRot := confidencesJointPalmRot[idx := row];
      }
    }

    /** The history step of CalculateJointConfidence: the hand's new joint
        row is pushed into its (device, side) joint history, and the row is
        replaced by the history's entry-by-entry mean, which is returned. */
    method PushJointConfidences(frameIdx: nat, hand: Hand, row: seq<real>) returns (ret: seq<real>)
      requires JointHistoriesValid() && RowsValid() && frameIdx < numDevices && |row| == NumJointPositions
      requires config.jointHistoryCapacity > 0
      modifies this`jointConfidenceHistoriesLeft, this`jointConfidenceHistoriesRight, this`jointConfidences
      ensures JointHistoriesValid() && RowsValid()
      ensures |ret| == NumJointPositions
      ensures jointConfidences == old(jointConfidences)[RowIndex(frameIdx, hand) := ret]
      ensures JointLogsNow() == Pushed(old(JointLogsNow()), frameIdx, IsLeft(hand), row)
      ensures ret == AveragedVector(LogOf(JointLogsNow(), frameIdx, IsLeft(hand)), config.jointHistoryCapacity, NumJointPositions)
    {
      var idx := frameIdx * 2 + (if hand.handType == Left then 0 else 1);
      if hand.handType == Left {
        var log := jointConfidenceHistoriesLeft[frameIdx] + [row];
        assert JointLog(log);
        CoversUpdate(jointConfidenceHistoriesLeft, numDevices, frameIdx, log);
        jointConfidenceHistoriesLeft := jointConfidenceHistoriesLeft[frameIdx := log];
        ret := AveragedVector(log, config.jointHistoryCapacity, NumJointPositions);
      } else {
        var log := jointConfidenceHistoriesRight[frameIdx] + [row];
        assert JointLog(log);
        CoversUpdate(jointConfidenceHistoriesRight, numDevices, frameIdx, log);
        jointConfidenceHistoriesRight := jointConfidenceHistoriesRight[frameIdx := log];
        ret := AveragedVector(log, config.jointHistoryCapacity, NumJointPositions);
      }
      jointConfidences := jointConfidences[idx := ret];
    }

    /** CalculateJointConfidence: rescore the hand's joint-rotation rows
        whose weight is non-zero, combine and smooth them into the hand's
        joint row, push that row into the (device, side) joint history, and
        store and return the history's entry-by-entry mean, as ScoredJoints
        does. */
    method CalculateJointConfidence(frameIdx: nat, hand: Hand, m: Maths) returns (ret: seq<real>)
      requires JointHistoriesValid() && RowsValid() && frameIdx < numDevices && WellFormedHand(hand)
      requires config.jointHistoryCapacity > 0
      modifies this`confidencesJointRot, this`confidencesJointPalmRot
      modifies this`jointConfidenceHistoriesLeft, this`jointConfidenceHistoriesRight, this`jointConfidences
      ensures JointHistoriesValid() && RowsValid()
      ensures JointsScored(JointRowsNow(), ret)
           == ScoredJoints(config, old(JointRowsNow()), old(confidencesJointOcclusion), numDevices, frameIdx, hand, m)
      ensures ScoresBounded(config, m) && old(UnitJointRows(JointRowsNow())) && UnitRows(confidencesJointOcclusion)
              ==> UnitJointRows(JointRowsNow()) && UnitRow(ret)
    {
      ghost var before := JointRowsNow();
      var idx := RowIndex(frameIdx, hand);
      RescoreJointRows(frameIdx, hand, m);
      ghost var rescored := (confidencesJointRot, confidencesJointPalmRot);
      var row := CombineJointConfidences(jointConfidences[idx], config, confidencesJointRot[idx],
                                         confidencesJointPalmRot[idx], confidencesJointOcclusion[idx]);
      FingerSmoothedIsSmoothed(row, CombinedJointConfidences(config, confidencesJointRot[idx],
                                                             confidencesJointPalmRot[idx], confidencesJointOcclusion[idx]));
      ret := PushJointConfidences(frameIdx, hand, row);
      assert (confidencesJointRot, confidencesJointPalmRot) == rescored;
      if ScoresBounded(config, m) && UnitJointRows(before) && UnitRows(confidencesJointOcclusion) {
        ScoredJointsWithin(config, before, confidencesJointOcclusion, numDevices, frameIdx, hand, m);
      }
    }

    /** Pass i of the hand loop of MergeFrames over a frame's hands: the
        hand's confidence and joint confidences are computed, in that order,
        and the hand is appended with them to the group of its side, so that
        the first i + 1 hands are collected as ScoredHands collects them from
        `start` against the records r and the occlusion rows. */
    method CollectHand(frameIdx: nat, hands: seq<Hand>, i: nat, now: real, deltaTimeFromTick: real, m: Maths,
                       left: Group, right: Group, ghost start: Collected, ghost r: Records,
                       ghost occlusion: seq<seq<real>>)
      returns (left': Group, right': Group)
      requires VisibilityValid() && ScoringValid() && CapacitiesPositive(config)
      requires r == CurrentRecords() && occlusion == confidencesJointOcclusion
      requires frameIdx < numDevices && i < |hands| && Scorable(m, hands) && CollectedValid(start, numDevices, m)
      requires CollectedNow(left, right)
            == ScoredHands(config, start, r, occlusion, numDevices, frameIdx, hands, i, now, deltaTimeFromTick, m)
      modifies this`handConfidenceHistoriesLeft, this`handConfidenceHistoriesRight
      modifies this`confidencesJointRot, this`confidencesJointPalmRot
      modifies this`jointConfidenceHistoriesLeft, this`jointConfidenceHistoriesRight, this`jointConfidences
      ensures ScoringValid()
      ensures CollectedNow(left', right')
           == ScoredHands(config, start, r, occlusion, numDevices, frameIdx, hands, i + 1, now, deltaTimeFromTick, m)
    {
      var hand := hands[i];
      ghost var c := CollectedNow(left, right);
      var handConfidence := CalculateHandConfidence(frameIdx, hand, now, deltaTimeFromTick, m);
      ghost var h := HandScored(HandLogs(), handConfidence);
      assert h == ScoredHand(config, c.hands, r, frameIdx, hand, now, deltaTimeFromTick, m);
      var jointConfidencesLocal := CalculateJointConfidence(frameIdx, hand, m);
      ghost var j := JointsScored(JointRowsNow(), jointConfidencesLocal);
      assert j == ScoredJoints(config, c.joints, occlusion, numDevices, frameIdx, hand, m);
      assert HandLogs() == h.logs;
      left', right' := left, right;
      if hand.handType == Left {
        left' := WithHand(left, hand, handConfidence, jointConfidencesLocal);
      } else {
        right' := WithHand(right, hand, handConfidence, jointConfidencesLocal);
      }
      ScoredPassParts(config, start, r, occlusion, numDevices, frameIdx, hands, i, now, deltaTimeFromTick, m, c, h, j);
    }

    /** The hand loop of MergeFrames for one frame: each hand's confidence
        and joint confidences are computed and the hand is appended, with
        them, to the group of its side, as ScoredHands does. */
    method CollectHands(frames: seq<Frame>, frameIdx: nat, now: real, deltaTimeFromTick: real, m: Maths,
                        left: Group, right: Group)
      returns (left': Group, right': Group)
      requires VisibilityValid() && ScoringValid() && CapacitiesPositive(config)
      requires frameIdx < |frames| && frameIdx < numDevices && Scorable(m, frames[frameIdx].hands)
      requires ValidGroup(m, left) && ValidGroup(m, right)
      modifies this`handConfidenceHistoriesLeft, this`handConfidenceHistoriesRight
      modifies this`confidencesJointRot, this`confidencesJointPalmRot
      modifies this`jointConfidenceHistoriesLeft, this`jointConfidenceHistoriesRight, this`jointConfidences
      ensures ScoringValid()
      ensures CollectedNow(left', right')
           == ScoredHands(config, old(CollectedNow(left, right)), old(CurrentRecords()), old(confidencesJointOcclusion),
                          numDevices, frameIdx, frames[frameIdx].hands, |frames[frameIdx].hands|, now, deltaTimeFromTick, m)
    {
      var hands := frames[frameIdx].hands;
      ghost var start, r, occlusion := CollectedNow(left, right), CurrentRecords(), confidencesJointOcclusion;
      left', right' := left, right;
      for handIdx := 0 to |hands|
        invariant ScoringValid() && r == CurrentRecords() && occlusion == confidencesJointOcclusion
        invariant CollectedNow(left', right')
               == ScoredHands(config, start, r, occlusion, numDevices, frameIdx, hands, handIdx, now, deltaTimeFromTick, m)
      {
        left', right' := CollectHand(frameIdx, hands, handIdx, now, deltaTimeFromTick, m, left', right', start, r, occlusion);
      }
    }

    /** Iteration frameIdx of MergeFrames' frame loop: record the frame's
        visibility and positions, then score and collect its hands, so that
        the first frameIdx + 1 frames are done as TickUpTo does them from
        `start` with the occlusion rows. */
    method MergeFrame(frames: seq<Frame>, frameIdx: nat, now: real, deltaTimeFromTick: real, m: Maths,
                      left: Group, right: Group, ghost start: TickState, ghost occlusion: seq<seq<real>>)
      returns (left': Group, right': Group)
      requires Valid() && frameIdx < |frames| && occlusion == confidencesJointOcclusion
      requires TickInputs(config, occlusion, numDevices, frames, m) && TickStateValid(start, numDevices, m)
      requires TickStateNow(left, right)
            == TickUpTo(config, start, occlusion, numDevices, frames, frameIdx, now, deltaTimeFromTick, m)
      modifies this`leftHandFirstVisible, this`rightHandFirstVisible, this`lastLeftHandPositions, this`lastRightHandPositions
      modifies this`handConfidenceHistoriesLeft, this`handConfidenceHistoriesRight
      modifies this`confidencesJointRot, this`confidencesJointPalmRot
      modifies this`jointConfidenceHistoriesLeft, this`jointConfidenceHistoriesRight, this`jointConfidences
      ensures Valid()
      ensures TickStateNow(left', right')
           == TickUpTo(config, start, occlusion, numDevices, frames, frameIdx + 1, now, deltaTimeFromTick, m)
    {
      ghost var before := TickStateNow(left, right);
      AddFrameToTimeVisibleDicts(frames, frameIdx, now);
      ghost var recorded := CurrentRecords();
      TickStepParts(config, start, occlusion, numDevices, frames, frameIdx, now, deltaTimeFromTick, m, before, recorded);
      left', right' := CollectHands(frames, frameIdx, now, deltaTimeFromTick, m, left, right);
      assert CurrentRecords() == recorded;
    }

    /** The frame loop of MergeFrames: every frame's records are updated and
        its hands are scored and collected, frame after frame, as TickUpTo
        does. */
    method CollectFrames(frames: seq<Frame>, now: real, deltaTimeFromTick: real, m: Maths)
      returns (left: Group, right: Group)
      requires Valid() && TickInputs(config, confidencesJointOcclusion, numDevices, frames, m)
      modifies this`leftHandFirstVisible, this`rightHandFirstVisible, this`lastLeftHandPositions, this`lastRightHandPositions
      modifies this`handConfidenceHistoriesLeft, this`handConfidenceHistoriesRight
      modifies this`confidencesJointRot, this`confidencesJointPalmRot
      modifies this`jointConfidenceHistoriesLeft, this`jointConfidenceHistoriesRight, this`jointConfidences
      ensures Valid()
      ensures TickStateNow(left, right)
           == TickUpTo(config, old(TickStateNow(Group([], [], []), Group([], [], []))), old(confidencesJointOcclusion),
                       numDevices, frames, |frames|, now, deltaTimeFromTick, m)
    {
      ghost var start, occlusion := TickStateNow(Group([], [], []), Group([], [], [])), confidencesJointOcclusion;
      left := Group([], [], []);
      right := Group([], [], []);
      for frameIdx := 0 to |frames|
        invariant Valid()
        invariant occlusion == confidencesJointOcclusion
        invariant TickStateNow(left, right)
               == TickUpTo(config, start, occlusion, numDevices, frames, frameIdx, now, deltaTimeFromTick, m)
      {
        left, right := MergeFrame(frames, frameIdx, now, deltaTimeFromTick, m, left, right, start, occlusion);
      }
    }

    /** MergeFrames, one fusion tick over one frame per device: update each
        device's visibility and position records, collect each side's hands
        with their hand and joint confidences in frame and hand order, then
        normalise and merge each side. The new state and the collected groups
        are those of TickUpTo; the groups are returned as ghosts so that the
        contract can name them. The occlusion rows are not written. */
    method MergeFrames(frames: seq<Frame>, now: real, deltaTimeFromTick: real, m: Maths)
      returns (combined: MergedFrame, ghost left: Group, ghost right: Group)
      requires Valid() && TickInputs(config, confidencesJointOcclusion, numDevices, frames, m)
      modifies this`leftHandFirstVisible, this`rightHandFirstVisible, this`lastLeftHandPositions, this`lastRightHandPositions
      modifies this`handConfidenceHistoriesLeft, this`handConfidenceHistoriesRight
      modifies this`confidencesJointRot, this`confidencesJointPalmRot
      modifies this`jointConfidenceHistoriesLeft, this`jointConfidenceHistoriesRight, this`jointConfidences
      ensures Valid()
      ensures TickStateNow(left, right)
           == TickUpTo(config, old(TickStateNow(Group([], [], []), Group([], [], []))), old(confidencesJointOcclusion),
                       numDevices, frames, |frames|, now, deltaTimeFromTick, m)
      ensures combined == MergedFrameOf(m, left, right)
      ensures confidencesJointOcclusion == old(confidencesJointOcclusion)
      ensures ScoresBounded(config, m) && 0.0 <= now && old(TimesNotAfter(CurrentRecords(), now) && ConfidencesWithin())
              ==> TimesNotAfter(CurrentRecords(), now) && ConfidencesWithin() && UnitGroup(left) && UnitGroup(right)
    {
      ghost var start := TickStateNow(Group([], [], []), Group([], [], []));
      if ScoresBounded(config, m) && 0.0 <= now && TimesNotAfter(start.records, now) && ConfidencesWithin() {
        TickUpToWithin(config, start, confidencesJointOcclusion, numDevices, frames, |frames|, now, deltaTimeFromTick, m);
      }
      var leftGroup, rightGroup := CollectFrames(frames, now, deltaTimeFromTick, m);
      left, right := leftGroup, rightGroup;
      combined := MergeGroups(leftGroup, rightGroup, m);
    }
  }
}
