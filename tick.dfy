/** The state a fusion tick carries from frame to frame and from tick to
    tick, as values, and what one tick does to it: the visibility rules and
    position records, the hand and joint confidence histories, the joint
    rows, and the scoring of every hand in frame and hand order. The class in
    module Fusion is proved to follow these functions. */
module Tick {
  import opened Sums
  import opened Geometry
  import opened Tracking
  import opened EngineMaths
  import opened Histories
  import opened Confidence
  import opened Merge

  // ---------------------------------------------------------------- visibility

  /** A side's first-visible time after one frame: 0 when no hand of that
      side is present; the current time when one is present and the stored
      value is 0; the stored value otherwise. */
  function FirstVisibleAfter(stored: real, present: bool, now: real): real
  {
    if !present then 0.0 else if stored == 0.0 then now else stored
  }

  /** One observation of a side in one tick: whether it was present, and the
      time of that tick. */
  datatype Observation = Observation(present: bool, time: real)

  /** The first-visible time after a run of ticks, starting from 0. */
  function FirstVisibleAfterTicks(obs: seq<Observation>): real
    decreases |obs|
  {
    if |obs| == 0 then 0.0
    else
      var last := obs[|obs| - 1];
      FirstVisibleAfter(FirstVisibleAfterTicks(obs[..|obs| - 1]), last.present, last.time)
  }

  /** Tick times are positive, as a clock reading in seconds is. */
  predicate PositiveTimes(obs: seq<Observation>)
  {
    forall k :: 0 <= k < |obs| ==> obs[k].time > 0.0
  }

  /** A side absent in the last tick has first-visible time 0. */
  lemma FirstVisibleWhenAbsent(obs: seq<Observation>)
    requires |obs| > 0 && !obs[|obs| - 1].present
    ensures FirstVisibleAfterTicks(obs) == 0.0
  {
  }

  /** A side present in the last tick has, as first-visible time, the time of
      the tick where its current run of presence began. */
  lemma {:induction false} FirstVisibleIsRunStart(obs: seq<Observation>, s: nat)
    requires PositiveTimes(obs)
    requires s < |obs|
    requires forall k :: s <= k < |obs| ==> obs[k].present
    requires s == 0 || !obs[s - 1].present
    ensures FirstVisibleAfterTicks(obs) == obs[s].time
    decreases |obs|
  {
    var prefix := obs[..|obs| - 1];
    if s == |obs| - 1 {
      if s > 0 {
        FirstVisibleWhenAbsent(prefix);
      }
    } else {
      assert PositiveTimes(prefix);
      FirstVisibleIsRunStart(prefix, s);
    }
  }

  /** The position samples recorded for a list of hands at one time. */
  function Samples(hands: seq<Hand>, now: real): (r: seq<PositionSample>)
    ensures |r| == |hands|
  {
    seq(|hands|, i requires 0 <= i < |hands| => PositionSample(hands[i].palm.position, now))
  }

  lemma SamplesSnoc(hands: seq<Hand>, h: Hand, now: real)
    ensures Samples(hands + [h], now) == Samples(hands, now) + [PositionSample(h.palm.position, now)]
  {
  }

  /** Every hand of a frame adds exactly one position sample, to the left
      history if it is a left hand and to the right history otherwise. */
  lemma SamplesPerHand(hands: seq<Hand>, now: real)
    ensures |Samples(OfSide(hands, true), now)| + |Samples(OfSide(hands, false), now)| == |hands|
  {
    OfSidePartition(hands);
  }

  /** One more hand adds its sample to its own side's samples only. */
  lemma SideStep(hands: seq<Hand>, i: nat, left: bool, now: real)
    requires i < |hands|
    ensures |OfSide(hands[..i + 1], left)| > 0 <==> |OfSide(hands[..i], left)| > 0 || IsLeft(hands[i]) == left
    ensures Samples(OfSide(hands[..i + 1], left), now)
         == Samples(OfSide(hands[..i], left), now)
            + (if IsLeft(hands[i]) == left then [PositionSample(hands[i].palm.position, now)] else [])
  {
    assert hands[..i + 1][..i] == hands[..i];
    if IsLeft(hands[i]) == left {
      SamplesSnoc(OfSide(hands[..i], left), hands[i], now);
    } else {
      assert OfSide(hands[..i + 1], left) == OfSide(hands[..i], left);
    }
  }

  /** The row of the per-hand joint arrays used for a hand seen by a device:
      two rows per device, left then right. */
  function RowIndex(frameIdx: nat, hand: Hand): nat
  {
    frameIdx * 2 + (if IsLeft(hand) then 0 else 1)
  }

  /** The per-device visibility and position records: first-visible
      times and position histories, left and right. */
  datatype Records = Records(leftFirstVisible: map<nat, real>, rightFirstVisible: map<nat, real>,
                             leftPositions: map<nat, seq<PositionSample>>,
                             rightPositions: map<nat, seq<PositionSample>>)

  predicate HasDevice(r: Records, d: nat)
  {
    d in r.leftFirstVisible && d in r.rightFirstVisible && d in r.leftPositions && d in r.rightPositions
  }

  /** Device d's records went from `before` to `after` in a tick in which it
      delivered `frame`. */
  predicate Recorded(d: nat, frame: Frame, now: real, before: Records, after: Records)
  {
    && HasDevice(before, d) && HasDevice(after, d)
    && after.leftFirstVisible[d] == FirstVisibleAfter(before.leftFirstVisible[d], |OfSide(frame.hands, true)| > 0, now)
    && after.rightFirstVisible[d] == FirstVisibleAfter(before.rightFirstVisible[d], |OfSide(frame.hands, false)| > 0, now)
    && after.leftPositions[d] == before.leftPositions[d] + Samples(OfSide(frame.hands, true), now)
    && after.rightPositions[d] == before.rightPositions[d] + Samples(OfSide(frame.hands, false), now)
  }

  /** Device d's records are the same in `before` and `after`, or it is in
      neither. */
  predicate Untouched(d: nat, before: Records, after: Records)
  {
    && (d in before.leftFirstVisible <==> d in after.leftFirstVisible)
    && (d in before.rightFirstVisible <==> d in after.rightFirstVisible)
    && (d in before.leftPositions <==> d in after.leftPositions)
    && (d in before.rightPositions <==> d in after.rightPositions)
    && (d in before.leftFirstVisible ==> after.leftFirstVisible[d] == before.leftFirstVisible[d])
    && (d in before.rightFirstVisible ==> after.rightFirstVisible[d] == before.rightFirstVisible[d])
    && (d in before.leftPositions ==> after.leftPositions[d] == before.leftPositions[d])
    && (d in before.rightPositions ==> after.rightPositions[d] == before.rightPositions[d])
  }

  lemma RecordedThenUntouched(d: nat, frame: Frame, now: real, r0: Records, r1: Records, r2: Records)
    requires Recorded(d, frame, now, r0, r1) && Untouched(d, r1, r2)
    ensures Recorded(d, frame, now, r0, r2)
  {
  }

  lemma UntouchedThenRecorded(d: nat, frame: Frame, now: real, r0: Records, r1: Records, r2: Records)
    requires Untouched(d, r0, r1) && Recorded(d, frame, now, r1, r2)
    ensures Recorded(d, frame, now, r0, r2)
  {
  }

  /** The records after device d delivered `frame` at `now`: both sides'
      first-visible times and position histories of d are advanced, every
      other device's are kept. */
  function RecordFrame(r: Records, d: nat, frame: Frame, now: real): Records
    requires HasDevice(r, d)
  {
    Records(r.leftFirstVisible[d := FirstVisibleAfter(r.leftFirstVisible[d], |OfSide(frame.hands, true)| > 0, now)],
            r.rightFirstVisible[d := FirstVisibleAfter(r.rightFirstVisible[d], |OfSide(frame.hands, false)| > 0, now)],
            r.leftPositions[d := r.leftPositions[d] + Samples(OfSide(frame.hands, true), now)],
            r.rightPositions[d := r.rightPositions[d] + Samples(OfSide(frame.hands, false), now)])
  }

  /** Recording a frame records its device and touches no other. */
  lemma RecordFrameRecords(r: Records, d: nat, frame: Frame, now: real)
    requires HasDevice(r, d)
    ensures Recorded(d, frame, now, r, RecordFrame(r, d, frame, now))
    ensures forall e: nat :: e != d ==> Untouched(e, r, RecordFrame(r, d, frame, now))
  {
  }

  /** After the first k frames of `frames` are recorded: devices before k
      were recorded once each since `start`, the others are untouched. */
  ghost predicate RecordedUpTo(frames: seq<Frame>, k: nat, now: real, start: Records, current: Records)
  {
    && (forall d: nat :: d < k && d < |frames| ==> Recorded(d, frames[d], now, start, current))
    && (forall d: nat :: k <= d ==> Untouched(d, start, current))
  }

  /** Recording frame k - 1 on top of the first k - 1 frames records the
      first k. */
  lemma RecordedUpToStep(frames: seq<Frame>, k: nat, now: real, start: Records, before: Records)
    requires 0 < k <= |frames| && RecordedUpTo(frames, k - 1, now, start, before) && HasDevice(before, k - 1)
    ensures RecordedUpTo(frames, k, now, start, RecordFrame(before, k - 1, frames[k - 1], now))
  {
    var after := RecordFrame(before, k - 1, frames[k - 1], now);
    RecordFrameRecords(before, k - 1, frames[k - 1], now);
    forall d: nat | d < k
      ensures Recorded(d, frames[d], now, start, after)
    {
      if d < k - 1 {
        RecordedThenUntouched(d, frames[d], now, start, before, after);
      } else {
        UntouchedThenRecorded(d, frames[d], now, start, before, after);
      }
    }
    forall d: nat | k <= d
      ensures Untouched(d, start, after)
    {
      assert Untouched(d, start, before) && Untouched(d, before, after);
    }
  }

  /** A per-device map has an entry for each of the n devices and no other. */
  ghost predicate Covers<V>(m: map<nat, V>, n: nat)
  {
    forall d: nat :: d in m <==> d < n
  }

  lemma CoversUpdate<V>(m: map<nat, V>, n: nat, d: nat, v: V)
    requires Covers(m, n) && d < n
    ensures Covers(m[d := v], n)
  {
  }

  predicate JointLog(log: seq<seq<real>>)
  {
    forall i :: 0 <= i < |log| ==> |log[i]| == NumJointPositions
  }

  predicate Rows(rows: seq<seq<real>>, n: nat)
  {
    |rows| == n && forall i :: 0 <= i < |rows| ==> |rows[i]| == NumJointPositions
  }

  /** One predicate for the four per-device record maps. */
  ghost predicate RecordsCover(r: Records, n: nat)
  {
    && Covers(r.leftFirstVisible, n) && Covers(r.rightFirstVisible, n)
    && Covers(r.leftPositions, n) && Covers(r.rightPositions, n)
  }

  /** No recorded time lies after `now`. */
  ghost predicate TimesNotAfter(r: Records, now: real)
  {
    && (forall d: nat :: d in r.leftFirstVisible ==> r.leftFirstVisible[d] <= now)
    && (forall d: nat :: d in r.rightFirstVisible ==> r.rightFirstVisible[d] <= now)
    && (forall d, i :: d in r.leftPositions && 0 <= i < |r.leftPositions[d]| ==> r.leftPositions[d][i].time <= now)
    && (forall d, i :: d in r.rightPositions && 0 <= i < |r.rightPositions[d]| ==> r.rightPositions[d][i].time <= now)
  }

  /** Recording a frame at a time `now` no earlier than every recorded time
      (and not before 0) leaves no recorded time after `now`. */
  lemma RecordFrameTimesNotAfter(r: Records, d: nat, frame: Frame, t: real, now: real)
    requires HasDevice(r, d) && TimesNotAfter(r, t) && t <= now && 0.0 <= now
    ensures TimesNotAfter(RecordFrame(r, d, frame, now), now)
  {
    var r' := RecordFrame(r, d, frame, now);
    forall e, i | e in r'.leftPositions && 0 <= i < |r'.leftPositions[e]|
      ensures r'.leftPositions[e][i].time <= now
    {
      if e == d && i >= |r.leftPositions[d]| {
        assert r'.leftPositions[e][i] == Samples(OfSide(frame.hands, true), now)[i - |r.leftPositions[d]|];
      }
    }
    forall e, i | e in r'.rightPositions && 0 <= i < |r'.rightPositions[e]|
      ensures r'.rightPositions[e][i].time <= now
    {
      if e == d && i >= |r.rightPositions[d]| {
        assert r'.rightPositions[e][i] == Samples(OfSide(frame.hands, false), now)[i - |r.rightPositions[d]|];
      }
    }
  }

  /** Two records that agree on device d. */
  predicate SameAt(r1: Records, r2: Records, d: nat)
    requires HasDevice(r1, d) && HasDevice(r2, d)
  {
    && r1.leftFirstVisible[d] == r2.leftFirstVisible[d] && r1.rightFirstVisible[d] == r2.rightFirstVisible[d]
    && r1.leftPositions[d] == r2.leftPositions[d] && r1.rightPositions[d] == r2.rightPositions[d]
  }

  // ---------------------------------------------------------------- histories and rows

  /** The per-(device, side) histories of one kind: the log of everything
      added to each, left and right. */
  datatype SideLogs<T> = SideLogs(left: map<nat, seq<T>>, right: map<nat, seq<T>>)

  predicate HasLog<T>(logs: SideLogs<T>, d: nat)
  {
    d in logs.left && d in logs.right
  }

  ghost predicate LogsCover<T>(logs: SideLogs<T>, n: nat)
  {
    Covers(logs.left, n) && Covers(logs.right, n)
  }

  /** The history of device d's hands of one side. */
  function LogOf<T>(logs: SideLogs<T>, d: nat, left: bool): seq<T>
    requires HasLog(logs, d)
  {
    if left then logs.left[d] else logs.right[d]
  }

  /** Adding x to the history of (d, left): that history gains x at its end,
      every other history and every key set stay as they were. */
  function Pushed<T>(logs: SideLogs<T>, d: nat, left: bool, x: T): (r: SideLogs<T>)
    requires HasLog(logs, d)
    ensures r.left.Keys == logs.left.Keys && r.right.Keys == logs.right.Keys
    ensures LogOf(r, d, left) == LogOf(logs, d, left) + [x]
    ensures forall e, side :: HasLog(logs, e) && (e != d || side != left) ==> LogOf(r, e, side) == LogOf(logs, e, side)
  {
    if left then SideLogs(logs.left[d := logs.left[d] + [x]], logs.right)
    else SideLogs(logs.left, logs.right[d := logs.right[d] + [x]])
  }

  /** Every recorded joint vector has 25 entries. */
  ghost predicate JointLogsValid(logs: SideLogs<seq<real>>)
  {
    (forall d :: d in logs.left ==> JointLog(logs.left[d])) && (forall d :: d in logs.right ==> JointLog(logs.right[d]))
  }

  /** What scoring a hand's joints changes: the joint confidence histories,
      the stored joint confidences and the two joint-rotation rows of every
      (device, side). */
  datatype JointRows = JointRows(logs: SideLogs<seq<real>>, jointConfidences: seq<seq<real>>,
                                 rot: seq<seq<real>>, palmRot: seq<seq<real>>)

  ghost predicate JointRowsValid(s: JointRows, n: nat)
  {
    && LogsCover(s.logs, n) && JointLogsValid(s.logs)
    && Rows(s.jointConfidences, 2 * n) && Rows(s.rot, 2 * n) && Rows(s.palmRot, 2 * n)
  }

  /** Every history must keep at least one entry. */
  predicate CapacitiesPositive(cfg: Config)
  {
    cfg.positionHistoryCapacity > 0 && cfg.handHistoryCapacity > 0 && cfg.jointHistoryCapacity > 0
  }

  // ---------------------------------------------------------------- scoring one hand

  /** The raw confidence CalculateHandConfidence computes for a hand seen by
      device d, against the records as they stand, before it is pushed into
      the history. */
  function RawHandConfidence(cfg: Config, r: Records, d: nat, hand: Hand, now: real,
                             deltaTimeFromTick: real, m: Maths): real
    requires HasDevice(r, d)
  {
    var origin := m.sourceDeviceOrigin(d);
    var pos := ConfidenceRelativeHandPos(m, d, hand.palm.position);
    var rot := ConfidenceRelativeHandRot(m, origin, hand.palm.position, hand.palm.normal);
    var positions := if IsLeft(hand) then r.leftPositions[d] else r.rightPositions[d];
    var velocity := ConfidenceRelativeHandVelocity(Oldest(positions, cfg.positionHistoryCapacity),
                                                   hand.palm.position, now, deltaTimeFromTick, m);
    var firstVisible := if IsLeft(hand) then r.leftFirstVisible[d] else r.rightFirstVisible[d];
    HandScore(cfg, pos, rot, velocity, ConfidenceTimeSinceHandFirstVisible(firstVisible, now))
  }

  /** The raw confidence reads only the records of its own device. */
  lemma RawHandConfidenceLocal(cfg: Config, r1: Records, r2: Records, d: nat, hand: Hand, now: real,
                               deltaTimeFromTick: real, m: Maths)
    requires HasDevice(r1, d) && HasDevice(r2, d) && SameAt(r1, r2, d)
    ensures RawHandConfidence(cfg, r1, d, hand, now, deltaTimeFromTick, m)
         == RawHandConfidence(cfg, r2, d, hand, now, deltaTimeFromTick, m)
  {
  }

  /** With convex palm weights, sound engine maths and no recorded time after
      `now`, the raw hand confidence lies in [0, 1], provided the Gaussian
      score at the palm does not exceed 1. */
  lemma RawHandConfidenceWithin(cfg: Config, r: Records, d: nat, hand: Hand, now: real,
                                deltaTimeFromTick: real, m: Maths)
    requires HasDevice(r, d) && Sound(m) && TimesNotAfter(r, now)
    requires Convex3(cfg.palmPosFactor, cfg.palmRotFactor, cfg.palmVelocityFactor)
    requires m.handPositionGauss(d, hand.palm.position) <= 1.0
    ensures 0.0 <= RawHandConfidence(cfg, r, d, hand, now, deltaTimeFromTick, m) <= 1.0
  {
    var origin := m.sourceDeviceOrigin(d);
    var positions := if IsLeft(hand) then r.leftPositions[d] else r.rightPositions[d];
    var oldest := Oldest(positions, cfg.positionHistoryCapacity);
    if oldest.Some? {
      var w := Retained(positions, cfg.positionHistoryCapacity);
      assert oldest.value == positions[|positions| - |w|];
    }
    VelocityScoreBounds(oldest, hand.palm.position, hand.palm.position, now, deltaTimeFromTick, m);
    var firstVisible := if IsLeft(hand) then r.leftFirstVisible[d] else r.rightFirstVisible[d];
    HandScoreWithin(cfg, ConfidenceRelativeHandPos(m, d, hand.palm.position),
                    ConfidenceRelativeHandRot(m, origin, hand.palm.position, hand.palm.normal),
                    ConfidenceRelativeHandVelocity(oldest, hand.palm.position, now, deltaTimeFromTick, m),
                    ConfidenceTimeSinceHandFirstVisible(firstVisible, now));
  }

  /** The hand histories after CalculateHandConfidence, and its result. */
  datatype HandScored = HandScored(logs: SideLogs<real>, confidence: real)

  /** CalculateHandConfidence on values: the raw confidence is appended to the
      hand's (device, side) history, and the confidence is the mean of that
      history's retained window. */
  function ScoredHand(cfg: Config, logs: SideLogs<real>, r: Records, d: nat, hand: Hand, now: real,
                      deltaTimeFromTick: real, m: Maths): (h: HandScored)
    requires HasLog(logs, d) && HasDevice(r, d) && cfg.handHistoryCapacity > 0
  {
    var logs' := Pushed(logs, d, IsLeft(hand), RawHandConfidence(cfg, r, d, hand, now, deltaTimeFromTick, m));
    HandScored(logs', Averaged(LogOf(logs', d, IsLeft(hand)), cfg.handHistoryCapacity))
  }

  /** The joint state after CalculateJointConfidence, and its result. */
  datatype JointsScored = JointsScored(rows: JointRows, confidences: seq<real>)

  /** CalculateJointConfidence on values: the hand's joint-rotation rows are
      rescored where their weight is non-zero; the combined confidences of
      the rescored rows and the occlusion row are finger-smoothed; the
      smoothed row is appended to the (device, side) joint history; the
      hand's stored row and the result are that history's entry-by-entry
      mean. */
  function ScoredJoints(cfg: Config, s: JointRows, occlusion: seq<seq<real>>, n: nat, d: nat, hand: Hand,
                        m: Maths): (j: JointsScored)
    requires JointRowsValid(s, n) && Rows(occlusion, 2 * n) && d < n && WellFormedHand(hand)
    requires cfg.jointHistoryCapacity > 0
    ensures JointRowsValid(j.rows, n) && |j.confidences| == NumJointPositions
  {
    var idx := RowIndex(d, hand);
    var origin := m.sourceDeviceOrigin(d);
    var rot := if cfg.jointRotFactor != 0.0 then s.rot[idx := JointRotRow(s.rot[idx], origin, hand, m)] else s.rot;
    var palmRot := if cfg.jointRotToPalmFactor != 0.0 then s.palmRot[idx := JointPalmRotRow(s.palmRot[idx], hand, m)]
                   else s.palmRot;
    var smoothed := Smoothed(CombinedJointConfidences(cfg, rot[idx], palmRot[idx], occlusion[idx]));
    var logs := Pushed(s.logs, d, IsLeft(hand), smoothed);
    var ret := AveragedVector(LogOf(logs, d, IsLeft(hand)), cfg.jointHistoryCapacity, NumJointPositions);
    JointsScored(JointRows(logs, s.jointConfidences[idx := ret], rot, palmRot), ret)
  }

  // ---------------------------------------------------------------- scoring a frame's hands

  /** What the hand loop of MergeFrames has built up: the hand histories, the
      joint state, and the two groups. */
  datatype Collected = Collected(hands: SideLogs<real>, joints: JointRows, left: Group, right: Group)

  ghost predicate CollectedValid(c: Collected, n: nat, m: Maths)
  {
    LogsCover(c.hands, n) && JointRowsValid(c.joints, n) && ValidGroup(m, c.left) && ValidGroup(m, c.right)
  }

  /** The hands of a frame that the frame loop may score. */
  predicate Scorable(m: Maths, hands: seq<Hand>)
  {
    forall i :: 0 <= i < |hands| ==> WellFormedHand(hands[i]) && |m.localLinearJoints(hands[i])| == NumJointPositions
  }

  /** The hand loop of MergeFrames over the first k of a frame's hands, in
      order, starting from c. */
  function ScoredHands(cfg: Config, c: Collected, r: Records, occlusion: seq<seq<real>>, n: nat, d: nat,
                       hands: seq<Hand>, k: nat, now: real, deltaTimeFromTick: real, m: Maths): (c': Collected)
    requires CollectedValid(c, n, m) && HasDevice(r, d) && Rows(occlusion, 2 * n) && d < n
    requires Scorable(m, hands) && k <= |hands| && CapacitiesPositive(cfg)
    ensures CollectedValid(c', n, m)
    decreases k, 0
  {
    if k == 0 then c else ScoredPass(cfg, c, r, occlusion, n, d, hands, k - 1, now, deltaTimeFromTick, m)
  }

  /** Pass k of the hand loop: after the passes before it, hand k's
      confidence, then its joint confidences, and the hand with both
      appended to the group of its side. */
  function ScoredPass(cfg: Config, c: Collected, r: Records, occlusion: seq<seq<real>>, n: nat, d: nat,
                      hands: seq<Hand>, k: nat, now: real, deltaTimeFromTick: real, m: Maths): (c': Collected)
    requires CollectedValid(c, n, m) && HasDevice(r, d) && Rows(occlusion, 2 * n) && d < n
    requires Scorable(m, hands) && k < |hands| && CapacitiesPositive(cfg)
    ensures CollectedValid(c', n, m)
    decreases k, 2
  {
    var before := ScoredHands(cfg, c, r, occlusion, n, d, hands, k, now, deltaTimeFromTick, m);
    var hand := hands[k];
    var h := HandPass(cfg, c, r, occlusion, n, d, hands, k, now, deltaTimeFromTick, m);
    var j := JointPass(cfg, c, r, occlusion, n, d, hands, k, now, deltaTimeFromTick, m);
    WithHandValid(m, before.left, hand, h.confidence, j.confidences);
    WithHandValid(m, before.right, hand, h.confidence, j.confidences);
    Collected(h.logs, j.rows,
              if IsLeft(hand) then WithHand(before.left, hand, h.confidence, j.confidences) else before.left,
              if IsLeft(hand) then before.right else WithHand(before.right, hand, h.confidence, j.confidences))
  }

  /** The hand confidence of pass k, against the hand histories the passes
      before it left. */
  function HandPass(cfg: Config, c: Collected, r: Records, occlusion: seq<seq<real>>, n: nat, d: nat,
                    hands: seq<Hand>, k: nat, now: real, deltaTimeFromTick: real, m: Maths): (h: HandScored)
    requires CollectedValid(c, n, m) && HasDevice(r, d) && Rows(occlusion, 2 * n) && d < n
    requires Scorable(m, hands) && k < |hands| && CapacitiesPositive(cfg)
    ensures LogsCover(h.logs, n)
    decreases k, 1
  {
    var before := ScoredHands(cfg, c, r, occlusion, n, d, hands, k, now, deltaTimeFromTick, m);
    ScoredHand(cfg, before.hands, r, d, hands[k], now, deltaTimeFromTick, m)
  }

  /** The joint confidences of pass k, against the joint state the passes
      before it left. */
  function JointPass(cfg: Config, c: Collected, r: Records, occlusion: seq<seq<real>>, n: nat, d: nat,
                     hands: seq<Hand>, k: nat, now: real, deltaTimeFromTick: real, m: Maths): (j: JointsScored)
    requires CollectedValid(c, n, m) && HasDevice(r, d) && Rows(occlusion, 2 * n) && d < n
    requires Scorable(m, hands) && k < |hands| && CapacitiesPositive(cfg)
    ensures JointRowsValid(j.rows, n) && |j.confidences| == NumJointPositions
    decreases k, 1
  {
    var before := ScoredHands(cfg, c, r, occlusion, n, d, hands, k, now, deltaTimeFromTick, m);
    ScoredJoints(cfg, before.joints, occlusion, n, d, hands[k], m)
  }

  /** What the last of the first k passes of the hand loop appends, in terms
      of the state before it and the pass's hand and joint scores. */
  lemma ScoredPassShape(cfg: Config, c: Collected, r: Records, occlusion: seq<seq<real>>, n: nat, d: nat,
                        hands: seq<Hand>, k: nat, now: real, deltaTimeFromTick: real, m: Maths,
                        before: Collected, h: HandScored, j: JointsScored)
    requires CollectedValid(c, n, m) && HasDevice(r, d) && Rows(occlusion, 2 * n) && d < n
    requires Scorable(m, hands) && 0 < k <= |hands| && CapacitiesPositive(cfg)
    requires before == ScoredHands(cfg, c, r, occlusion, n, d, hands, k - 1, now, deltaTimeFromTick, m)
    requires h == HandPass(cfg, c, r, occlusion, n, d, hands, k - 1, now, deltaTimeFromTick, m)
    requires j == JointPass(cfg, c, r, occlusion, n, d, hands, k - 1, now, deltaTimeFromTick, m)
    ensures ScoredHands(cfg, c, r, occlusion, n, d, hands, k, now, deltaTimeFromTick, m)
         == Collected(h.logs, j.rows,
                      if IsLeft(hands[k - 1]) then WithHand(before.left, hands[k - 1], h.confidence, j.confidences)
                      else before.left,
                      if IsLeft(hands[k - 1]) then before.right
                      else WithHand(before.right, hands[k - 1], h.confidence, j.confidences))
  {
  }

  /** Pass k of the hand loop, given the state before it, the hand's scored
      histories and confidence, and its scored joint state and confidences. */
  lemma ScoredPassParts(cfg: Config, c: Collected, r: Records, occlusion: seq<seq<real>>, n: nat, d: nat,
                        hands: seq<Hand>, k: nat, now: real, deltaTimeFromTick: real, m: Maths,
                        before: Collected, h: HandScored, j: JointsScored)
    requires CollectedValid(c, n, m) && HasDevice(r, d) && Rows(occlusion, 2 * n) && d < n
    requires Scorable(m, hands) && k < |hands| && CapacitiesPositive(cfg)
    requires before == ScoredHands(cfg, c, r, occlusion, n, d, hands, k, now, deltaTimeFromTick, m)
    requires h == ScoredHand(cfg, before.hands, r, d, hands[k], now, deltaTimeFromTick, m)
    requires j == ScoredJoints(cfg, before.joints, occlusion, n, d, hands[k], m)
    ensures ScoredHands(cfg, c, r, occlusion, n, d, hands, k + 1, now, deltaTimeFromTick, m)
         == Collected(h.logs, j.rows,
                      if IsLeft(hands[k]) then WithHand(before.left, hands[k], h.confidence, j.confidences) else before.left,
                      if IsLeft(hands[k]) then before.right else WithHand(before.right, hands[k], h.confidence, j.confidences))
  {
    assert HandPass(cfg, c, r, occlusion, n, d, hands, k, now, deltaTimeFromTick, m) == h;
    assert JointPass(cfg, c, r, occlusion, n, d, hands, k, now, deltaTimeFromTick, m) == j;
  }

  // ---------------------------------------------------------------- one tick

  /** Everything a tick changes: the records and what the hand loop builds. */
  datatype TickState = TickState(records: Records, collected: Collected)

  ghost predicate TickStateValid(st: TickState, n: nat, m: Maths)
  {
    RecordsCover(st.records, n) && CollectedValid(st.collected, n, m)
  }

  /** The preconditions of a tick over `frames` with n devices. */
  ghost predicate TickInputs(cfg: Config, occlusion: seq<seq<real>>, n: nat, frames: seq<Frame>, m: Maths)
  {
    && Rows(occlusion, 2 * n) && |frames| <= n && WellFormedFrames(frames) && CapacitiesPositive(cfg)
    && (forall h :: |m.localLinearJoints(h)| == NumJointPositions)
  }

  /** The state after the first k frames of a tick. */
  function TickUpTo(cfg: Config, start: TickState, occlusion: seq<seq<real>>, n: nat, frames: seq<Frame>, k: nat,
                    now: real, deltaTimeFromTick: real, m: Maths): (st: TickState)
    requires TickStateValid(start, n, m) && TickInputs(cfg, occlusion, n, frames, m) && k <= |frames|
    ensures TickStateValid(st, n, m)
    decreases k, 0
  {
    if k == 0 then start else TickStep(cfg, start, occlusion, n, frames, k - 1, now, deltaTimeFromTick, m)
  }

  /** Iteration d of the frame loop, after the iterations before it: device
      d records its frame, then the frame's hands are scored against the
      records just made. */
  function TickStep(cfg: Config, start: TickState, occlusion: seq<seq<real>>, n: nat, frames: seq<Frame>, d: nat,
                    now: real, deltaTimeFromTick: real, m: Maths): (st': TickState)
    requires TickStateValid(start, n, m) && TickInputs(cfg, occlusion, n, frames, m) && d < |frames|
    ensures TickStateValid(st', n, m)
    decreases d, 2
  {
    var st := TickUpTo(cfg, start, occlusion, n, frames, d, now, deltaTimeFromTick, m);
    var records := RecordedAt(cfg, start, occlusion, n, frames, d, now, deltaTimeFromTick, m);
    TickState(records, ScoredHands(cfg, st.collected, records, occlusion, n, d, frames[d].hands, |frames[d].hands|,
                                   now, deltaTimeFromTick, m))
  }

  /** The records after iteration d of the frame loop has recorded its
      frame. */
  function RecordedAt(cfg: Config, start: TickState, occlusion: seq<seq<real>>, n: nat, frames: seq<Frame>, d: nat,
                      now: real, deltaTimeFromTick: real, m: Maths): (r: Records)
    requires TickStateValid(start, n, m) && TickInputs(cfg, occlusion, n, frames, m) && d < |frames|
    ensures RecordsCover(r, n)
    decreases d, 1
  {
    RecordFrame(TickUpTo(cfg, start, occlusion, n, frames, d, now, deltaTimeFromTick, m).records, d, frames[d], now)
  }

  /** What the last of the first k iterations of the frame loop makes of the
      state before it: device k - 1 records its frame, then the frame's
      hands are scored against those records. */
  lemma TickStepShape(cfg: Config, start: TickState, occlusion: seq<seq<real>>, n: nat, frames: seq<Frame>, k: nat,
                      now: real, deltaTimeFromTick: real, m: Maths, before: TickState, after: TickState)
    requires TickStateValid(start, n, m) && TickInputs(cfg, occlusion, n, frames, m) && 0 < k <= |frames|
    requires before == TickUpTo(cfg, start, occlusion, n, frames, k - 1, now, deltaTimeFromTick, m)
    requires after == TickUpTo(cfg, start, occlusion, n, frames, k, now, deltaTimeFromTick, m)
    ensures RecordsCover(after.records, n) && Scorable(m, frames[k - 1].hands)
    ensures after.records == RecordFrame(before.records, k - 1, frames[k - 1], now)
    ensures after.collected
         == ScoredHands(cfg, before.collected, after.records, occlusion, n, k - 1, frames[k - 1].hands,
                        |frames[k - 1].hands|, now, deltaTimeFromTick, m)
  {
    assert after == TickStep(cfg, start, occlusion, n, frames, k - 1, now, deltaTimeFromTick, m);
  }

  /** Iteration d of the frame loop, given the state before it and the
      records after its frame is recorded. */
  lemma TickStepParts(cfg: Config, start: TickState, occlusion: seq<seq<real>>, n: nat, frames: seq<Frame>, d: nat,
                      now: real, deltaTimeFromTick: real, m: Maths, before: TickState, records: Records)
    requires TickStateValid(start, n, m) && TickInputs(cfg, occlusion, n, frames, m) && d < |frames|
    requires before == TickUpTo(cfg, start, occlusion, n, frames, d, now, deltaTimeFromTick, m)
    requires records == RecordFrame(before.records, d, frames[d], now)
    ensures RecordsCover(records, n) && Scorable(m, frames[d].hands)
    ensures TickUpTo(cfg, start, occlusion, n, frames, d + 1, now, deltaTimeFromTick, m)
         == TickState(records, ScoredHands(cfg, before.collected, records, occlusion, n, d, frames[d].hands,
                                           |frames[d].hands|, now, deltaTimeFromTick, m))
  {
    assert RecordedAt(cfg, start, occlusion, n, frames, d, now, deltaTimeFromTick, m) == records;
  }
}
