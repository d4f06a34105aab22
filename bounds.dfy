/** Every confidence a tick stores or collects lies in [0, 1], provided the
    engine maths are sound, both weight triples are convex and the
    positional Gaussian score never exceeds 1: the raw hand score, the
    hand and joint histories, the per-hand joint rows, and the weights the
    groups carry into the merge. */
module Bounds {
  import opened Tracking
  import opened EngineMaths
  import opened Histories
  import opened Confidence
  import opened Merge
  import opened Tick

  /** Every entry of a row lies in [0, 1]. */
  ghost predicate UnitRow(row: seq<real>)
  {
    forall j :: 0 <= j < |row| ==> 0.0 <= row[j] <= 1.0
  }

  /** Every entry of every row lies in [0, 1]. */
  ghost predicate UnitRows(rows: seq<seq<real>>)
  {
    forall i :: 0 <= i < |rows| ==> UnitRow(rows[i])
  }

  /** Every entry of every hand confidence history lies in [0, 1]. */
  ghost predicate UnitHandLogs(logs: SideLogs<real>)
  {
    (forall d :: d in logs.left ==> UnitRow(logs.left[d])) && (forall d :: d in logs.right ==> UnitRow(logs.right[d]))
  }

  /** Every entry of every joint confidence history lies in [0, 1]. */
  ghost predicate UnitJointLogs(logs: SideLogs<seq<real>>)
  {
    (forall d :: d in logs.left ==> UnitRows(logs.left[d])) && (forall d :: d in logs.right ==> UnitRows(logs.right[d]))
  }

  ghost predicate UnitJointRows(s: JointRows)
  {
    UnitJointLogs(s.logs) && UnitRows(s.jointConfidences) && UnitRows(s.rot) && UnitRows(s.palmRot)
  }

  /** The weights a group carries into the merge lie in [0, 1]. */
  ghost predicate UnitGroup(g: Group)
  {
    UnitRow(g.confidences) && UnitRows(g.jointConfidences)
  }

  ghost predicate UnitCollected(c: Collected)
  {
    UnitHandLogs(c.hands) && UnitJointRows(c.joints) && UnitGroup(c.left) && UnitGroup(c.right)
  }

  /** The conditions under which the scorers stay in [0, 1]: sound engine
      maths, convex palm and joint weights, and a positional Gaussian score
      of at most 1 everywhere. */
  ghost predicate ScoresBounded(cfg: Config, m: Maths)
  {
    && Sound(m)
    && Convex3(cfg.palmPosFactor, cfg.palmRotFactor, cfg.palmVelocityFactor)
    && Convex3(cfg.jointRotFactor, cfg.jointRotToPalmFactor, cfg.jointOcclusionFactor)
    && (forall d, p :: m.handPositionGauss(d, p) <= 1.0)
  }

  /** CalculateHandConfidence keeps the hand histories in [0, 1] and returns
      a confidence in [0, 1]. */
  lemma ScoredHandWithin(cfg: Config, logs: SideLogs<real>, r: Records, d: nat, hand: Hand, now: real,
                         deltaTimeFromTick: real, m: Maths)
    requires HasLog(logs, d) && HasDevice(r, d) && cfg.handHistoryCapacity > 0
    requires ScoresBounded(cfg, m) && TimesNotAfter(r, now) && UnitHandLogs(logs)
    ensures UnitHandLogs(ScoredHand(cfg, logs, r, d, hand, now, deltaTimeFromTick, m).logs)
    ensures 0.0 <= ScoredHand(cfg, logs, r, d, hand, now, deltaTimeFromTick, m).confidence <= 1.0
  {
    RawHandConfidenceWithin(cfg, r, d, hand, now, deltaTimeFromTick, m);
    var h := ScoredHand(cfg, logs, r, d, hand, now, deltaTimeFromTick, m);
    AveragedWithin(LogOf(h.logs, d, IsLeft(hand)), cfg.handHistoryCapacity, 0.0, 1.0);
  }

  /** A rescored joint-rotation row stays in [0, 1]. */
  lemma JointRowsRescoredWithin(cfg: Config, s: JointRows, n: nat, d: nat, hand: Hand, m: Maths)
    requires JointRowsValid(s, n) && d < n && WellFormedHand(hand) && Sound(m) && UnitJointRows(s)
    ensures UnitRows(s.rot[RowIndex(d, hand) := JointRotRow(s.rot[RowIndex(d, hand)], m.sourceDeviceOrigin(d), hand, m)])
    ensures UnitRows(s.palmRot[RowIndex(d, hand) := JointPalmRotRow(s.palmRot[RowIndex(d, hand)], hand, m)])
  {
  }

  lemma UnitRowsUpdate(rows: seq<seq<real>>, i: nat, row: seq<real>)
    requires UnitRows(rows) && i < |rows| && UnitRow(row)
    ensures UnitRows(rows[i := row])
  {
  }

  lemma UnitRowsAppend(rows: seq<seq<real>>, row: seq<real>)
    requires UnitRows(rows) && UnitRow(row)
    ensures UnitRows(rows + [row])
  {
    assert forall i :: 0 <= i < |rows| ==> (rows + [row])[i] == rows[i];
  }

  /** Appending a row in [0, 1] to a joint history keeps every joint
      history in [0, 1]. */
  lemma UnitJointLogsPushed(logs: SideLogs<seq<real>>, d: nat, left: bool, row: seq<real>)
    requires HasLog(logs, d) && UnitJointLogs(logs) && UnitRow(row)
    ensures UnitJointLogs(Pushed(logs, d, left, row))
  {
    UnitRowsAppend(LogOf(logs, d, left), row);
  }

  /** With convex joint weights, the combined confidences of rows in [0, 1]
      lie in [0, 1]. */
  lemma CombinedJointConfidencesWithin(cfg: Config, rot: seq<real>, palm: seq<real>, occlusion: seq<real>)
    requires Convex3(cfg.jointRotFactor, cfg.jointRotToPalmFactor, cfg.jointOcclusionFactor)
    requires |rot| >= NumJointPositions && |palm| >= NumJointPositions && |occlusion| >= NumJointPositions
    requires UnitRow(rot) && UnitRow(palm) && UnitRow(occlusion)
    ensures UnitRow(CombinedJointConfidences(cfg, rot, palm, occlusion))
  {
    forall k | 0 <= k < NumJointPositions
      ensures 0.0 <= CombinedJointConfidences(cfg, rot, palm, occlusion)[k] <= 1.0
    {
      CombinedJointWithin(cfg, rot, palm, occlusion, k);
    }
  }

  /** The mean of a joint history in [0, 1] lies in [0, 1]. */
  lemma AveragedVectorUnit(log: seq<seq<real>>, capacity: nat)
    requires capacity > 0 && |log| > 0 && JointLog(log) && UnitRows(log)
    ensures UnitRow(AveragedVector(log, capacity, NumJointPositions))
  {
    AveragedVectorWithin(log, capacity, NumJointPositions, 0.0, 1.0);
  }

  /** CalculateJointConfidence keeps the joint histories and rows in [0, 1]
      and returns joint confidences in [0, 1]. */
  lemma ScoredJointsWithin(cfg: Config, s: JointRows, occlusion: seq<seq<real>>, n: nat, d: nat, hand: Hand,
                           m: Maths)
    requires JointRowsValid(s, n) && Rows(occlusion, 2 * n) && d < n && WellFormedHand(hand)
    requires cfg.jointHistoryCapacity > 0
    requires ScoresBounded(cfg, m) && UnitJointRows(s) && UnitRows(occlusion)
    ensures UnitJointRows(ScoredJoints(cfg, s, occlusion, n, d, hand, m).rows)
    ensures UnitRow(ScoredJoints(cfg, s, occlusion, n, d, hand, m).confidences)
  {
    var idx := RowIndex(d, hand);
    JointRowsRescoredWithin(cfg, s, n, d, hand, m);
    var rot := if cfg.jointRotFactor != 0.0 then s.rot[idx := JointRotRow(s.rot[idx], m.sourceDeviceOrigin(d), hand, m)]
               else s.rot;
    var palmRot := if cfg.jointRotToPalmFactor != 0.0 then s.palmRot[idx := JointPalmRotRow(s.palmRot[idx], hand, m)]
                   else s.palmRot;
    var combined := CombinedJointConfidences(cfg, rot[idx], palmRot[idx], occlusion[idx]);
    CombinedJointConfidencesWithin(cfg, rot[idx], palmRot[idx], occlusion[idx]);
    SmoothedWithin(combined, 0.0, 1.0);
    var smoothed := Smoothed(combined);
    var logs := Pushed(s.logs, d, IsLeft(hand), smoothed);
    UnitJointLogsPushed(s.logs, d, IsLeft(hand), smoothed);
    var ret := AveragedVector(LogOf(logs, d, IsLeft(hand)), cfg.jointHistoryCapacity, NumJointPositions);
    AveragedVectorUnit(LogOf(logs, d, IsLeft(hand)), cfg.jointHistoryCapacity);
    UnitRowsUpdate(s.jointConfidences, idx, ret);
  }

  /** A hand appended with weights in [0, 1] keeps a group's weights in
      [0, 1]. */
  lemma WithHandWithin(g: Group, hand: Hand, c: real, jc: seq<real>)
    requires UnitGroup(g) && 0.0 <= c <= 1.0 && UnitRow(jc)
    ensures UnitGroup(WithHand(g, hand, c, jc))
  {
    UnitRowsAppend(g.jointConfidences, jc);
  }

  /** The last of the first k passes of the hand loop keeps the histories,
      the rows and the groups' weights in [0, 1]. */
  lemma ScoredPassWithin(cfg: Config, c: Collected, r: Records, occlusion: seq<seq<real>>, n: nat, d: nat,
                         hands: seq<Hand>, k: nat, now: real, deltaTimeFromTick: real, m: Maths)
    requires CollectedValid(c, n, m) && HasDevice(r, d) && Rows(occlusion, 2 * n) && d < n
    requires Scorable(m, hands) && 0 < k <= |hands| && CapacitiesPositive(cfg)
    requires ScoresBounded(cfg, m) && TimesNotAfter(r, now) && UnitRows(occlusion)
    requires UnitCollected(ScoredHands(cfg, c, r, occlusion, n, d, hands, k - 1, now, deltaTimeFromTick, m))
    ensures UnitCollected(ScoredHands(cfg, c, r, occlusion, n, d, hands, k, now, deltaTimeFromTick, m))
  {
    var before := ScoredHands(cfg, c, r, occlusion, n, d, hands, k - 1, now, deltaTimeFromTick, m);
    var h := HandPass(cfg, c, r, occlusion, n, d, hands, k - 1, now, deltaTimeFromTick, m);
    var j := JointPass(cfg, c, r, occlusion, n, d, hands, k - 1, now, deltaTimeFromTick, m);
    ScoredPassShape(cfg, c, r, occlusion, n, d, hands, k, now, deltaTimeFromTick, m, before, h, j);
    ScoredHandWithin(cfg, before.hands, r, d, hands[k - 1], now, deltaTimeFromTick, m);
    ScoredJointsWithin(cfg, before.joints, occlusion, n, d, hands[k - 1], m);
    WithHandWithin(before.left, hands[k - 1], h.confidence, j.confidences);
    WithHandWithin(before.right, hands[k - 1], h.confidence, j.confidences);
  }

  /** The hand loop keeps the histories, the rows and the groups' weights in
      [0, 1]. */
  lemma {:induction false} ScoredHandsWithin(cfg: Config, c: Collected, r: Records, occlusion: seq<seq<real>>,
                                             n: nat, d: nat, hands: seq<Hand>, k: nat, now: real,
                                             deltaTimeFromTick: real, m: Maths)
    requires CollectedValid(c, n, m) && HasDevice(r, d) && Rows(occlusion, 2 * n) && d < n
    requires Scorable(m, hands) && k <= |hands| && CapacitiesPositive(cfg)
    requires ScoresBounded(cfg, m) && TimesNotAfter(r, now) && UnitCollected(c) && UnitRows(occlusion)
    ensures UnitCollected(ScoredHands(cfg, c, r, occlusion, n, d, hands, k, now, deltaTimeFromTick, m))
    decreases k
  {
    if k > 0 {
      ScoredHandsWithin(cfg, c, r, occlusion, n, d, hands, k - 1, now, deltaTimeFromTick, m);
      ScoredPassWithin(cfg, c, r, occlusion, n, d, hands, k, now, deltaTimeFromTick, m);
    }
  }

  /** Recording one device's frame and scoring its hands keeps the records
      at or before `now` and every stored and collected confidence in
      [0, 1]. */
  lemma FrameWithin(cfg: Config, c: Collected, r: Records, occlusion: seq<seq<real>>, n: nat, d: nat, frame: Frame,
                    now: real, deltaTimeFromTick: real, m: Maths, records: Records, after: Collected)
    requires CollectedValid(c, n, m) && HasDevice(r, d) && Rows(occlusion, 2 * n) && d < n
    requires Scorable(m, frame.hands) && CapacitiesPositive(cfg)
    requires ScoresBounded(cfg, m) && 0.0 <= now && TimesNotAfter(r, now) && UnitCollected(c) && UnitRows(occlusion)
    requires records == RecordFrame(r, d, frame, now)
    requires after == ScoredHands(cfg, c, records, occlusion, n, d, frame.hands, |frame.hands|, now, deltaTimeFromTick, m)
    ensures TimesNotAfter(records, now) && UnitCollected(after)
  {
    RecordFrameTimesNotAfter(r, d, frame, now, now);
    ScoredHandsWithin(cfg, c, records, occlusion, n, d, frame.hands, |frame.hands|, now, deltaTimeFromTick, m);
  }

  /** The last of the first k iterations of the frame loop keeps the records
      at or before `now` and every stored and collected confidence in
      [0, 1]. */
  lemma TickStepWithin(cfg: Config, start: TickState, occlusion: seq<seq<real>>, n: nat, frames: seq<Frame>,
                       k: nat, now: real, deltaTimeFromTick: real, m: Maths, before: TickState, after: TickState)
    requires TickStateValid(start, n, m) && TickInputs(cfg, occlusion, n, frames, m) && 0 < k <= |frames|
    requires ScoresBounded(cfg, m) && 0.0 <= now && UnitRows(occlusion)
    requires before == TickUpTo(cfg, start, occlusion, n, frames, k - 1, now, deltaTimeFromTick, m)
    requires after == TickUpTo(cfg, start, occlusion, n, frames, k, now, deltaTimeFromTick, m)
    requires TimesNotAfter(before.records, now) && UnitCollected(before.collected)
    ensures TimesNotAfter(after.records, now) && UnitCollected(after.collected)
  {
    TickStepShape(cfg, start, occlusion, n, frames, k, now, deltaTimeFromTick, m, before, after);
    FrameWithin(cfg, before.collected, before.records, occlusion, n, k - 1, frames[k - 1], now, deltaTimeFromTick, m,
                after.records, after.collected);
  }

  /** A tick, with a clock that has not gone back past any recorded time,
      records no time after `now` and keeps every stored and collected
      confidence in [0, 1]. */
  lemma {:induction false} TickUpToWithin(cfg: Config, start: TickState, occlusion: seq<seq<real>>, n: nat,
                                          frames: seq<Frame>, k: nat, now: real, deltaTimeFromTick: real, m: Maths)
    requires TickStateValid(start, n, m) && TickInputs(cfg, occlusion, n, frames, m) && k <= |frames|
    requires ScoresBounded(cfg, m) && 0.0 <= now && TimesNotAfter(start.records, now)
    requires UnitCollected(start.collected) && UnitRows(occlusion)
    ensures TimesNotAfter(TickUpTo(cfg, start, occlusion, n, frames, k, now, deltaTimeFromTick, m).records, now)
    ensures UnitCollected(TickUpTo(cfg, start, occlusion, n, frames, k, now, deltaTimeFromTick, m).collected)
    decreases k
  {
    if k > 0 {
      TickUpToWithin(cfg, start, occlusion, n, frames, k - 1, now, deltaTimeFromTick, m);
      TickStepWithin(cfg, start, occlusion, n, frames, k, now, deltaTimeFromTick, m,
                     TickUpTo(cfg, start, occlusion, n, frames, k - 1, now, deltaTimeFromTick, m),
                     TickUpTo(cfg, start, occlusion, n, frames, k, now, deltaTimeFromTick, m));
    }
  }
}
