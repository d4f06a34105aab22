/** What one fusion tick, as Tick defines it, does to the groups, the
    records and the histories: each side's group collects that side's hands
    of all frames in frame and hand order; each device with a frame is
    recorded once and every other device is untouched; each hand adds
    exactly one entry to its own (device, side) hand and joint histories;
    and the confidences a hand joins its group with are the means of those
    histories just after its own scores were appended. */
module TickFacts {
  import opened EngineMaths
  import opened Histories
  import opened Confidence
  import opened Tracking
  import opened Merge
  import opened Tick

  /** The group a side's hands are collected into. */
  function GroupOf(c: Collected, left: bool): Group
  {
    if left then c.left else c.right
  }

  // ---------------------------------------------------------------- one hand

  /** Scoring a hand adds one entry to the hand history of its own
      (device, side) and to no other; the confidence is the mean of that
      history's retained window. */
  lemma ScoredHandLogs(cfg: Config, logs: SideLogs<real>, r: Records, d: nat, hand: Hand, now: real,
                       deltaTimeFromTick: real, m: Maths, h: HandScored)
    requires HasLog(logs, d) && HasDevice(r, d) && cfg.handHistoryCapacity > 0
    requires h == ScoredHand(cfg, logs, r, d, hand, now, deltaTimeFromTick, m)
    ensures forall e: nat :: HasLog(logs, e) ==> HasLog(h.logs, e)
    ensures forall e: nat, side: bool :: HasLog(logs, e) ==>
              |LogOf(h.logs, e, side)| == |LogOf(logs, e, side)| + (if e == d && side == IsLeft(hand) then 1 else 0)
    ensures h.confidence == Averaged(LogOf(h.logs, d, IsLeft(hand)), cfg.handHistoryCapacity)
  {
    forall e: nat, side: bool | HasLog(logs, e)
      ensures HasLog(h.logs, e)
      ensures |LogOf(h.logs, e, side)| == |LogOf(logs, e, side)| + (if e == d && side == IsLeft(hand) then 1 else 0)
    {
      assert e in logs.left.Keys && e in logs.right.Keys;
    }
  }

  /** Scoring a hand's joints adds one entry to the joint history of its own
      (device, side) and to no other; the result is the entry-by-entry mean
      of that history's retained window, and is stored as the hand's row. */
  lemma ScoredJointsLogs(cfg: Config, s: JointRows, occlusion: seq<seq<real>>, n: nat, d: nat, hand: Hand, m: Maths,
                         j: JointsScored)
    requires JointRowsValid(s, n) && Rows(occlusion, 2 * n) && d < n && WellFormedHand(hand)
    requires cfg.jointHistoryCapacity > 0
    requires j == ScoredJoints(cfg, s, occlusion, n, d, hand, m)
    ensures forall e: nat :: HasLog(s.logs, e) ==> HasLog(j.rows.logs, e)
    ensures forall e: nat, side: bool :: HasLog(s.logs, e) ==>
              |LogOf(j.rows.logs, e, side)| == |LogOf(s.logs, e, side)| + (if e == d && side == IsLeft(hand) then 1 else 0)
    ensures j.confidences == AveragedVector(LogOf(j.rows.logs, d, IsLeft(hand)), cfg.jointHistoryCapacity, NumJointPositions)
    ensures j.rows.jointConfidences[RowIndex(d, hand)] == j.confidences
  {
    forall e: nat, side: bool | HasLog(s.logs, e)
      ensures HasLog(j.rows.logs, e)
      ensures |LogOf(j.rows.logs, e, side)| == |LogOf(s.logs, e, side)| + (if e == d && side == IsLeft(hand) then 1 else 0)
    {
      assert e in s.logs.left.Keys && e in s.logs.right.Keys;
    }
  }

  /** A side's hands among the first k are those among the first k - 1,
      and hand k - 1 when it is of that side. */
  lemma OfSidePrefixStep(hands: seq<Hand>, k: nat, left: bool)
    requires 0 < k <= |hands|
    ensures OfSide(hands[..k], left)
         == OfSide(hands[..k - 1], left) + (if IsLeft(hands[k - 1]) == left then [hands[k - 1]] else [])
  {
    assert hands[..k][..k - 1] == hands[..k - 1];
  }

  // ---------------------------------------------------------------- one frame's hands

  /** The last of the first k passes of the hand loop appends hand k - 1 to
      the group of its side and leaves the other group's hands as they
      were. */
  lemma ScoredPassGroup(cfg: Config, c: Collected, r: Records, occlusion: seq<seq<real>>, n: nat, d: nat,
                        hands: seq<Hand>, k: nat, now: real, deltaTimeFromTick: real, m: Maths, left: bool)
    requires CollectedValid(c, n, m) && HasDevice(r, d) && Rows(occlusion, 2 * n) && d < n
    requires Scorable(m, hands) && 0 < k <= |hands| && CapacitiesPositive(cfg)
    ensures GroupOf(ScoredHands(cfg, c, r, occlusion, n, d, hands, k, now, deltaTimeFromTick, m), left).hands
         == GroupOf(ScoredHands(cfg, c, r, occlusion, n, d, hands, k - 1, now, deltaTimeFromTick, m), left).hands
            + (if IsLeft(hands[k - 1]) == left then [hands[k - 1]] else [])
  {
    var before := ScoredHands(cfg, c, r, occlusion, n, d, hands, k - 1, now, deltaTimeFromTick, m);
    var h := HandPass(cfg, c, r, occlusion, n, d, hands, k - 1, now, deltaTimeFromTick, m);
    var j := JointPass(cfg, c, r, occlusion, n, d, hands, k - 1, now, deltaTimeFromTick, m);
    ScoredPassShape(cfg, c, r, occlusion, n, d, hands, k, now, deltaTimeFromTick, m, before, h, j);
  }

  /** The last of the first k passes of the hand loop adds one entry to the
      hand and joint histories of hand k - 1's (device, side) and to no
      other. */
  lemma ScoredPassLogs(cfg: Config, c: Collected, r: Records, occlusion: seq<seq<real>>, n: nat, d: nat,
                       hands: seq<Hand>, k: nat, now: real, deltaTimeFromTick: real, m: Maths)
    requires CollectedValid(c, n, m) && HasDevice(r, d) && Rows(occlusion, 2 * n) && d < n
    requires Scorable(m, hands) && 0 < k <= |hands| && CapacitiesPositive(cfg)
    ensures forall e: nat, side: bool :: e < n ==>
              |LogOf(ScoredHands(cfg, c, r, occlusion, n, d, hands, k, now, deltaTimeFromTick, m).hands, e, side)|
              == |LogOf(ScoredHands(cfg, c, r, occlusion, n, d, hands, k - 1, now, deltaTimeFromTick, m).hands, e, side)|
                 + (if e == d && side == IsLeft(hands[k - 1]) then 1 else 0)
    ensures forall e: nat, side: bool :: e < n ==>
              |LogOf(ScoredHands(cfg, c, r, occlusion, n, d, hands, k, now, deltaTimeFromTick, m).joints.logs, e, side)|
              == |LogOf(ScoredHands(cfg, c, r, occlusion, n, d, hands, k - 1, now, deltaTimeFromTick, m).joints.logs, e, side)|
                 + (if e == d && side == IsLeft(hands[k - 1]) then 1 else 0)
  {
    var before := ScoredHands(cfg, c, r, occlusion, n, d, hands, k - 1, now, deltaTimeFromTick, m);
    var h := HandPass(cfg, c, r, occlusion, n, d, hands, k - 1, now, deltaTimeFromTick, m);
    var j := JointPass(cfg, c, r, occlusion, n, d, hands, k - 1, now, deltaTimeFromTick, m);
    ScoredPassShape(cfg, c, r, occlusion, n, d, hands, k, now, deltaTimeFromTick, m, before, h, j);
    ScoredHandLogs(cfg, before.hands, r, d, hands[k - 1], now, deltaTimeFromTick, m, h);
    ScoredJointsLogs(cfg, before.joints, occlusion, n, d, hands[k - 1], m, j);
  }

  /** After the first k passes of the hand loop, hand k - 1 is the last of
      its side's group, which it joined with the mean of its (device, side)
      hand history after its raw confidence was appended, and with the
      entry-by-entry mean of its joint history, which is also its stored
      joint row. */
  lemma ScoredPassLatest(cfg: Config, c: Collected, r: Records, occlusion: seq<seq<real>>, n: nat, d: nat,
                         hands: seq<Hand>, k: nat, now: real, deltaTimeFromTick: real, m: Maths)
    requires CollectedValid(c, n, m) && HasDevice(r, d) && Rows(occlusion, 2 * n) && d < n
    requires Scorable(m, hands) && 0 < k <= |hands| && CapacitiesPositive(cfg)
    ensures var after := ScoredHands(cfg, c, r, occlusion, n, d, hands, k, now, deltaTimeFromTick, m);
            var side := IsLeft(hands[k - 1]);
            var g := if side then after.left else after.right;
            && |g.hands| > 0 && g.hands[|g.hands| - 1] == hands[k - 1]
            && |g.confidences| == |g.jointConfidences| == |g.hands|
            && HasLog(after.hands, d) && HasLog(after.joints.logs, d)
            && |LogOf(after.hands, d, side)| > 0 && |LogOf(after.joints.logs, d, side)| > 0
            && JointLog(LogOf(after.joints.logs, d, side))
            && g.confidences[|g.hands| - 1] == Averaged(LogOf(after.hands, d, side), cfg.handHistoryCapacity)
            && g.jointConfidences[|g.hands| - 1]
               == AveragedVector(LogOf(after.joints.logs, d, side), cfg.jointHistoryCapacity, NumJointPositions)
            && g.jointConfidences[|g.hands| - 1] == after.joints.jointConfidences[RowIndex(d, hands[k - 1])]
  {
    var before := ScoredHands(cfg, c, r, occlusion, n, d, hands, k - 1, now, deltaTimeFromTick, m);
    var h := HandPass(cfg, c, r, occlusion, n, d, hands, k - 1, now, deltaTimeFromTick, m);
    var j := JointPass(cfg, c, r, occlusion, n, d, hands, k - 1, now, deltaTimeFromTick, m);
    ScoredPassShape(cfg, c, r, occlusion, n, d, hands, k, now, deltaTimeFromTick, m, before, h, j);
    ScoredHandLogs(cfg, before.hands, r, d, hands[k - 1], now, deltaTimeFromTick, m, h);
    ScoredJointsLogs(cfg, before.joints, occlusion, n, d, hands[k - 1], m, j);
  }

  /** The hand loop over the first k hands appends to each side's group that
      side's hands among them, in order. */
  lemma {:induction false} ScoredHandsGroups(cfg: Config, c: Collected, r: Records, occlusion: seq<seq<real>>,
                                             n: nat, d: nat, hands: seq<Hand>, k: nat, now: real,
                                             deltaTimeFromTick: real, m: Maths, left: bool)
    requires CollectedValid(c, n, m) && HasDevice(r, d) && Rows(occlusion, 2 * n) && d < n
    requires Scorable(m, hands) && k <= |hands| && CapacitiesPositive(cfg)
    ensures GroupOf(ScoredHands(cfg, c, r, occlusion, n, d, hands, k, now, deltaTimeFromTick, m), left).hands
         == GroupOf(c, left).hands + OfSide(hands[..k], left)
    decreases k
  {
    if k == 0 {
      assert hands[..0] == [];
    } else {
      ScoredHandsGroups(cfg, c, r, occlusion, n, d, hands, k - 1, now, deltaTimeFromTick, m, left);
      ScoredPassGroup(cfg, c, r, occlusion, n, d, hands, k, now, deltaTimeFromTick, m, left);
      OfSidePrefixStep(hands, k, left);
    }
  }

  /** The hand loop over the first k hands adds, to the hand and joint
      histories of each (device, side), one entry per hand of that side among
      them when the device is the frame's, and none otherwise. */
  lemma {:induction false} ScoredHandsLogs(cfg: Config, c: Collected, r: Records, occlusion: seq<seq<real>>,
                                           n: nat, d: nat, hands: seq<Hand>, k: nat, now: real,
                                           deltaTimeFromTick: real, m: Maths)
    requires CollectedValid(c, n, m) && HasDevice(r, d) && Rows(occlusion, 2 * n) && d < n
    requires Scorable(m, hands) && k <= |hands| && CapacitiesPositive(cfg)
    ensures forall e: nat, side: bool :: e < n ==>
              |LogOf(ScoredHands(cfg, c, r, occlusion, n, d, hands, k, now, deltaTimeFromTick, m).hands, e, side)|
              == |LogOf(c.hands, e, side)| + (if e == d then |OfSide(hands[..k], side)| else 0)
    ensures forall e: nat, side: bool :: e < n ==>
              |LogOf(ScoredHands(cfg, c, r, occlusion, n, d, hands, k, now, deltaTimeFromTick, m).joints.logs, e, side)|
              == |LogOf(c.joints.logs, e, side)| + (if e == d then |OfSide(hands[..k], side)| else 0)
    decreases k
  {
    if k == 0 {
      assert hands[..0] == [];
    } else {
      ScoredHandsLogs(cfg, c, r, occlusion, n, d, hands, k - 1, now, deltaTimeFromTick, m);
      ScoredPassLogs(cfg, c, r, occlusion, n, d, hands, k, now, deltaTimeFromTick, m);
      OfSidePrefixStep(hands, k, true);
      OfSidePrefixStep(hands, k, false);
    }
  }

  // ---------------------------------------------------------------- the frame loop

  /** The last of the first k iterations of the frame loop records device
      k - 1 against its own frame and touches no other device. */
  lemma TickStepRecords(cfg: Config, start: TickState, occlusion: seq<seq<real>>, n: nat, frames: seq<Frame>,
                        k: nat, now: real, deltaTimeFromTick: real, m: Maths)
    requires TickStateValid(start, n, m) && TickInputs(cfg, occlusion, n, frames, m) && 0 < k <= |frames|
    requires RecordedUpTo(frames, k - 1, now, start.records,
                          TickUpTo(cfg, start, occlusion, n, frames, k - 1, now, deltaTimeFromTick, m).records)
    ensures RecordedUpTo(frames, k, now, start.records,
                         TickUpTo(cfg, start, occlusion, n, frames, k, now, deltaTimeFromTick, m).records)
  {
    var before := TickUpTo(cfg, start, occlusion, n, frames, k - 1, now, deltaTimeFromTick, m);
    var after := TickUpTo(cfg, start, occlusion, n, frames, k, now, deltaTimeFromTick, m);
    TickStepShape(cfg, start, occlusion, n, frames, k, now, deltaTimeFromTick, m, before, after);
    RecordedUpToStep(frames, k, now, start.records, before.records);
  }

  /** After the first k frames, each device before k has been recorded once,
      against its own frame, and every later device is untouched. */
  lemma {:induction false} TickUpToRecords(cfg: Config, start: TickState, occlusion: seq<seq<real>>, n: nat,
                                           frames: seq<Frame>, k: nat, now: real, deltaTimeFromTick: real,
                                           m: Maths)
    requires TickStateValid(start, n, m) && TickInputs(cfg, occlusion, n, frames, m) && k <= |frames|
    ensures RecordedUpTo(frames, k, now, start.records,
                         TickUpTo(cfg, start, occlusion, n, frames, k, now, deltaTimeFromTick, m).records)
    decreases k
  {
    if k > 0 {
      TickUpToRecords(cfg, start, occlusion, n, frames, k - 1, now, deltaTimeFromTick, m);
      TickStepRecords(cfg, start, occlusion, n, frames, k, now, deltaTimeFromTick, m);
    }
  }

  /** The last of the first k iterations of the frame loop appends a side's
      hands of frame k - 1 to that side's group. */
  lemma TickStepGroups(cfg: Config, start: TickState, occlusion: seq<seq<real>>, n: nat, frames: seq<Frame>,
                       k: nat, now: real, deltaTimeFromTick: real, m: Maths, left: bool,
                       before: TickState, after: TickState)
    requires TickStateValid(start, n, m) && TickInputs(cfg, occlusion, n, frames, m) && 0 < k <= |frames|
    requires before == TickUpTo(cfg, start, occlusion, n, frames, k - 1, now, deltaTimeFromTick, m)
    requires after == TickUpTo(cfg, start, occlusion, n, frames, k, now, deltaTimeFromTick, m)
    ensures GroupOf(after.collected, left).hands
         == GroupOf(before.collected, left).hands + OfSide(frames[k - 1].hands, left)
  {
    var hands := frames[k - 1].hands;
    TickStepShape(cfg, start, occlusion, n, frames, k, now, deltaTimeFromTick, m, before, after);
    ScoredHandsGroups(cfg, before.collected, after.records, occlusion, n, k - 1, hands, |hands|, now, deltaTimeFromTick, m,
                      left);
    assert hands[..|hands|] == hands;
  }

  /** After the first k frames, a side's group holds that side's hands of
      those frames, frame after frame and in hand order within a frame. */
  lemma {:induction false} TickUpToGroups(cfg: Config, start: TickState, occlusion: seq<seq<real>>, n: nat,
                                          frames: seq<Frame>, k: nat, now: real, deltaTimeFromTick: real,
                                          m: Maths, left: bool, st: TickState)
    requires TickStateValid(start, n, m) && TickInputs(cfg, occlusion, n, frames, m) && k <= |frames|
    requires st == TickUpTo(cfg, start, occlusion, n, frames, k, now, deltaTimeFromTick, m)
    ensures GroupOf(st.collected, left).hands == GroupOf(start.collected, left).hands + OfSide(AllHands(frames[..k]), left)
    decreases k
  {
    if k == 0 {
      assert frames[..0] == [];
    } else {
      var prev := TickUpTo(cfg, start, occlusion, n, frames, k - 1, now, deltaTimeFromTick, m);
      var prior := OfSide(AllHands(frames[..k - 1]), left);
      var latest := OfSide(frames[k - 1].hands, left);
      TickUpToGroups(cfg, start, occlusion, n, frames, k - 1, now, deltaTimeFromTick, m, left, prev);
      TickStepGroups(cfg, start, occlusion, n, frames, k, now, deltaTimeFromTick, m, left, prev, st);
      assert OfSide(AllHands(frames[..k]), left) == prior + latest by {
        assert frames[..k][..k - 1] == frames[..k - 1];
        assert AllHands(frames[..k]) == AllHands(frames[..k - 1]) + frames[k - 1].hands;
        OfSideConcat(AllHands(frames[..k - 1]), frames[k - 1].hands, left);
      }
    }
  }

  /** The last of the first k iterations of the frame loop adds to the hand
      and joint histories of each of device k - 1's sides one entry per hand
      of that side in its frame, and nothing to any other device's. */
  lemma TickStepLogs(cfg: Config, start: TickState, occlusion: seq<seq<real>>, n: nat, frames: seq<Frame>,
                     k: nat, now: real, deltaTimeFromTick: real, m: Maths)
    requires TickStateValid(start, n, m) && TickInputs(cfg, occlusion, n, frames, m) && 0 < k <= |frames|
    ensures forall e: nat, side: bool :: e < n ==>
              |LogOf(TickUpTo(cfg, start, occlusion, n, frames, k, now, deltaTimeFromTick, m).collected.hands, e, side)|
              == |LogOf(TickUpTo(cfg, start, occlusion, n, frames, k - 1, now, deltaTimeFromTick, m).collected.hands, e, side)|
                 + (if e == k - 1 then |OfSide(frames[k - 1].hands, side)| else 0)
    ensures forall e: nat, side: bool :: e < n ==>
              |LogOf(TickUpTo(cfg, start, occlusion, n, frames, k, now, deltaTimeFromTick, m).collected.joints.logs, e, side)|
              == |LogOf(TickUpTo(cfg, start, occlusion, n, frames, k - 1, now, deltaTimeFromTick, m).collected.joints.logs, e, side)|
                 + (if e == k - 1 then |OfSide(frames[k - 1].hands, side)| else 0)
  {
    var before := TickUpTo(cfg, start, occlusion, n, frames, k - 1, now, deltaTimeFromTick, m);
    var after := TickUpTo(cfg, start, occlusion, n, frames, k, now, deltaTimeFromTick, m);
    var hands := frames[k - 1].hands;
    TickStepShape(cfg, start, occlusion, n, frames, k, now, deltaTimeFromTick, m, before, after);
    ScoredHandsLogs(cfg, before.collected, after.records, occlusion, n, k - 1, hands, |hands|, now, deltaTimeFromTick, m);
    assert hands[..|hands|] == hands;
  }

  /** After the first k frames, the hand and joint histories of each
      (device, side) have grown by one entry per hand of that side in the
      device's frame when the device is before k, and not at all otherwise. */
  lemma {:induction false} TickUpToLogs(cfg: Config, start: TickState, occlusion: seq<seq<real>>, n: nat,
                                        frames: seq<Frame>, k: nat, now: real, deltaTimeFromTick: real, m: Maths)
    requires TickStateValid(start, n, m) && TickInputs(cfg, occlusion, n, frames, m) && k <= |frames|
    ensures forall e: nat, side: bool :: e < n ==>
              |LogOf(TickUpTo(cfg, start, occlusion, n, frames, k, now, deltaTimeFromTick, m).collected.hands, e, side)|
              == |LogOf(start.collected.hands, e, side)| + (if e < k then |OfSide(frames[e].hands, side)| else 0)
    ensures forall e: nat, side: bool :: e < n ==>
              |LogOf(TickUpTo(cfg, start, occlusion, n, frames, k, now, deltaTimeFromTick, m).collected.joints.logs, e, side)|
              == |LogOf(start.collected.joints.logs, e, side)| + (if e < k then |OfSide(frames[e].hands, side)| else 0)
    decreases k
  {
    if k > 0 {
      TickUpToLogs(cfg, start, occlusion, n, frames, k - 1, now, deltaTimeFromTick, m);
      TickStepLogs(cfg, start, occlusion, n, frames, k, now, deltaTimeFromTick, m);
    }
  }
}
