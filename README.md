# Confidence-weighted hand fusion

This project is a Dafny model of the combined tracking device that fuses the
hands seen by several Ultraleap devices into one frame
(`FUltraleapCombinedDeviceConfidence`). Once per tick it does four things:

- It records, for each device and each side, when a hand of that side was
  first seen and where its palm has been.
- It scores every hand it sees with a hand confidence and 25 joint
  confidences. Each score is smoothed through a per-(device, side) history.
- It normalises the confidences of each side's group across devices.
- It blends each group into one merged hand. The combined frame carries zero,
  one or two hands and their count.

Floats are modelled as `real`. The engine services the fusion calls but does
not define are passed in as the `Maths` value (module `EngineMaths`). These
are:

- the device origin, the positional Gaussian, angles and cosines, distances;
- quaternion rotation, `FQuat::FastLerp` and the palm-local joint list.

`Sound(m)` states the facts about them that the proofs use.

The clock is a parameter `now`, read once per tick. The tick interval is
`deltaTimeFromTick`. The device an index stands for is the index itself:
frame `d` of a tick comes from device `d`.

Modules:

- `Sums`: the sum helpers.
- `Geometry`: vectors and weighted sums.
- `Tracking`: hands, frames, merged hands and the split by side.
- `EngineMaths`: the engine services above.
- `Histories`: the bounded histories.
- `Confidence`: the scoring rules and the joint combination and smoothing.
- `Merge`: normalisation, `MergeHands` and the merged frame.
- `Tick`: one tick on values. It covers the visibility rules, the per-device
  records, scoring one hand against the histories, the hand loop
  (`ScoredHands`) and the frame loop (`TickUpTo`).
- `TickFacts`: what a tick does to the groups, the records and the
  histories.
- `Bounds`: the invariant that every stored and collected confidence lies in
  [0, 1], and the conditions under which a tick keeps it.
- `Fusion`: the class `CombinedDeviceConfidence`. Its fields are the
  per-device maps and joint rows that the source mutates.

The core follows the structure of the source:

- The accumulating loops are methods with loop invariants. These are the sum
  helpers, the normalisation passes, the joint scorers, the smoothing loop,
  `MergeHands`, and the hand and frame loops of `MergeFrames`.
- The state the source updates in place is the fields of one class. Each
  method's `modifies` lists the fields it may assign.
- Each loop method is proved equal to a recursive or closed-form function of
  its inputs. The tick methods are proved equal to `Tick.ScoredHands` and
  `Tick.TickUpTo` applied to the old state. The lemmas in `TickFacts` and
  `Bounds` then say what those functions do.

All paths below are relative to the repository root. `FUltraleapCombinedDeviceConfidence.cpp`
stands for `Source/UltraleapTrackingCore/Private/FUltraleapCombinedDeviceConfidence.cpp`.

## Source behaviour kept as written

The model follows the code. In the places below, the code does something
other than what its own comments or names announce:

- **Joint normalisation divides by a row sum.** The comment at line 199 of
  `FUltraleapCombinedDeviceConfidence.cpp` announces a normalisation of the
  joint confidences. `Sum2DFloatArray(List, JointIdx)` sums row `JointIdx`,
  which is the whole vector of the `JointIdx`-th hand, not column `JointIdx`.
  So:
  - A joint's normalised confidences need not total 1.
    `Merge.NormalizedJointsColumnNeedNotSumToOne` shows two hands that report
    1 everywhere getting 1/25 each for joint 0.
  - Every joint index with no such row falls back to 1/k.
  - A lone hand keeps joint 0 divided by its own vector's sum, and every other
    joint becomes 1 (`Merge.NormalizedJointsSingleHandFirst` and
    `Merge.NormalizedJointsSingleHandRest`). A single contributor is therefore
    not reproduced exactly at joint 0 (`Merge.MergedHandOfSingle`).
- **The joint-rotation scorer uses a different key layout.** It writes key
  `f * 4 + b` for digit `f` and bone `b`, so keys 0..19 hold the bone scores in
  digit order. The combination reads key `f * 5 + b`.
- **The palm-rotation scorer only reaches keys 0..3.** It resets its finger
  index for every digit, so each digit writes keys 0..3 and the last digit's
  scores remain there.
- **The rotation lerp can produce a non-finite rotation.** The lerp weight of
  step `i` is `Sum(c[..i]) / Sum(c[..i+1])`. Normalised confidences with
  leading zeros, such as `[0, 0, 1]`, make it 0/0. The float result is not a
  number, and the merged rotation is then not finite (`Rotation.NonFinite`,
  `Merge.MergedRotationLeadingZeros`).
- **A zero elapsed time gives a velocity score of 0.** The division yields a
  value that is infinite or not a number, and that value is never below 2.
- **The hand score can exceed 1.** The comment at line 425 announces an
  amplitude that depends on the ideal depth. The amplitude exceeds 1 in two
  cases:
  - For device types without a depth band it is `1 - X` at depth `X`
    (line 437). This exceeds 1 behind the device.
  - For RIGEL, SIR170, 3DI and PERIPHERAL devices, the near-side tail below
    0.1 m is `0.55 / (π/2) · atan(100 (X + 0.05)) + 0.5` (lines 470-473 and
    494-497). It exceeds 1 from about X = 0.02, and reaches about 1.027 just
    below X = 0.1.

  So a hand held at an ordinary close range can have a positional score above
  1. Every [0, 1] bound on a confidence is therefore proved under
  `Bounds.ScoresBounded`, which assumes that the positional Gaussian score is
  at most 1.
- **Maps are filled up front.** The constructor gives every device an entry in
  every map. The lazy `Contains`/`Add` branches in the tick therefore never
  fire for a registered device, and the model treats the maps as complete
  (`Valid`).

## Model

| member | source | states |
|---|---|---|
| Sums.SumFloatArray | Source/UltraleapTrackingCore/Private/FUltraleapCombinedDeviceConfidence.cpp:18-26 | the accumulated total is the sum of all elements |
| Sums.SumFloatArrayFirst | Source/UltraleapTrackingCore/Private/FUltraleapCombinedDeviceConfidence.cpp:27-42 | the total of the first NumElements elements; all of them when the count is negative or at least the length |
| Sums.Sum2DFloatArray | Source/UltraleapTrackingCore/Private/FUltraleapCombinedDeviceConfidence.cpp:43-55 | 0 when there is no row Index, otherwise the sum of row Index |
| Geometry.WeightedSumCoordinates | Source/UltraleapTrackingCore/Private/FUltraleapCombinedDeviceConfidence.cpp:657-664 | each coordinate of the accumulated position is Σ c[i] · p[i] of that coordinate |
| Geometry.WeightedSumOfAgreeingPoints | Source/UltraleapTrackingCore/Private/FUltraleapCombinedDeviceConfidence.cpp:657-664 | positions that all equal p accumulate to p scaled by the total weight |
| Geometry.WeightedSumPair | Source/UltraleapTrackingCore/Private/FUltraleapCombinedDeviceConfidence.cpp:657-664 | two positions accumulate to u · a + v · b |
| Tracking.OfSideConcat | Source/UltraleapTrackingCore/Private/FUltraleapCombinedDeviceConfidence.cpp:133-164 | collecting frame after frame gives each side's hands of the earlier frames followed by those of the later ones |
| Tracking.OfSidePartition | Source/UltraleapTrackingCore/Private/FUltraleapCombinedDeviceConfidence.cpp:139-163 | every hand lands in exactly one group: the group sizes add up to the number of hands |
| Tracking.OfSideHasSide | Source/UltraleapTrackingCore/Private/FUltraleapCombinedDeviceConfidence.cpp:141-162 | every hand of a group has that group's side; a hand that is not left is right |
| Histories.RetainedAfterAdd | Source/UltraleapTrackingCore/Private/FUltraleapCombinedDeviceConfidence.cpp:406-407 | adding to a history appends to its window and, once the window is full, evicts the oldest entry |
| Histories.AveragedWithin | Source/UltraleapTrackingCore/Private/FUltraleapCombinedDeviceConfidence.cpp:406-407 | the averaged hand confidence lies within any bounds that every retained confidence satisfies |
| Histories.AveragedVectorWithin | Source/UltraleapTrackingCore/Private/FUltraleapCombinedDeviceConfidence.cpp:635-636 | the same holds for every entry of the averaged joint confidences |
| Confidence.ConfidenceRelativeHandPos | Source/UltraleapTrackingCore/Private/FUltraleapCombinedDeviceConfidence.cpp:505-512 | the Gaussian score clamped below at 0: never negative, unchanged when non-negative |
| Confidence.DoubledAngleScoreSymmetric | Source/UltraleapTrackingCore/Private/FUltraleapCombinedDeviceConfidence.cpp:523-525 | the doubled-angle score is symmetric about 90° |
| Confidence.ConfidenceRelativeHandRot | Source/UltraleapTrackingCore/Private/FUltraleapCombinedDeviceConfidence.cpp:517-528 | the palm-rotation score lies in [0, 1] |
| Confidence.ConfidenceRelativeHandVelocity | Source/UltraleapTrackingCore/Private/FUltraleapCombinedDeviceConfidence.cpp:535-560 | never negative; 0 with no recorded position or when the oldest position is more than ten ticks old |
| Confidence.VelocityScoreIsClampedRamp | Source/UltraleapTrackingCore/Private/FUltraleapCombinedDeviceConfidence.cpp:551-559 | for a recent sample the score is 1 - speed / 2 clamped to [0, 1], reaching 0 at speed 2 |
| Confidence.VelocityScoreBounds | Source/UltraleapTrackingCore/Private/FUltraleapCombinedDeviceConfidence.cpp:541-559 | the score is at most 1, and a hand that moved further since the same sample scores no higher |
| Confidence.ConfidenceTimeSinceHandFirstVisible | Source/UltraleapTrackingCore/Private/FUltraleapCombinedDeviceConfidence.cpp:562-578 | 0 while first-visible is 0, the time visible while under 1 second, 1 from then on |
| Confidence.HandScoreWithin | Source/UltraleapTrackingCore/Private/FUltraleapCombinedDeviceConfidence.cpp:385-397 | with non-negative weights totalling at most 1, and sub-scores and ramp in [0, 1], the hand score is in [0, 1] |
| Confidence.JointRotScore | Source/UltraleapTrackingCore/Private/FUltraleapCombinedDeviceConfidence.cpp:722-740 | a bone's joint-rotation score lies in [0, 1] |
| Confidence.JointPalmRotScore | Source/UltraleapTrackingCore/Private/FUltraleapCombinedDeviceConfidence.cpp:766-775 | a bone's rotation-to-palm score lies in [0, 1] |
| Confidence.ConfidenceRelativeJointRot | Source/UltraleapTrackingCore/Private/FUltraleapCombinedDeviceConfidence.cpp:707-744 | a zero-filled row when empty; key f * 4 + b holds the score of digit f's bone b for the 20 keys 0..19; later keys are kept |
| Confidence.ConfidenceRelativeJointRotToPalmRot | Source/UltraleapTrackingCore/Private/FUltraleapCombinedDeviceConfidence.cpp:750-781 | a zero-filled row when empty; keys 0..3 hold the last digit's four bone scores; every other key is kept |
| Confidence.CombineJointConfidences | Source/UltraleapTrackingCore/Private/FUltraleapCombinedDeviceConfidence.cpp:607-626 | key f * 5 + b is the weighted rot/palm/occlusion value for b = 0, and for b > 0 the mean of that value and the smoothed key before it; entries past 25 are kept |
| Confidence.FingerSmoothedWithinAt | Source/UltraleapTrackingCore/Private/FUltraleapCombinedDeviceConfidence.cpp:616-624 | smoothing keeps every joint confidence within bounds that the combined values satisfy |
| Confidence.FingerSmoothedUnique | Source/UltraleapTrackingCore/Private/FUltraleapCombinedDeviceConfidence.cpp:607-626 | the smoothing recurrence determines the row: two rows smoothed from the same values agree on all 25 keys |
| Confidence.CombinedJointWithin | Source/UltraleapTrackingCore/Private/FUltraleapCombinedDeviceConfidence.cpp:612-614 | with non-negative joint weights totalling at most 1 and sub-scores in [0, 1], the combined value is in [0, 1] |
| Merge.NormalizeHandConfidences | Source/UltraleapTrackingCore/Private/FUltraleapCombinedDeviceConfidence.cpp:166-182 | each entry is divided by the group's sum, or set to 1/k when the sum is 0; a non-empty group then totals 1 |
| Merge.NormalizedHandSumsToOne | Source/UltraleapTrackingCore/Private/FUltraleapCombinedDeviceConfidence.cpp:166-182 | a non-empty group's normalised confidences total 1, through both branches |
| Merge.NormalizedHandProportional | Source/UltraleapTrackingCore/Private/FUltraleapCombinedDeviceConfidence.cpp:169-175 | with a non-zero raw sum s, each normalised value times s is the raw value |
| Merge.NormalizedHandZeroSumUniform | Source/UltraleapTrackingCore/Private/FUltraleapCombinedDeviceConfidence.cpp:176-182 | with a zero sum each of the k entries is 1/k |
| Merge.NormalizedHandWithin | Source/UltraleapTrackingCore/Private/FUltraleapCombinedDeviceConfidence.cpp:166-182 | non-negative raw confidences normalise to values in [0, 1] |
| Merge.NormalizeColumnEffect | Source/UltraleapTrackingCore/Private/FUltraleapCombinedDeviceConfidence.cpp:202-217 | the pass for JointIdx changes only entry JointIdx of each hand: the entry over Sum2DFloatArray(list, JointIdx), or 1/k when that is 0 |
| Merge.NormalizedJointsEntry | Source/UltraleapTrackingCore/Private/FUltraleapCombinedDeviceConfidence.cpp:200-217 | after n passes entry j < n holds what pass j wrote and entry j >= n is untouched |
| Merge.NormalizeJoint | Source/UltraleapTrackingCore/Private/FUltraleapCombinedDeviceConfidence.cpp:202-217 | one pass of the joint loop rewrites the list to the pass's normalised column |
| Merge.NormalizeJointConfidences | Source/UltraleapTrackingCore/Private/FUltraleapCombinedDeviceConfidence.cpp:199-217 | the 25 passes, each on the list as the previous passes left it |
| Merge.NormalizedJointsFewHands | Source/UltraleapTrackingCore/Private/FUltraleapCombinedDeviceConfidence.cpp:43-49 | a joint index with no row of that index gets 1/k for every hand, and that column totals 1 |
| Merge.NormalizedJointsFirstEntry | Source/UltraleapTrackingCore/Private/FUltraleapCombinedDeviceConfidence.cpp:202-208 | joint 0 of every hand ends up divided by the sum of the first hand's whole vector |
| Merge.NormalizedJointsSingleHandFirst | Source/UltraleapTrackingCore/Private/FUltraleapCombinedDeviceConfidence.cpp:202-208 | a lone hand's joint 0 becomes its value over the sum of its own vector |
| Merge.NormalizedJointsSingleHandRest | Source/UltraleapTrackingCore/Private/FUltraleapCombinedDeviceConfidence.cpp:211-217 | a lone hand's joints 1..24 all become 1 |
| Merge.NormalizedJointsColumnNeedNotSumToOne | Source/UltraleapTrackingCore/Private/FUltraleapCombinedDeviceConfidence.cpp:202-208 | two all-ones hands get 1/25 each for joint 0, which does not total 1 |
| Merge.LerpValueWithin | Source/UltraleapTrackingCore/Private/FUltraleapCombinedDeviceConfidence.cpp:667 | with non-negative confidences a defined lerp weight lies in [0, 1] |
| Merge.LerpValueDefined | Source/UltraleapTrackingCore/Private/FUltraleapCombinedDeviceConfidence.cpp:667 | with non-negative confidences and a positive first one, every lerp weight is defined |
| Merge.LerpValuePair | Source/UltraleapTrackingCore/Private/FUltraleapCombinedDeviceConfidence.cpp:667 | with two hands the weight is the first hand's share u / (u + v) |
| Merge.MergedRotationFinite | Source/UltraleapTrackingCore/Private/FUltraleapCombinedDeviceConfidence.cpp:658-669 | non-negative confidences with a positive first one give a finite merged rotation |
| Merge.MergedRotationLeadingZeros | Source/UltraleapTrackingCore/Private/FUltraleapCombinedDeviceConfidence.cpp:667-668 | raw [0, 0, 0.5] normalises to [0, 0, 1], whose merged rotation is not finite |
| Merge.MergePalms | Source/UltraleapTrackingCore/Private/FUltraleapCombinedDeviceConfidence.cpp:655-669 | the palm position is the confidence-weighted sum; the rotation is lerped hand after hand by the prefix-sum ratio |
| Merge.MergeJoints | Source/UltraleapTrackingCore/Private/FUltraleapCombinedDeviceConfidence.cpp:688-694 | each joint is Σ jc[i][j] · local[i][j] over the hands |
| Merge.MergeHands | Source/UltraleapTrackingCore/Private/FUltraleapCombinedDeviceConfidence.cpp:653-700 | the merged hand has the first hand's side, the weighted palm position, the lerped rotation and the 25 per-joint weighted local positions |
| Merge.MergedHandOfSingle | Source/UltraleapTrackingCore/Private/FUltraleapCombinedDeviceConfidence.cpp:655-694 | a lone hand keeps its side, palm position and orientation; each joint is its local joint scaled by that joint's confidence |
| Merge.MergedPalmOfAgreeingHands | Source/UltraleapTrackingCore/Private/FUltraleapCombinedDeviceConfidence.cpp:657-664 | devices that agree on the palm position, with confidences totalling 1, merge to that position |
| Merge.MergedHandOfPair | Source/UltraleapTrackingCore/Private/FUltraleapCombinedDeviceConfidence.cpp:657-668 | two devices blend to u · a + v · b, and the second orientation is lerped towards the first by u / (u + v) |
| Merge.MergeGroup | Source/UltraleapTrackingCore/Private/FUltraleapCombinedDeviceConfidence.cpp:166-253 | one side's hand and joint confidences are normalised and its hands merged with them |
| Merge.MergeGroups | Source/UltraleapTrackingCore/Private/FUltraleapCombinedDeviceConfidence.cpp:236-274 | the combined frame is the merged left hand if any, then the merged right hand if any, and their count |
| Merge.MergedFrameShape | Source/UltraleapTrackingCore/Private/FUltraleapCombinedDeviceConfidence.cpp:237-274 | one hand per non-empty side, at most two, left first; NumberOfHandsVisible equals the number of hands |
| Merge.MergedGroupSide | Source/UltraleapTrackingCore/Private/FUltraleapCombinedDeviceConfidence.cpp:655 | a group of one side's hands merges to a hand of that side |
| Tick.FirstVisibleWhenAbsent | Source/UltraleapTrackingCore/Private/FUltraleapCombinedDeviceConfidence.cpp:366-373 | a side absent in the last tick has first-visible time 0 |
| Tick.FirstVisibleIsRunStart | Source/UltraleapTrackingCore/Private/FUltraleapCombinedDeviceConfidence.cpp:335-338 | a side present in the last tick has as first-visible time the time of the tick that began its current run of presence |
| Tick.SamplesPerHand | Source/UltraleapTrackingCore/Private/FUltraleapCombinedDeviceConfidence.cpp:329-363 | every hand of a frame adds exactly one position sample, to its own side's history |
| Tick.RecordFrameRecords | Source/UltraleapTrackingCore/Private/FUltraleapCombinedDeviceConfidence.cpp:325-374 | recording a frame updates its device's first-visible times and positions and leaves every other device's untouched |
| Tick.RecordedUpToStep | Source/UltraleapTrackingCore/Private/FUltraleapCombinedDeviceConfidence.cpp:133-137 | recording frame k - 1 after the first k - 1 frames leaves each of the first k devices recorded once, against its own frame, and every later device untouched |
| Tick.RecordFrameTimesNotAfter | Source/UltraleapTrackingCore/Private/FUltraleapCombinedDeviceConfidence.cpp:335-373 | when the clock has not gone back, recording a frame at now leaves no first-visible time or position sample later than now |
| Tick.RawHandConfidenceLocal | Source/UltraleapTrackingCore/Private/FUltraleapCombinedDeviceConfidence.cpp:379-397 | the raw hand confidence reads only the records of the device that saw the hand |
| Tick.RawHandConfidenceWithin | Source/UltraleapTrackingCore/Private/FUltraleapCombinedDeviceConfidence.cpp:379-397 | with convex palm weights, sound engine maths, no recorded time after now and a positional score of at most 1, the raw hand confidence lies in [0, 1] |
| TickFacts.ScoredHandLogs | Source/UltraleapTrackingCore/Private/FUltraleapCombinedDeviceConfidence.cpp:399-417 | scoring a hand adds one entry to the hand history of its own (device, side) and none to any other; the confidence is the mean of that history's window |
| TickFacts.ScoredJointsLogs | Source/UltraleapTrackingCore/Private/FUltraleapCombinedDeviceConfidence.cpp:628-648 | scoring a hand's joints adds one entry to the joint history of its own (device, side) and none to any other; the result is that history's entry-by-entry mean and is also the hand's stored row |
| TickFacts.ScoredPassGroup | Source/UltraleapTrackingCore/Private/FUltraleapCombinedDeviceConfidence.cpp:139-162 | one pass of the hand loop appends the hand to its own side's group and leaves the other group's hands unchanged |
| TickFacts.ScoredPassLogs | Source/UltraleapTrackingCore/Private/FUltraleapCombinedDeviceConfidence.cpp:139-162 | one pass of the hand loop adds exactly one hand-history entry and one joint-history entry, both to the hand's own (device, side) |
| TickFacts.ScoredPassLatest | Source/UltraleapTrackingCore/Private/FUltraleapCombinedDeviceConfidence.cpp:141-161 | the hand just collected is last in its group, and its group confidence and joint confidences are the means of its (device, side) histories that now include its own scores |
| TickFacts.ScoredHandsGroups | Source/UltraleapTrackingCore/Private/FUltraleapCombinedDeviceConfidence.cpp:139-163 | the hand loop appends to each side's group that side's hands of the frame, in hand order |
| TickFacts.ScoredHandsLogs | Source/UltraleapTrackingCore/Private/FUltraleapCombinedDeviceConfidence.cpp:139-163 | the hand loop grows each (device, side) history by the number of that side's hands when the device is the frame's, and leaves every other device's histories the same length |
| TickFacts.TickUpToRecords | Source/UltraleapTrackingCore/Private/FUltraleapCombinedDeviceConfidence.cpp:133-137 | after the first k frames, every device before k has been recorded once against its own frame, and every other device is untouched |
| TickFacts.TickUpToGroups | Source/UltraleapTrackingCore/Private/FUltraleapCombinedDeviceConfidence.cpp:133-164 | after the first k frames, a side's group holds that side's hands of those frames, in frame order and in hand order within a frame |
| TickFacts.TickUpToLogs | Source/UltraleapTrackingCore/Private/FUltraleapCombinedDeviceConfidence.cpp:133-164 | after the first k frames, each (device, side) history has grown by one entry per hand of that side in the device's frame if the device is before k, and not at all otherwise |
| Bounds.ScoredHandWithin | Source/UltraleapTrackingCore/Private/FUltraleapCombinedDeviceConfidence.cpp:379-420 | under the scoring bounds, CalculateHandConfidence keeps every hand history in [0, 1] and returns a confidence in [0, 1] |
| Bounds.CombinedJointConfidencesWithin | Source/UltraleapTrackingCore/Private/FUltraleapCombinedDeviceConfidence.cpp:607-614 | with convex joint weights, the 25 combined values of rows in [0, 1] lie in [0, 1] |
| Bounds.ScoredJointsWithin | Source/UltraleapTrackingCore/Private/FUltraleapCombinedDeviceConfidence.cpp:583-649 | under the scoring bounds, CalculateJointConfidence keeps the joint histories and all joint rows in [0, 1] and returns joint confidences in [0, 1] |
| Bounds.WithHandWithin | Source/UltraleapTrackingCore/Private/FUltraleapCombinedDeviceConfidence.cpp:141-161 | appending a hand with weights in [0, 1] keeps the group's weights in [0, 1] |
| Bounds.ScoredPassWithin | Source/UltraleapTrackingCore/Private/FUltraleapCombinedDeviceConfidence.cpp:139-162 | one pass of the hand loop keeps the histories, the rows and both groups' weights in [0, 1] |
| Bounds.ScoredHandsWithin | Source/UltraleapTrackingCore/Private/FUltraleapCombinedDeviceConfidence.cpp:139-163 | the hand loop over a frame keeps the histories, the rows and both groups' weights in [0, 1] |
| Bounds.FrameWithin | Source/UltraleapTrackingCore/Private/FUltraleapCombinedDeviceConfidence.cpp:135-163 | recording one frame at now and scoring its hands leaves no recorded time after now and every confidence in [0, 1] |
| Bounds.TickStepWithin | Source/UltraleapTrackingCore/Private/FUltraleapCombinedDeviceConfidence.cpp:133-164 | one iteration of the frame loop preserves both invariants: no recorded time after now, every confidence in [0, 1] |
| Bounds.TickUpToWithin | Source/UltraleapTrackingCore/Private/FUltraleapCombinedDeviceConfidence.cpp:133-164 | a whole tick whose clock has not gone back preserves both invariants over all frames |
| Fusion.DeviceMap | Source/UltraleapTrackingCore/Private/FUltraleapCombinedDeviceConfidence.cpp:63-76 | the map gives each of the devices the default value and has no other key |
| Fusion.ZeroRows | Source/UltraleapTrackingCore/Private/FUltraleapCombinedDeviceConfidence.cpp:77-92 | two rows of 25 entries per device |
| Fusion.ZeroRowsWithin | Source/UltraleapTrackingCore/Private/FUltraleapCombinedDeviceConfidence.cpp:86-92 | the zeroed rows lie in [0, 1] |
| Fusion.CombinedDeviceConfidence.constructor | Source/UltraleapTrackingCore/Private/FUltraleapCombinedDeviceConfidence.cpp:57-93 | every device starts with first-visible 0 and empty histories on both sides; the four joint arrays are two zeroed rows of 25 per device |
| Fusion.CombinedDeviceConfidence.InitialWithin | Source/UltraleapTrackingCore/Private/FUltraleapCombinedDeviceConfidence.cpp:57-93 | the state the constructor leaves has every confidence in [0, 1] and no recorded time after 0 |
| Fusion.CombinedDeviceConfidence.ScanHands | Source/UltraleapTrackingCore/Private/FUltraleapCombinedDeviceConfidence.cpp:327-373 | each side's first-visible time becomes now if it was 0 and the side is present, is kept while present and is reset to 0 when absent; each hand appends its palm sample to its side |
| Fusion.CombinedDeviceConfidence.AddFrameToTimeVisibleDicts | Source/UltraleapTrackingCore/Private/FUltraleapCombinedDeviceConfidence.cpp:325-374 | the records become those with the frame's device recorded; only the four record maps change, and no recorded time after now stays true |
| Fusion.CombinedDeviceConfidence.CalculateHandConfidence | Source/UltraleapTrackingCore/Private/FUltraleapCombinedDeviceConfidence.cpp:379-420 | the raw confidence is appended to the hand's own (device, side) history and the result is that history's mean; under the scoring bounds the histories stay in [0, 1] and so does the result |
| Fusion.CombinedDeviceConfidence.RescoreJointRows | Source/UltraleapTrackingCore/Private/FUltraleapCombinedDeviceConfidence.cpp:587-599 | the hand's joint-rotation row is rescored only when its weight is non-zero, and likewise its rotation-to-palm row |
| Fusion.CombinedDeviceConfidence.PushJointConfidences | Source/UltraleapTrackingCore/Private/FUltraleapCombinedDeviceConfidence.cpp:628-648 | the row is appended to the hand's own joint history and replaced by that history's entry-by-entry mean, which is returned |
| Fusion.CombinedDeviceConfidence.CalculateJointConfidence | Source/UltraleapTrackingCore/Private/FUltraleapCombinedDeviceConfidence.cpp:583-649 | the rows are rescored by weight, combined, finger-smoothed and pushed into the hand's joint history; the stored and returned row is the history's mean; under the scoring bounds every row and the result stay in [0, 1] |
| Fusion.CombinedDeviceConfidence.CollectHand | Source/UltraleapTrackingCore/Private/FUltraleapCombinedDeviceConfidence.cpp:139-162 | one pass of the hand loop: the histories, rows and groups become those of ScoredHands after one more hand, so the hand joins its side's group with its fresh confidences |
| Fusion.CombinedDeviceConfidence.CollectHands | Source/UltraleapTrackingCore/Private/FUltraleapCombinedDeviceConfidence.cpp:139-163 | the histories, rows and groups become ScoredHands over all of the frame's hands, started from the state before the loop |
| Fusion.CombinedDeviceConfidence.MergeFrame | Source/UltraleapTrackingCore/Private/FUltraleapCombinedDeviceConfidence.cpp:133-163 | one iteration of the frame loop: the records, histories, rows and groups become TickUpTo of one more frame |
| Fusion.CombinedDeviceConfidence.CollectFrames | Source/UltraleapTrackingCore/Private/FUltraleapCombinedDeviceConfidence.cpp:133-164 | the records, histories, rows and groups become TickUpTo over all frames, started from the state before the tick with empty groups |
| Fusion.CombinedDeviceConfidence.MergeFrames | Source/UltraleapTrackingCore/Private/FUltraleapCombinedDeviceConfidence.cpp:120-275 | the new state is TickUpTo over all frames; the combined frame is the merge of the normalised groups; the occlusion rows are unchanged; under the scoring bounds, no recorded time after now and all confidences, including the merge weights, in [0, 1] are preserved |

## Left out

- Transcendental maths. The Gaussian, `Exp`, `Pow`, `Atan`, `Sin` and `Cos` in the positional, rotational and joint scorers are engine functions in `Maths`. Only the final clamp of the positional score to at least 0 is modelled.
- Device types, depth bands and `InverseTransformPosition`. These are folded into the engine function `handPositionGauss`.
- Quaternion and transform operations. `FQuat::FastLerp`, quaternion rotation of a vector, `GetSourceDeviceOrigin` and `CreateLocalLinearJointList` are engine functions in `Maths`.
- `ConvertToWorldSpaceHand` is not part of this model. The merged hand is the side, palm position, palm rotation and 25 palm-local joint positions that are handed to it.
- The history classes are not part of this model. Each history is modelled as a fixed-capacity window per (device, side). Confidences are read back as the window's mean, following the comments at lines 399 and 628 ("average out new … confidence with that of the last few frames"). Positions are read back as the oldest retained sample, following the comment at lines 531-533. Capacities are configuration values.
- `GetTime()` becomes the parameter `now`, one reading per tick. The source reads the clock at each use within a tick. One consequence: in the model, a (device, side) seen for the first time always gets a velocity score of 0. Its only position sample is the one just recorded at the same `now`, so the elapsed time is 0. The source reads the clock again at lines 546 and 551, so it scores 1 whenever the clock has advanced since the sample was recorded at line 347 or 362.
- Occlusion. `UpdateJointOcclusions`, `SetupJointOcclusion` and `StoreConfidenceJointOcclusion` are left out because they are empty or unfinished. The occlusion rows are never written: the constructor zeroes them, and `MergeFrames` ensures they are unchanged. They enter the combination only through their weight.
- Debug printing under `PRINT_ONSCREEN_DEBUG` is left out.
- The lazy insertion of missing map entries is not modelled: the constructor fills every map for every device.
- Float rounding, overflow and not-a-number values are not modelled, except where they decide a branch: the zero-elapsed velocity and the 0/0 lerp weight.
- Interleaving. The source scores each hand as it reaches it, and the model does the same. Within one hand it gives the hand score before the joint scores, as the source does.
- TickFacts.ScoredPassLatest: gives the confidences of the hand just collected. The entries collected earlier keep theirs, because a pass only appends to a group, but no separate lemma states this.
- Tick.RawHandConfidenceWithin: requires the positional Gaussian score to be at most 1, because the source's amplitude can exceed 1 (see above). The same assumption is part of `Bounds.ScoresBounded` for every bound in `Bounds` and for the conditional bounds of the `Fusion` methods.
- Confidence.ConfidenceRelativeHandRot: proves the range [0, 1] only. Its values at 0°, 90° and 180° come from the cosine facts that `Sound(m)` assumes, and are not restated as lemmas.
