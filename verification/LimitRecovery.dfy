/**
  Limit checks on measured feedback and on RTC output.

  A joint measured outside its limits may only be brought back in: a final output
  outside the roundoff band is accepted only while the measured joint and the
  previous output are beyond the same limit and the output moves inward. When the
  measured joint is ahead of a refused output, that joint is rebased to it and the
  RTC is asked once more.
*/
module LimitRecovery {
  import opened MotionTypes

  /** The spacing of doubles at one. */
  const EPSILON: real := 1.0 / 4503599627370496.0

  datatype RecoveryConfig = RecoveryConfig(margin: real, rebaseTolerance: real)

  function Roundoff(lower: real, upper: real): (band: real)
    ensures band > 0.0
  {
    var scale := MaxReal(1.0, MaxReal(AbsReal(lower), AbsReal(upper)));
    ScaledPositive(16.0 * EPSILON, scale);
    16.0 * EPSILON * scale
  }

  lemma ScaledPositive(a: real, b: real)
    requires a > 0.0 && b > 0.0
    ensures a * b > 0.0
  {
  }

  /** The band is machine precision: a few units in the last place of the larger limit, or of one. */
  lemma BandIsRoundoff(lower: real, upper: real)
    ensures 35.0 / 10000000000000000.0 < Roundoff(lower, upper)
    ensures Roundoff(lower, upper) < 36.0 / 10000000000000000.0 * (1.0 + AbsReal(lower) + AbsReal(upper))
    ensures Roundoff(-upper, -lower) == Roundoff(lower, upper)
  {
    var scale := MaxReal(1.0, MaxReal(AbsReal(lower), AbsReal(upper)));
    assert 35.0 / 10000000000000000.0 < 16.0 * EPSILON < 36.0 / 10000000000000000.0;
    ProductGrows(16.0 * EPSILON, 1.0, scale);
    ProductGrows(36.0 / 10000000000000000.0, scale, 1.0 + AbsReal(lower) + AbsReal(upper));
    ScaledPositive(36.0 / 10000000000000000.0 - 16.0 * EPSILON, scale);
  }

  lemma ProductGrows(a: real, b: real, c: real)
    requires a > 0.0 && b <= c
    ensures a * b <= a * c
  {
  }

  /** Within the limits up to roundoff. */
  predicate Inside(p: real, lower: real, upper: real) {
    lower - Roundoff(lower, upper) <= p <= upper + Roundoff(lower, upper)
  }

  /** How far a position lies beyond the roundoff band. */
  function Overshoot(p: real, lower: real, upper: real): (o: real)
    ensures o >= 0.0 && (o == 0.0 <==> Inside(p, lower, upper))
  {
    MaxReal(0.0, MaxReal(lower - Roundoff(lower, upper) - p, p - upper - Roundoff(lower, upper)))
  }

  // ---- Feedback ----

  ghost predicate WellFormedFeedback(feedback: Feedback) {
    && |feedback.joints| == |feedback.positions| == |feedback.velocities| && feedback.finite
    && Unique(feedback.joints) && "" !in feedback.joints
  }

  ghost predicate Covers(feedback: Feedback, joints: seq<Joint>) {
    forall i :: 0 <= i < |joints| ==> joints[i] in feedback.joints
  }

  /** The measured value of a joint. */
  ghost function Measured(joints: seq<Joint>, values: seq<real>, joint: Joint): (v: real)
    requires |joints| == |values| && joint in joints
  {
    var i :| 0 <= i < |joints| && joints[i] == joint; values[i]
  }

  lemma MeasuredAt(joints: seq<Joint>, values: seq<real>, i: nat)
    requires |joints| == |values| && i < |joints| && Unique(joints)
    ensures Measured(joints, values, joints[i]) == values[i]
  {
  }

  ghost predicate InRecoveryRange(feedback: Feedback, group: Group, margin: real)
    requires ValidGroup(group) && WellFormedFeedback(feedback) && Covers(feedback, group.joints)
  {
    forall i :: 0 <= i < |group.joints| ==>
      group.lower[i] - margin <= Measured(feedback.joints, feedback.positions, group.joints[i])
        <= group.upper[i] + margin
  }

  /** The feedback has a value of the joint between these bounds. */
  ghost predicate MeasuredWithin(feedback: Feedback, joint: Joint, least: real, most: real)
    requires |feedback.positions| == |feedback.joints|
  {
    exists i | 0 <= i < |feedback.joints| :: feedback.joints[i] == joint && least <= feedback.positions[i] <= most
  }

  /** Each joint of the group is measured, and where it is measured it is in range. */
  lemma RangeMeasures(feedback: Feedback, group: Group, margin: real)
    requires ValidGroup(group) && WellFormedFeedback(feedback)
    ensures Covers(feedback, group.joints) && InRecoveryRange(feedback, group, margin) <==>
      forall k | 0 <= k < |group.joints| ::
        MeasuredWithin(feedback, group.joints[k], group.lower[k] - margin, group.upper[k] + margin)
  {
    forall k: nat | k < |group.joints| && group.joints[k] in feedback.joints
      ensures var q := Measured(feedback.joints, feedback.positions, group.joints[k]);
        MeasuredWithin(feedback, group.joints[k], group.lower[k] - margin, group.upper[k] + margin) <==>
          group.lower[k] - margin <= q <= group.upper[k] + margin
    {
      var i :| 0 <= i < |feedback.joints| && feedback.joints[i] == group.joints[k];
      MeasuredAt(feedback.joints, feedback.positions, i);
    }
  }

  ghost predicate Fresh(feedback: Feedback, now: Time, maxAge: Time) {
    feedback.receivedAt <= now && now - feedback.receivedAt < maxAge
  }

  method FindJoint(joints: seq<Joint>, joint: Joint) returns (index: nat)
    requires joint in joints
    ensures index < |joints| && joints[index] == joint
  {
    index := 0;
    while joints[index] != joint
      invariant index < |joints| && joint in joints[index..]
      decreases |joints| - index
    {
      index := index + 1;
    }
  }

  method ValidateFeedback(feedback: Feedback, group: Group, now: Time, maxAge: Time, margin: real) returns (code: Code)
    requires ValidGroup(group)
    ensures code == OK <==>
      && WellFormedFeedback(feedback) && Fresh(feedback, now, maxAge) && Covers(feedback, group.joints)
      && InRecoveryRange(feedback, group, margin)
    ensures code == INVALID_ARGUMENT <==>
      !WellFormedFeedback(feedback) || (Fresh(feedback, now, maxAge) && !Covers(feedback, group.joints))
    ensures code == STALE_FEEDBACK <==> WellFormedFeedback(feedback) && !Fresh(feedback, now, maxAge)
    ensures code in {OK, INVALID_ARGUMENT, STALE_FEEDBACK, LIMIT_VIOLATION}
    ensures code == OK <==>
      && |feedback.positions| == |feedback.joints| == |feedback.velocities| && feedback.finite
      && "" !in feedback.joints && Unique(feedback.joints)
      && feedback.receivedAt <= now < feedback.receivedAt + maxAge
      && forall k | 0 <= k < |group.joints| ::
           MeasuredWithin(feedback, group.joints[k], group.lower[k] - margin, group.upper[k] + margin)
  {
    if |feedback.joints| != |feedback.positions| || |feedback.joints| != |feedback.velocities| || !feedback.finite {
      return INVALID_ARGUMENT;
    }
    if Unique(feedback.joints) && "" !in feedback.joints { RangeMeasures(feedback, group, margin); }
    if !Unique(feedback.joints) || "" in feedback.joints { return INVALID_ARGUMENT; }
    if now < feedback.receivedAt || now - feedback.receivedAt >= maxAge { return STALE_FEEDBACK; }
    if exists i :: 0 <= i < |group.joints| && group.joints[i] !in feedback.joints { return INVALID_ARGUMENT; }
    for i := 0 to |group.joints|
      invariant forall k :: 0 <= k < i ==>
        group.lower[k] - margin <= Measured(feedback.joints, feedback.positions, group.joints[k])
          <= group.upper[k] + margin
    {
      var source := FindJoint(feedback.joints, group.joints[i]);
      MeasuredAt(feedback.joints, feedback.positions, source);
      var q := feedback.positions[source];
      if q < group.lower[i] - margin || q > group.upper[i] + margin {
        return LIMIT_VIOLATION;
      }
    }
    return OK;
  }

  /** The feedback of exactly these joints, in this order. */
  ghost predicate IsSelection(selected: Feedback, feedback: Feedback, names: seq<Joint>)
    requires WellFormedFeedback(feedback) && Covers(feedback, names)
  {
    && selected.joints == names && selected.receivedAt == feedback.receivedAt && selected.finite
    && |selected.positions| == |names| == |selected.velocities|
    && forall i :: 0 <= i < |names| ==>
         && selected.positions[i] == Measured(feedback.joints, feedback.positions, names[i])
         && selected.velocities[i] == Measured(feedback.joints, feedback.velocities, names[i])
  }

  method SelectFeedback(feedback: Feedback, names: seq<Joint>) returns (selected: Feedback)
    requires WellFormedFeedback(feedback) && Covers(feedback, names)
    ensures IsSelection(selected, feedback, names)
    ensures selected.joints == names && selected.receivedAt == feedback.receivedAt
    ensures forall i, j :: 0 <= i < |names| && 0 <= j < |feedback.joints| && feedback.joints[j] == names[i] ==>
      selected.positions[i] == feedback.positions[j] && selected.velocities[i] == feedback.velocities[j]
  {
    var positions, velocities := [], [];
    for i := 0 to |names|
      invariant |positions| == i == |velocities|
      invariant forall k :: 0 <= k < i ==> positions[k] == Measured(feedback.joints, feedback.positions, names[k])
      invariant forall k :: 0 <= k < i ==> velocities[k] == Measured(feedback.joints, feedback.velocities, names[k])
    {
      var source := FindJoint(feedback.joints, names[i]);
      MeasuredAt(feedback.joints, feedback.positions, source);
      MeasuredAt(feedback.joints, feedback.velocities, source);
      positions := positions + [feedback.positions[source]];
      velocities := velocities + [feedback.velocities[source]];
    }
    selected := Feedback(names, positions, velocities, true, feedback.receivedAt);
  }

  // ---- Final output ----

  predicate Shaped(command: JointCommand, group: Group) {
    && command.group == group.name && command.joints == group.joints
    && |command.positions| == |group.joints|
    && (command.velocities == [] || |command.velocities| == |group.joints|)
    && (command.accelerations == [] || |command.accelerations| == |group.joints|)
    && command.finite
  }

  /** Beyond one limit, with the previous output and the measured joint beyond it too, and moving inward. */
  predicate MovesInward(p: real, previous: real, measured: real, velocity: real, lower: real, upper: real) {
    || (p < lower && previous < lower && measured < lower && p >= previous && p >= measured && velocity >= 0.0)
    || (p > upper && previous > upper && measured > upper && p <= previous && p <= measured && velocity <= 0.0)
  }

  function VelocityAt(command: JointCommand, i: nat): real
    requires i < |command.positions|
    requires command.velocities == [] || |command.velocities| == |command.positions|
  {
    if command.velocities == [] then 0.0 else command.velocities[i]
  }

  /** What the recovery exception compares with: the previous output and the measured joints. */
  datatype Reference = NoReference | Reference(previous: seq<real>, measured: seq<real>)

  predicate Recovering(command: JointCommand, group: Group, reference: Reference, i: nat)
    requires ValidGroup(group) && Shaped(command, group) && i < |group.joints|
  {
    && command.passedRtc && reference.Reference?
    && |reference.previous| == |command.positions| == |reference.measured|
    && MovesInward(command.positions[i], reference.previous[i], reference.measured[i], VelocityAt(command, i),
                   group.lower[i], group.upper[i])
  }

  ghost predicate WithinLimits(command: JointCommand, group: Group, reference: Reference)
    requires ValidGroup(group) && Shaped(command, group)
  {
    forall i :: 0 <= i < |group.joints| ==>
      Inside(command.positions[i], group.lower[i], group.upper[i]) || Recovering(command, group, reference, i)
  }

  ghost function FinalCode(command: JointCommand, group: Group, reference: Reference): Code
    requires ValidGroup(group)
  {
    if !Shaped(command, group) then INVALID_ARGUMENT
    else if WithinLimits(command, group, reference) then OK
    else LIMIT_VIOLATION
  }

  /**
    Accepted exactly when well formed and every joint is within the roundoff band or, after the
    final RTC, beyond one limit like the previous output and the measured joint, no further out
    than either and not moving outward.
  */
  method ValidateFinalCommand(command: JointCommand, group: Group, reference: Reference) returns (code: Code)
    requires ValidGroup(group)
    ensures code == FinalCode(command, group, reference)
    ensures code == INVALID_ARGUMENT <==>
      || command.group != group.name || command.joints != group.joints || !command.finite
      || |command.positions| != |group.joints|
      || (|command.velocities| != 0 && |command.velocities| != |group.joints|)
      || (|command.accelerations| != 0 && |command.accelerations| != |group.joints|)
    ensures code != INVALID_ARGUMENT ==>
      (code == OK <==> forall i | 0 <= i < |group.joints| ::
         var p, lower, upper := command.positions[i], group.lower[i], group.upper[i];
         || lower - Roundoff(lower, upper) <= p <= upper + Roundoff(lower, upper)
         || (&& command.passedRtc && reference.Reference?
             && |reference.previous| == |group.joints| == |reference.measured|
             && var previous, measured := reference.previous[i], reference.measured[i];
                var velocity := if |command.velocities| == 0 then 0.0 else command.velocities[i];
                || (previous < lower && measured < lower && previous <= p < lower && measured <= p && velocity >= 0.0)
                || (previous > upper && measured > upper && upper < p <= previous && p <= measured
                    && velocity <= 0.0)))
    ensures code in {OK, INVALID_ARGUMENT, LIMIT_VIOLATION}
  {
    if !Shaped(command, group) { return INVALID_ARGUMENT; }
    for index := 0 to |command.positions|
      invariant forall i :: 0 <= i < index ==>
        Inside(command.positions[i], group.lower[i], group.upper[i]) || Recovering(command, group, reference, i)
    {
      var roundoff := Roundoff(group.lower[index], group.upper[index]);
      if command.positions[index] < group.lower[index] - roundoff
        || command.positions[index] > group.upper[index] + roundoff {
        if command.passedRtc && reference.Reference? && |reference.previous| == |command.positions| &&
          |reference.measured| == |command.positions|
        {
          var position, previous, measured :=
            command.positions[index], reference.previous[index], reference.measured[index];
          var velocity := if command.velocities == [] then 0.0 else command.velocities[index];
          var lower, upper := group.lower[index], group.upper[index];
          if (position < lower && previous < lower && measured < lower &&
              position >= previous && position >= measured && velocity >= 0.0) ||
             (position > upper && previous > upper && measured > upper &&
              position <= previous && position <= measured && velocity <= 0.0)
          {
            continue;
          }
        }
        return LIMIT_VIOLATION;
      }
    }
    return OK;
  }

  // ---- Both limits alike ----

  function Negated(s: seq<real>): (n: seq<real>)
    ensures |n| == |s| && forall i :: 0 <= i < |s| ==> n[i] == -s[i]
  {
    seq(|s|, i requires 0 <= i < |s| => -s[i])
  }

  function MirrorGroup(group: Group): Group { group.(lower := Negated(group.upper), upper := Negated(group.lower)) }

  function MirrorCommand(command: JointCommand): JointCommand {
    command.(
      positions := Negated(command.positions), velocities := Negated(command.velocities),
      accelerations := Negated(command.accelerations))
  }

  function MirrorReference(reference: Reference): Reference {
    match reference
    case NoReference => NoReference
    case Reference(previous, measured) => Reference(Negated(previous), Negated(measured))
  }

  /** Turning every axis around exchanges the limits and changes no verdict. */
  lemma FinalCodeMirrors(command: JointCommand, group: Group, reference: Reference)
    requires ValidGroup(group)
    ensures ValidGroup(MirrorGroup(group))
    ensures FinalCode(MirrorCommand(command), MirrorGroup(group), MirrorReference(reference)) ==
      FinalCode(command, group, reference)
  {
    var c, g, r := MirrorCommand(command), MirrorGroup(group), MirrorReference(reference);
    assert c.velocities == [] <==> command.velocities == [];
    assert c.accelerations == [] <==> command.accelerations == [];
    if Shaped(command, group) {
      forall i | 0 <= i < |group.joints|
        ensures Inside(c.positions[i], g.lower[i], g.upper[i]) <==>
          Inside(command.positions[i], group.lower[i], group.upper[i])
        ensures Recovering(c, g, r, i) <==> Recovering(command, group, reference, i)
      {
        BandIsRoundoff(group.lower[i], group.upper[i]);
      }
    }
  }

  // ---- Rebasing ----

  /** Outside one limit like the previous output, and not moving outward. */
  predicate LowerRecovery(q: real, previous: real, velocity: real, lower: real) {
    q < lower && previous < lower && q >= previous && velocity >= 0.0
  }

  predicate UpperRecovery(q: real, previous: real, velocity: real, upper: real) {
    q > upper && previous > upper && q <= previous && velocity <= 0.0
  }

  predicate FeedbackAhead(q: real, measured: real, lower: real) {
    if q < lower then measured > q else measured < q
  }

  datatype Rebase = Stay | Synchronize | Refuse

  /** What one joint asks of a rebase. */
  function RebaseOf(
    q: real, previous: real, measured: real, velocity: real, lower: real, upper: real, maxStep: real,
    margin: real): Rebase
  {
    if lower <= q <= upper then Stay
    else if !LowerRecovery(q, previous, velocity, lower) && !UpperRecovery(q, previous, velocity, upper) then Refuse
    else if !FeedbackAhead(q, measured, lower) then Stay
    else if AbsReal(measured - previous) > maxStep || measured < lower - margin || measured > upper + margin
      || (LowerRecovery(q, previous, velocity, lower) && measured > upper)
      || (UpperRecovery(q, previous, velocity, upper) && measured < lower) then Refuse
    else Synchronize
  }

  lemma RebaseMirrors(
    q: real, previous: real, measured: real, velocity: real, lower: real, upper: real, maxStep: real, margin: real)
    requires lower <= upper
    ensures RebaseOf(-q, -previous, -measured, -velocity, -upper, -lower, maxStep, margin) ==
      RebaseOf(q, previous, measured, velocity, lower, upper, maxStep, margin)
  {
  }

  ghost predicate SeedInputs(
    last: JointTarget, output: JointCommand, group: Group, feedback: Feedback, velocityLimits: seq<real>)
  {
    && ValidGroup(group) && Shaped(output, group)
    && |last.positions| == |last.velocities| == |last.accelerations| == |group.joints|
    && |feedback.positions| == |feedback.velocities| == |group.joints|
    && (velocityLimits == [] || |velocityLimits| == |group.joints|)
  }

  function StepLimit(config: RecoveryConfig, velocityLimits: seq<real>, period: real, i: nat): real
    requires velocityLimits == [] || i < |velocityLimits|
  {
    config.rebaseTolerance + (if velocityLimits == [] then 0.0 else velocityLimits[i] * period)
  }

  ghost function RebaseAt(
    last: JointTarget, output: JointCommand, group: Group, feedback: Feedback,
    velocityLimits: seq<real>, config: RecoveryConfig, period: real, i: nat): Rebase
    requires SeedInputs(last, output, group, feedback, velocityLimits) && i < |group.joints|
  {
    RebaseOf(output.positions[i], last.positions[i], feedback.positions[i], VelocityAt(output, i),
             group.lower[i], group.upper[i], StepLimit(config, velocityLimits, period, i), config.margin)
  }

  /** Synchronized joints take the measured state; every other joint keeps its last output. */
  ghost predicate IsSeed(
    seed: JointTarget, last: JointTarget, output: JointCommand, group: Group, feedback: Feedback,
    velocityLimits: seq<real>, config: RecoveryConfig, period: real, upTo: nat)
    requires SeedInputs(last, output, group, feedback, velocityLimits) && upTo <= |group.joints|
  {
    && seed.joints == last.joints
    && |seed.positions| == |seed.velocities| == |seed.accelerations| == |group.joints|
    && forall i :: 0 <= i < |group.joints| ==>
         if i < upTo && RebaseAt(last, output, group, feedback, velocityLimits, config, period, i) == Synchronize
         then
           && seed.positions[i] == feedback.positions[i] && seed.velocities[i] == feedback.velocities[i]
           && seed.accelerations[i] == 0.0
         else
           && seed.positions[i] == last.positions[i] && seed.velocities[i] == last.velocities[i]
           && seed.accelerations[i] == last.accelerations[i]
  }

  /** No joint refuses the rebase and some joint asks for it. */
  ghost predicate MayRebase(
    last: JointTarget, output: JointCommand, group: Group, feedback: Feedback,
    velocityLimits: seq<real>, config: RecoveryConfig, period: real)
    requires SeedInputs(last, output, group, feedback, velocityLimits)
  {
    && (forall i :: 0 <= i < |group.joints| ==>
          RebaseAt(last, output, group, feedback, velocityLimits, config, period, i) != Refuse)
    && (exists i :: 0 <= i < |group.joints| &&
          RebaseAt(last, output, group, feedback, velocityLimits, config, period, i) == Synchronize)
  }

  /** The refused joint comes back from beyond a limit, and the measured joint is ahead of it by no more than a step. */
  ghost predicate Ahead(
    last: JointTarget, output: JointCommand, group: Group, feedback: Feedback,
    velocityLimits: seq<real>, config: RecoveryConfig, period: real, i: nat)
    requires SeedInputs(last, output, group, feedback, velocityLimits) && i < |group.joints|
  {
    var q, previous, measured := output.positions[i], last.positions[i], feedback.positions[i];
    var step := config.rebaseTolerance + if |velocityLimits| == 0 then 0.0 else velocityLimits[i] * period;
    var velocity := if |output.velocities| == 0 then 0.0 else output.velocities[i];
    && previous - step <= measured <= previous + step
    && group.lower[i] - config.margin <= measured <= group.upper[i] + config.margin
    && (|| (previous <= q < group.lower[i] && velocity >= 0.0 && q < measured <= group.upper[i])
        || (group.upper[i] < q <= previous && velocity <= 0.0 && group.lower[i] <= measured < q))
  }

  /** The joint is within its limits, or comes back from beyond one with the measured joint behind it. */
  ghost predicate Kept(last: JointTarget, output: JointCommand, group: Group, feedback: Feedback, i: nat)
    requires SeedInputs(last, output, group, feedback, []) && i < |group.joints|
  {
    var q, previous, measured := output.positions[i], last.positions[i], feedback.positions[i];
    var velocity := if |output.velocities| == 0 then 0.0 else output.velocities[i];
    || group.lower[i] <= q <= group.upper[i]
    || (previous <= q < group.lower[i] && velocity >= 0.0 && measured <= q)
    || (group.upper[i] < q <= previous && velocity <= 0.0 && q <= measured)
  }

  lemma AheadIsSynchronized(
    last: JointTarget, output: JointCommand, group: Group, feedback: Feedback,
    velocityLimits: seq<real>, config: RecoveryConfig, period: real, i: nat)
    requires SeedInputs(last, output, group, feedback, velocityLimits) && i < |group.joints|
    ensures var choice := RebaseAt(last, output, group, feedback, velocityLimits, config, period, i);
            && (choice == Synchronize <==> Ahead(last, output, group, feedback, velocityLimits, config, period, i))
            && (choice == Stay <==> Kept(last, output, group, feedback, i))
  {
  }

  /** When a seed exists, and what it holds, in measured values. */
  lemma SeedMeasures(
    last: JointTarget, output: JointCommand, group: Group, feedback: Feedback,
    velocityLimits: seq<real>, config: RecoveryConfig, period: real)
    requires SeedInputs(last, output, group, feedback, velocityLimits)
    ensures MayRebase(last, output, group, feedback, velocityLimits, config, period) <==>
      && (exists i | 0 <= i < |group.joints| ::
            Ahead(last, output, group, feedback, velocityLimits, config, period, i))
      && (forall i | 0 <= i < |group.joints| ::
            || Ahead(last, output, group, feedback, velocityLimits, config, period, i)
            || Kept(last, output, group, feedback, i))
    ensures forall seed | IsSeed(
        seed, last, output, group, feedback, velocityLimits, config, period, |group.joints|) ::
      && |seed.positions| == |group.joints|
      && forall i | 0 <= i < |group.joints| ::
           seed.positions[i] ==
             if Ahead(last, output, group, feedback, velocityLimits, config, period, i) then feedback.positions[i]
             else last.positions[i]
  {
    forall i: nat | i < |group.joints|
      ensures var choice := RebaseAt(last, output, group, feedback, velocityLimits, config, period, i);
              && (choice == Synchronize <==> Ahead(last, output, group, feedback, velocityLimits, config, period, i))
              && (choice == Stay <==> Kept(last, output, group, feedback, i))
    {
      AheadIsSynchronized(last, output, group, feedback, velocityLimits, config, period, i);
    }
    hide Ahead, Kept, RebaseAt;
  }

  method LimitRecoverySeed(
    last: JointTarget, recovering: bool, output: JointCommand, group: Group, feedback: Feedback,
    velocityLimits: seq<real>, config: RecoveryConfig, period: real) returns (seed: Option<JointTarget>)
    requires SeedInputs(last, output, group, feedback, velocityLimits)
    ensures seed.Some? <==>
      output.passedRtc && recovering && MayRebase(last, output, group, feedback, velocityLimits, config, period)
    ensures seed.Some? ==>
      IsSeed(seed.value, last, output, group, feedback, velocityLimits, config, period, |group.joints|)
    // In measured values: when a joint asks for the rebase, and when it may be left as it is.
    ensures output.passedRtc && recovering ==>
      (seed.Some? <==>
         && (exists i | 0 <= i < |group.joints| ::
               Ahead(last, output, group, feedback, velocityLimits, config, period, i))
         && (forall i | 0 <= i < |group.joints| ::
               || Ahead(last, output, group, feedback, velocityLimits, config, period, i)
               || Kept(last, output, group, feedback, i)))
    ensures seed.Some? ==> forall i | 0 <= i < |group.joints| ::
      seed.value.positions[i] ==
        if Ahead(last, output, group, feedback, velocityLimits, config, period, i) then feedback.positions[i]
        else last.positions[i]
  {
    if !output.passedRtc || !recovering { return None; }
    hide RebaseOf, Ahead, Kept, MayRebase, IsSeed;
    SeedMeasures(last, output, group, feedback, velocityLimits, config, period);
    seed := SynchronizeJoints(last, output, group, feedback, velocityLimits, config, period);
  }

  /** Joint by joint; only those that ask for it take the measured state. */
  method SynchronizeJoints(
    last: JointTarget, output: JointCommand, group: Group, feedback: Feedback,
    velocityLimits: seq<real>, config: RecoveryConfig, period: real) returns (seed: Option<JointTarget>)
    requires SeedInputs(last, output, group, feedback, velocityLimits)
    ensures seed.Some? <==> MayRebase(last, output, group, feedback, velocityLimits, config, period)
    ensures seed.Some? ==>
      IsSeed(seed.value, last, output, group, feedback, velocityLimits, config, period, |group.joints|)
  {
    hide RebaseOf;
    var target := last;
    var changed := false;
    for i := 0 to |group.joints|
      invariant IsSeed(target, last, output, group, feedback, velocityLimits, config, period, i)
      invariant forall k :: 0 <= k < i ==>
        RebaseAt(last, output, group, feedback, velocityLimits, config, period, k) != Refuse
      invariant changed <==> exists k | 0 <= k < i ::
        RebaseAt(last, output, group, feedback, velocityLimits, config, period, k) == Synchronize
    {
      var measured := feedback.positions[i];
      var velocity := if output.velocities == [] then 0.0 else output.velocities[i];
      var choice := JudgeJoint(
        output.positions[i], target.positions[i], measured, velocity, group.lower[i], group.upper[i],
        StepLimit(config, velocityLimits, period, i), config.margin);
      assert choice == RebaseAt(last, output, group, feedback, velocityLimits, config, period, i);
      if choice == Refuse { return None; }
      if choice == Synchronize {
        target := target.(
          positions := target.positions[i := measured],
          velocities := target.velocities[i := feedback.velocities[i]],
          accelerations := target.accelerations[i := 0.0]);
        changed := true;
      }
    }
    return if changed then Some(target) else None;
  }

  method JudgeJoint(
    q: real, previous: real, measured: real, velocity: real, lower: real, upper: real, maxStep: real, margin: real)
    returns (choice: Rebase)
    requires lower <= upper
    ensures choice == RebaseOf(q, previous, measured, velocity, lower, upper, maxStep, margin)
    ensures choice == Synchronize <==>
      && previous - maxStep <= measured <= previous + maxStep && lower - margin <= measured <= upper + margin
      && (|| (previous <= q < lower && velocity >= 0.0 && q < measured <= upper)
          || (upper < q <= previous && velocity <= 0.0 && lower <= measured < q))
    ensures choice == Stay <==>
      || lower <= q <= upper
      || (previous <= q < lower && velocity >= 0.0 && measured <= q)
      || (upper < q <= previous && velocity <= 0.0 && q <= measured)
  {
    if q >= lower && q <= upper { return Stay; }
    var lowerRecovery := q < lower && previous < lower && q >= previous && velocity >= 0.0;
    var upperRecovery := q > upper && previous > upper && q <= previous && velocity <= 0.0;
    if !lowerRecovery && !upperRecovery { return Refuse; }
    var feedbackAhead := if lowerRecovery then measured > q else measured < q;
    if !feedbackAhead { return Stay; }
    if AbsReal(measured - previous) > maxStep || measured < lower - margin || measured > upper + margin ||
      (lowerRecovery && measured > upper) || (upperRecovery && measured < lower)
    {
      return Refuse;
    }
    return Synchronize;
  }

  // ---- Whole sessions ----

  /** Positions of one group after an accepted output, given those before it. */
  ghost predicate NextPositions(group: Group, before: seq<real>, after: seq<real>)
    requires ValidGroup(group)
  {
    && |before| == |group.joints| == |after|
    && forall i :: 0 <= i < |group.joints| ==> NextPosition(before[i], after[i], group.lower[i], group.upper[i])
  }

  /** Inside, or beyond the same limit as before and no further out. */
  predicate NextPosition(before: real, after: real, lower: real, upper: real) {
    || Inside(after, lower, upper)
    || (after < lower && before < lower && before <= after)
    || (after > upper && before > upper && after <= before)
  }

  /** An output accepted directly, whatever the RTC returned. */
  lemma AcceptedDirectly(command: JointCommand, group: Group, last: seq<real>, measured: seq<real>)
    requires ValidGroup(group) && |last| == |group.joints|
    requires FinalCode(command, group, Reference(last, measured)) == OK
    ensures NextPositions(group, last, command.positions)
  {
    forall i | 0 <= i < |group.joints|
      ensures NextPosition(last[i], command.positions[i], group.lower[i], group.upper[i])
    {
      assert Inside(command.positions[i], group.lower[i], group.upper[i])
        || Recovering(command, group, Reference(last, measured), i);
    }
  }

  /** An output accepted after a rebase: the rebase moved no joint outward, so neither did the output. */
  lemma AcceptedAfterRebase(
    refused: JointCommand, command: JointCommand, group: Group, last: JointTarget, feedback: Feedback,
    seed: JointTarget,
    velocityLimits: seq<real>, config: RecoveryConfig, period: real)
    requires SeedInputs(last, refused, group, feedback, velocityLimits)
    requires IsSeed(seed, last, refused, group, feedback, velocityLimits, config, period, |group.joints|)
    requires FinalCode(command, group, Reference(seed.positions, feedback.positions)) == OK
    ensures NextPositions(group, last.positions, command.positions)
  {
    forall i | 0 <= i < |group.joints|
      ensures NextPosition(last.positions[i], command.positions[i], group.lower[i], group.upper[i])
    {
      assert Inside(command.positions[i], group.lower[i], group.upper[i]) ||
             Recovering(command, group, Reference(seed.positions, feedback.positions), i);
    }
  }

  /**
    How a final output is accepted: directly against the last output, or, once the RTC of a
    recovering session was rebased after a refused output, against the rebased target.
  */
  ghost predicate Accepted(
    output: JointCommand, group: Group, last: JointTarget, recovering: bool, feedback: Feedback,
    velocityLimits: seq<real>, config: RecoveryConfig, period: real)
    requires ValidGroup(group)
  {
    || FinalCode(output, group, Reference(last.positions, feedback.positions)) == OK
    || exists refused, seed ::
       AcceptedVia(refused, seed, output, group, last, recovering, feedback, velocityLimits, config, period)
  }

  ghost predicate AcceptedVia(
    refused: JointCommand, seed: JointTarget, output: JointCommand, group: Group, last: JointTarget, recovering: bool,
    feedback: Feedback,
    velocityLimits: seq<real>, config: RecoveryConfig, period: real)
    requires ValidGroup(group)
  {
    && SeedInputs(last, refused, group, feedback, velocityLimits) && recovering && refused.passedRtc
    && MayRebase(last, refused, group, feedback, velocityLimits, config, period)
    && FinalCode(refused, group, Reference(last.positions, feedback.positions)) == LIMIT_VIOLATION
    && IsSeed(seed, last, refused, group, feedback, velocityLimits, config, period, |group.joints|)
    && FinalCode(output, group, Reference(seed.positions, feedback.positions)) == OK
  }

  lemma AcceptedFollows(
    output: JointCommand, group: Group, last: JointTarget, recovering: bool, feedback: Feedback,
    velocityLimits: seq<real>, config: RecoveryConfig, period: real)
    requires ValidGroup(group) && |last.positions| == |group.joints|
    requires Accepted(output, group, last, recovering, feedback, velocityLimits, config, period)
    ensures Shaped(output, group) && NextPositions(group, last.positions, output.positions)
  {
    hide NextPositions, IsSeed, WithinLimits, SeedInputs;
    if FinalCode(output, group, Reference(last.positions, feedback.positions)) == OK {
      AcceptedDirectly(output, group, last.positions, feedback.positions);
    } else {
      var refused, seed :|
        AcceptedVia(refused, seed, output, group, last, recovering, feedback, velocityLimits, config, period);
      AcceptedAfterRebase(refused, output, group, last, feedback, seed, velocityLimits, config, period);
    }
  }

  /** The positions a backend start and every later accepted output left, in order. */
  ghost predicate SessionOutputs(group: Group, margin: real, outputs: seq<seq<real>>)
    requires ValidGroup(group)
  {
    && (forall k :: 0 <= k < |outputs| ==> |outputs[k]| == |group.joints|)
    && (outputs != [] ==> forall i :: 0 <= i < |group.joints| ==>
          group.lower[i] - margin <= outputs[0][i] <= group.upper[i] + margin)
    && (forall k :: 0 < k < |outputs| ==> OutputFollows(group, outputs, k))
  }

  /** The output at `k` may follow the one before it. */
  ghost predicate OutputFollows(group: Group, outputs: seq<seq<real>>, k: nat)
    requires ValidGroup(group) && 0 < k < |outputs|
  {
    NextPositions(group, outputs[k - 1], outputs[k])
  }

  lemma SessionGrows(group: Group, margin: real, outputs: seq<seq<real>>, next: seq<real>)
    requires ValidGroup(group) && SessionOutputs(group, margin, outputs) && outputs != []
    requires NextPositions(group, outputs[|outputs| - 1], next)
    ensures SessionOutputs(group, margin, outputs + [next])
  {
    var more := outputs + [next];
    forall k | 0 < k < |more| ensures OutputFollows(group, more, k) {
      assert more[k - 1] == outputs[k - 1];
      assert k < |outputs| ==> OutputFollows(group, outputs, k);
    }
  }

  /** Between any two outputs of a session no joint's overshoot grows, and a joint once inside stays inside. */
  lemma {:induction false} OvershootNeverGrows(
    group: Group, margin: real, outputs: seq<seq<real>>, a: nat, b: nat, i: nat)
    requires ValidGroup(group) && SessionOutputs(group, margin, outputs) && a <= b < |outputs| && i < |group.joints|
    ensures Overshoot(outputs[b][i], group.lower[i], group.upper[i]) <=
      Overshoot(outputs[a][i], group.lower[i], group.upper[i])
    ensures Inside(outputs[a][i], group.lower[i], group.upper[i]) ==>
      Inside(outputs[b][i], group.lower[i], group.upper[i])
    ensures outputs[b][i] < group.lower[i] - Roundoff(group.lower[i], group.upper[i]) ==> outputs[a][i] <= outputs[b][i]
    ensures outputs[b][i] > group.upper[i] + Roundoff(group.lower[i], group.upper[i]) ==> outputs[a][i] >= outputs[b][i]
    decreases b - a
  {
    if a < b {
      OvershootNeverGrows(group, margin, outputs, a, b - 1, i);
      assert OutputFollows(group, outputs, b);
      assert NextPosition(outputs[b - 1][i], outputs[b][i], group.lower[i], group.upper[i]);
    }
  }

  /** Limits widened by the larger of the recovery margin and the roundoff band. */
  predicate WithinWidened(p: real, lower: real, upper: real, margin: real) {
    var widening := MaxReal(margin, Roundoff(lower, upper));
    lower - widening <= p <= upper + widening
  }

  /** Every output of a session stays within the widened limits, whatever the RTC returned. */
  lemma OutputsStayWithinWidenedLimits(group: Group, margin: real, outputs: seq<seq<real>>, k: nat, i: nat)
    requires ValidGroup(group) && SessionOutputs(group, margin, outputs) && k < |outputs| && i < |group.joints|
    ensures WithinWidened(outputs[k][i], group.lower[i], group.upper[i], margin)
  {
    OvershootNeverGrows(group, margin, outputs, 0, k, i);
  }
}
