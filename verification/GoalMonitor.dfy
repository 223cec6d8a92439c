/**
  Closed-loop completion of Moves. The monitor keeps one time, the start of the
  current in-tolerance stretch; it is proved to follow the whole history of
  observations: a Move is reached exactly when the longest in-tolerance suffix of
  its observations spans the stable duration.
*/
module GoalMonitors {
  import opened MotionTypes

  datatype Config = Config(positionTolerance: real, velocityTolerance: real, stableDuration: Time, moveTimeout: Time)

  predicate ConfigValid(config: Config) {
    config.positionTolerance >= 0.0 && config.velocityTolerance >= 0.0 && config.stableDuration >= 0
      && config.moveTimeout > 0
  }

  datatype Goal = Goal(
    joints: seq<Joint>, positions: seq<real>, cartesian: bool, startedAt: Time, stableSince: Option<Time>)

  /** Forward kinematics of the measured joints: its validity, and whether it is within the goal's pose tolerance. */
  datatype PoseReport = PoseReport(valid: bool, within: bool)

  datatype GoalObservation = RUNNING | REACHED | TIMED_OUT | INVALID_FEEDBACK

  datatype Verdict = Within | Outside | Invalid

  datatype Observation = Observation(now: Time, verdict: Verdict)

  // ---- What one observation says ----

  ghost predicate UsableFeedback(feedback: Feedback) {
    && |feedback.joints| == |feedback.positions| == |feedback.velocities|
    && feedback.finite && Unique(feedback.joints) && "" !in feedback.joints
  }

  ghost predicate NearGoal(goal: Goal, feedback: Feedback, config: Config, k: nat)
    requires |goal.joints| == |goal.positions| && k < |goal.joints|
    requires UsableFeedback(feedback)
  {
    exists i :: 0 <= i < |feedback.joints| && feedback.joints[i] == goal.joints[k] &&
                AbsReal(feedback.positions[i] - goal.positions[k]) <= config.positionTolerance &&
                AbsReal(feedback.velocities[i]) <= config.velocityTolerance
  }

  ghost function VerdictOf(goal: Goal, feedback: Feedback, pose: Option<PoseReport>, config: Config): Verdict
    requires |goal.joints| == |goal.positions|
  {
    if !UsableFeedback(feedback) then Invalid
    else if exists k :: 0 <= k < |goal.joints| && goal.joints[k] !in feedback.joints then Invalid
    else if goal.cartesian && (pose.None? || !pose.value.valid) then Invalid
    else if (forall k :: 0 <= k < |goal.joints| ==> NearGoal(goal, feedback, config, k))
      && (goal.cartesian ==> pose.value.within) then Within
    else Outside
  }

  /** What a verdict says of the measured values. */
  lemma VerdictMeasures(goal: Goal, feedback: Feedback, pose: Option<PoseReport>, config: Config)
    requires |goal.joints| == |goal.positions|
    ensures VerdictOf(goal, feedback, pose, config) == Invalid <==>
      || |feedback.positions| != |feedback.joints| || |feedback.velocities| != |feedback.joints|
      || !feedback.finite || "" in feedback.joints || !Unique(feedback.joints)
      || (exists k :: 0 <= k < |goal.joints| && goal.joints[k] !in feedback.joints)
      || (goal.cartesian && (pose == None || !pose.value.valid))
    ensures VerdictOf(goal, feedback, pose, config) != Invalid ==>
      (VerdictOf(goal, feedback, pose, config) == Within <==>
         && (forall k, i | 0 <= k < |goal.joints| && 0 <= i < |feedback.joints| ::
               feedback.joints[i] == goal.joints[k] ==>
                 && goal.positions[k] - config.positionTolerance <= feedback.positions[i]
                 && feedback.positions[i] <= goal.positions[k] + config.positionTolerance
                 && -config.velocityTolerance <= feedback.velocities[i] <= config.velocityTolerance)
         && (goal.cartesian ==> pose.value.within))
  {
    if UsableFeedback(feedback) {
      forall k, i | 0 <= k < |goal.joints| && 0 <= i < |feedback.joints| && feedback.joints[i] == goal.joints[k]
        ensures NearGoal(goal, feedback, config, k) <==>
          AbsReal(feedback.positions[i] - goal.positions[k]) <= config.positionTolerance &&
          AbsReal(feedback.velocities[i]) <= config.velocityTolerance
      {
        NearMeans(goal, feedback, config, k, i);
      }
      assert forall k :: 0 <= k < |goal.joints| && goal.joints[k] in feedback.joints ==>
        exists i :: 0 <= i < |feedback.joints| && feedback.joints[i] == goal.joints[k];
      hide NearGoal;
    }
  }

  lemma NearMeans(goal: Goal, feedback: Feedback, config: Config, k: nat, i: nat)
    requires |goal.joints| == |goal.positions| && k < |goal.joints|
    requires UsableFeedback(feedback) && i < |feedback.joints| && feedback.joints[i] == goal.joints[k]
    ensures NearGoal(goal, feedback, config, k) <==>
      AbsReal(feedback.positions[i] - goal.positions[k]) <= config.positionTolerance &&
      AbsReal(feedback.velocities[i]) <= config.velocityTolerance
  {
  }

  // ---- The incremental rule and the trace it stands for ----

  /** One observation before the timeout. */
  function Observed(goal: Goal, now: Time, verdict: Verdict, config: Config): (r: (Goal, GoalObservation)) {
    match verdict
    case Invalid => (goal.(stableSince := None), INVALID_FEEDBACK)
    case Outside => (goal.(stableSince := None), RUNNING)
    case Within =>
      var since := if goal.stableSince.Some? then goal.stableSince.value else now;
      (goal.(stableSince := Some(since)), if now - since >= config.stableDuration then REACHED else RUNNING)
  }

  lemma ObservedKeeps(goal: Goal, now: Time, verdict: Verdict, config: Config)
    ensures var next := Observed(goal, now, verdict, config).0; next == goal.(stableSince := next.stableSince)
  {
  }

  /** A stretch goes on exactly while the observations are within tolerance, and only then is a goal reached. */
  lemma ObservedSince(goal: Goal, now: Time, verdict: Verdict, config: Config)
    ensures var (next, result) := Observed(goal, now, verdict, config);
            && (next.stableSince != None <==> verdict == Within)
            && (result == REACHED ==> verdict == Within) && (result == INVALID_FEEDBACK <==> verdict == Invalid)
            && result != TIMED_OUT
  {
  }

  /** `k` starts the longest suffix of in-tolerance observations. */
  ghost predicate StartsStretch(history: seq<Observation>, k: int) {
    && 0 <= k < |history|
    && (forall i :: k <= i < |history| ==> history[i].verdict == Within)
    && (k == 0 || history[k - 1].verdict != Within)
  }

  /** The longest in-tolerance suffix is not empty and spans the stable duration. */
  ghost predicate Settled(history: seq<Observation>, duration: Time) {
    exists k :: StartsStretch(history, k) && history[|history| - 1].now - history[k].now >= duration
  }

  /** The remembered time is the start of the longest in-tolerance suffix. */
  ghost predicate Tracks(goal: Goal, history: seq<Observation>) {
    match goal.stableSince
    case None => history == [] || history[|history| - 1].verdict != Within
    case Some(since) => exists k :: StartsStretch(history, k) && history[k].now == since
  }

  /** What an observation means, told from the whole history: late, unusable, settled, or none of these. */
  ghost function OutcomeOf(
    goal: Goal, history: seq<Observation>, feedback: Feedback, pose: Option<PoseReport>, now: Time,
    config: Config): GoalObservation
    requires |goal.joints| == |goal.positions|
  {
    var verdict := VerdictOf(goal, feedback, pose, config);
    if now - goal.startedAt > config.moveTimeout then TIMED_OUT
    else if verdict == Invalid then INVALID_FEEDBACK
    else if Settled(history + [Observation(now, verdict)], config.stableDuration) then REACHED
    else RUNNING
  }

  lemma StretchIsUnique(history: seq<Observation>, j: int, k: int)
    requires StartsStretch(history, j) && StartsStretch(history, k)
    ensures j == k
  {
  }

  /** Each observation is judged exactly by the history it completes. */
  lemma ObservationRefinesTrace(goal: Goal, history: seq<Observation>, now: Time, verdict: Verdict, config: Config)
    requires Tracks(goal, history)
    ensures var (next, result) := Observed(goal, now, verdict, config);
            var longer := history + [Observation(now, verdict)];
            && Tracks(next, longer)
            && (result == REACHED <==> Settled(longer, config.stableDuration))
            && (result == INVALID_FEEDBACK <==> verdict == Invalid)
            && result != TIMED_OUT
  {
    var longer := history + [Observation(now, verdict)];
    var last := |history|;
    if verdict == Within {
      if goal.stableSince.Some? {
        var k :| StartsStretch(history, k) && history[k].now == goal.stableSince.value;
        assert k > 0 ==> longer[k - 1] == history[k - 1];
        assert StartsStretch(longer, k);
        forall j | StartsStretch(longer, j) ensures j == k { StretchIsUnique(longer, j, k); }
      } else {
        assert last > 0 ==> longer[last - 1] == history[last - 1];
        assert StartsStretch(longer, last);
        forall j | StartsStretch(longer, j) ensures j == last { StretchIsUnique(longer, j, last); }
      }
    } else {
      assert longer[last].verdict != Within;
    }
  }

  lemma ObservedOutcome(
    goal: Goal, history: seq<Observation>, feedback: Feedback, pose: Option<PoseReport>, now: Time, config: Config)
    requires |goal.joints| == |goal.positions| && Tracks(goal, history)
    ensures var verdict := VerdictOf(goal, feedback, pose, config);
            var outcome := OutcomeOf(goal, history, feedback, pose, now, config);
            && Tracks(Observed(goal, now, verdict, config).0, history + [Observation(now, verdict)])
            && (if now - goal.startedAt > config.moveTimeout then outcome == TIMED_OUT
                else && outcome == Observed(goal, now, verdict, config).1
                     && (outcome == REACHED <==> Settled(history + [Observation(now, verdict)], config.stableDuration)))
  {
    hide VerdictOf, Settled, Tracks;
    ObservationRefinesTrace(goal, history, now, VerdictOf(goal, feedback, pose, config), config);
  }

  // ---- Whole runs of one monitored goal ----

  /** One call of observe: late calls only report the timeout. */
  function Call(goal: Goal, o: Observation, config: Config): (r: (Goal, GoalObservation)) {
    if o.now - goal.startedAt > config.moveTimeout then (goal, TIMED_OUT) else Observed(goal, o.now, o.verdict, config)
  }

  function RunGoal(goal: Goal, calls: seq<Observation>, config: Config): (r: (Goal, seq<GoalObservation>))
    ensures |r.1| == |calls| && r.0.startedAt == goal.startedAt
  {
    if calls == [] then (goal, [])
    else
      var (before, results) := RunGoal(goal, calls[..|calls| - 1], config);
      var (after, result) := Call(before, calls[|calls| - 1], config);
      (after, results + [result])
  }

  ghost predicate InTime(goal: Goal, calls: seq<Observation>, config: Config) {
    forall i :: 0 <= i < |calls| ==> calls[i].now - goal.startedAt <= config.moveTimeout
  }

  lemma {:induction false} ResultsArePrefixClosed(goal: Goal, calls: seq<Observation>, config: Config, n: nat)
    requires n <= |calls|
    ensures RunGoal(goal, calls[..n], config).1 == RunGoal(goal, calls, config).1[..n]
    decreases |calls|
  {
    if n == |calls| {
      assert calls[..n] == calls;
    } else {
      ResultsArePrefixClosed(goal, calls[..|calls| - 1], config, n);
      assert calls[..|calls| - 1][..n] == calls[..n];
    }
  }

  lemma {:induction false} RunTracks(goal: Goal, calls: seq<Observation>, config: Config)
    requires goal.stableSince == None && InTime(goal, calls, config)
    ensures Tracks(RunGoal(goal, calls, config).0, calls)
    ensures forall i :: 0 <= i < |calls| ==>
      (RunGoal(goal, calls, config).1[i] == REACHED <==> Settled(calls[..i + 1], config.stableDuration))
    decreases |calls|
  {
    if calls != [] {
      var n := |calls| - 1;
      RunTracks(goal, calls[..n], config);
      var before := RunGoal(goal, calls[..n], config).0;
      assert calls[..n] + [Observation(calls[n].now, calls[n].verdict)] == calls;
      ObservationRefinesTrace(before, calls[..n], calls[n].now, calls[n].verdict, config);
      forall i | 0 <= i < |calls|
        ensures RunGoal(goal, calls, config).1[i] == REACHED <==> Settled(calls[..i + 1], config.stableDuration)
      {
        if i < n { assert calls[..n][..i + 1] == calls[..i + 1]; } else { assert calls[..i + 1] == calls; }
      }
    }
  }

  /** Under monotone time a timeout is final. */
  lemma TimeoutIsAbsorbing(goal: Goal, calls: seq<Observation>, config: Config, i: nat, j: nat)
    requires i <= j < |calls| && calls[i].now <= calls[j].now
    requires RunGoal(goal, calls, config).1[i] == TIMED_OUT
    ensures RunGoal(goal, calls, config).1[j] == TIMED_OUT
  {
    ResultAt(goal, calls, config, i);
    ResultAt(goal, calls, config, j);
  }

  lemma ResultAt(goal: Goal, calls: seq<Observation>, config: Config, i: nat)
    requires i < |calls|
    ensures RunGoal(goal, calls, config).1[i] == TIMED_OUT <==> calls[i].now - goal.startedAt > config.moveTimeout
  {
    ResultsArePrefixClosed(goal, calls, config, i + 1);
    assert calls[..i + 1][..i] == calls[..i];
    assert RunGoal(goal, calls[..i + 1], config).1[i] == RunGoal(goal, calls, config).1[i];
  }

  // ---- The class ----

  class GoalMonitor {
    const config: Config
    var goals: map<Id, Goal>
    /** Observations in time since each goal began. */
    ghost var history: map<Id, seq<Observation>>

    ghost predicate Valid()
      reads this
    {
      && history.Keys == goals.Keys
      && forall id :: id in goals ==>
           |goals[id].joints| == |goals[id].positions| && Tracks(goals[id], history[id])
    }

    constructor (config: Config)
      ensures Valid() && goals == map[] && this.config == config
    {
      this.config := config;
      goals, history := map[], map[];
    }

    method Begin(id: Id, joints: seq<Joint>, positions: seq<real>, finite: bool, cartesianGoal: Option<bool>, now: Time)
      returns (code: Code)
      requires Valid()
      modifies this
      ensures Valid()
      ensures code == OK <==>
        && ConfigValid(config) && id != "" && joints != [] && |joints| == |positions|
        && Unique(joints) && "" !in joints && finite && cartesianGoal != Some(false)
      ensures code == OK ==>
        && goals == old(goals)[id := Goal(joints, positions, cartesianGoal.Some?, now, None)]
        && history == old(history)[id := []]
      ensures code != OK ==> code == INVALID_ARGUMENT && goals == old(goals) && history == old(history)
    {
      if !ConfigValid(config) { return INVALID_ARGUMENT; }
      if id == "" || joints == [] || |joints| != |positions| { return INVALID_ARGUMENT; }
      if !Unique(joints) || "" in joints || !finite { return INVALID_ARGUMENT; }
      if cartesianGoal == Some(false) { return INVALID_ARGUMENT; }
      goals := goals[id := Goal(joints, positions, cartesianGoal.Some?, now, None)];
      history := history[id := []];
      return OK;
    }

    /** Reads the feedback as the source does: first its validity, then every goal joint, then the pose. */
    method Judge(goal: Goal, feedback: Feedback, pose: Option<PoseReport>) returns (verdict: Verdict)
      requires |goal.joints| == |goal.positions|
      ensures verdict == VerdictOf(goal, feedback, pose, config)
    {
      if |feedback.joints| != |feedback.positions| || |feedback.joints| != |feedback.velocities| { return Invalid; }
      if !feedback.finite { return Invalid; }
      var index: map<Joint, nat> := map[];
      for i := 0 to |feedback.joints|
        invariant forall joint :: joint in index ==> index[joint] < i && feedback.joints[index[joint]] == joint
        invariant forall k :: 0 <= k < i ==>
          feedback.joints[k] in index && index[feedback.joints[k]] == k && feedback.joints[k] != ""
      {
        if feedback.joints[i] == "" || feedback.joints[i] in index { return Invalid; }
        index := index[feedback.joints[i] := i];
      }
      assert UsableFeedback(feedback);
      var within := true;
      for k := 0 to |goal.joints|
        invariant forall j :: 0 <= j < k ==> goal.joints[j] in feedback.joints
        invariant within <==> forall j :: 0 <= j < k ==> NearGoal(goal, feedback, config, j)
      {
        if goal.joints[k] !in index {
          assert goal.joints[k] !in feedback.joints;
          return Invalid;
        }
        var at := index[goal.joints[k]];
        assert NearGoal(goal, feedback, config, k) <==>
          AbsReal(feedback.positions[at] - goal.positions[k]) <= config.positionTolerance &&
          AbsReal(feedback.velocities[at]) <= config.velocityTolerance;
        within := within &&
          AbsReal(feedback.positions[at] - goal.positions[k]) <= config.positionTolerance &&
          AbsReal(feedback.velocities[at]) <= config.velocityTolerance;
      }
      if goal.cartesian {
        if pose.None? || !pose.value.valid { return Invalid; }
        within := within && pose.value.within;
      }
      return if within then Within else Outside;
    }

    method Observe(id: Id, feedback: Feedback, pose: Option<PoseReport>, now: Time) returns (result: GoalObservation)
      requires Valid()
      modifies this
      ensures Valid() && goals.Keys == old(goals).Keys
      ensures id !in old(goals) ==> result == INVALID_FEEDBACK && goals == old(goals) && history == old(history)
      ensures id in old(goals) ==> (result == TIMED_OUT <==> now - old(goals)[id].startedAt > config.moveTimeout)
      ensures id in old(goals) && now - old(goals)[id].startedAt > config.moveTimeout ==>
        result == TIMED_OUT && goals == old(goals) && history == old(history)
      ensures id in old(goals) && now - old(goals)[id].startedAt <= config.moveTimeout ==>
        var verdict := VerdictOf(old(goals)[id], feedback, pose, config);
        && history == old(history)[id := old(history)[id] + [Observation(now, verdict)]]
        && goals == old(goals)[id := Observed(old(goals)[id], now, verdict, config).0]
        && (result == REACHED <==> Settled(history[id], config.stableDuration))
      ensures id in old(goals) ==> result == OutcomeOf(old(goals)[id], old(history)[id], feedback, pose, now, config)
      // In measured values: what feedback is of no use, and when the joints are where they are to be, at rest.
      ensures id in old(goals) && now - old(goals)[id].startedAt <= config.moveTimeout ==>
        var goal := old(goals)[id];
        (result == INVALID_FEEDBACK <==>
           || |feedback.positions| != |feedback.joints| || |feedback.velocities| != |feedback.joints|
           || !feedback.finite || "" in feedback.joints || !Unique(feedback.joints)
           || (exists k :: 0 <= k < |goal.joints| && goal.joints[k] !in feedback.joints)
           || (goal.cartesian && (pose == None || !pose.value.valid)))
      ensures id in old(goals) && (result == RUNNING || result == REACHED) ==>
        var goal := old(goals)[id];
        && |goal.positions| == |goal.joints| && |feedback.positions| == |feedback.joints| == |feedback.velocities|
        && (goals[id].stableSince != None <==>
              && (forall k, i | 0 <= k < |goal.joints| && 0 <= i < |feedback.joints| ::
                    feedback.joints[i] == goal.joints[k] ==>
                      && goal.positions[k] - config.positionTolerance <= feedback.positions[i]
                      && feedback.positions[i] <= goal.positions[k] + config.positionTolerance
                      && -config.velocityTolerance <= feedback.velocities[i] <= config.velocityTolerance)
              && (goal.cartesian ==> pose.Some? && pose.value.within))
        && (result == REACHED ==> goals[id].stableSince != None)
    {
      hide VerdictOf, Settled, OutcomeOf, Tracks, Observed;
      if id !in goals { return INVALID_FEEDBACK; }
      var goal := goals[id];
      VerdictMeasures(goal, feedback, pose, config);
      ObservedSince(goal, now, VerdictOf(goal, feedback, pose, config), config);
      ObservedOutcome(goal, history[id], feedback, pose, now, config);
      if now - goal.startedAt > config.moveTimeout { return TIMED_OUT; }
      var verdict := Judge(goal, feedback, pose);
      ObservationRefinesTrace(goal, history[id], now, verdict, config);
      ObservedKeeps(goal, now, verdict, config);
      result := Note(id, now, verdict);
    }

    /** Only a stretch of observations within tolerance is remembered, by its start. */
    method Note(id: Id, now: Time, verdict: Verdict) returns (result: GoalObservation)
      requires id in goals && id in history
      modifies this
      ensures goals == old(goals)[id := Observed(old(goals)[id], now, verdict, config).0]
      ensures history == old(history)[id := old(history)[id] + [Observation(now, verdict)]]
      ensures result == Observed(old(goals)[id], now, verdict, config).1
    {
      var goal := goals[id];
      history := history[id := history[id] + [Observation(now, verdict)]];
      if verdict == Invalid {
        goals := goals[id := goal.(stableSince := None)];
        return INVALID_FEEDBACK;
      }
      if verdict != Within {
        goals := goals[id := goal.(stableSince := None)];
        return RUNNING;
      }
      if goal.stableSince.None? {
        goal := goal.(stableSince := Some(now));
      }
      goals := goals[id := goal];
      if now - goal.stableSince.value >= config.stableDuration { return REACHED; }
      return RUNNING;
    }

    method Erase(id: Id)
      requires Valid()
      modifies this
      ensures Valid() && goals == old(goals) - {id} && history == old(history) - {id}
    {
      goals := goals - {id};
      history := history - {id};
    }
  }
}
