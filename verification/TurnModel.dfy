/**
  One winner's turn in a control tick, told from what it was given: the measured joints, the
  time each step took, and the answers of the SDK in the order they came. A turn fails only
  for one of these, and then with its code; otherwise the command it returns carries an
  answer of the final RTC.
*/
module TurnModel {
  import opened MotionTypes
  import opened LimitRecovery
  import opened SdkBackend
  import opened PipelineModel

  /** What one tick computes with: the feedback, the caller's time, and two readings of the steady clock. */
  datatype Cycle = Cycle(feedback: Feedback, now: Time, enteredAt: Time, startedAt: Time)

  /** The earliest end of the feedback's age, the tick's period and the Servo's lease. */
  function DeadlineOf(config: Config, session: Session, lease: Time, feedbackAt: Time, startedAt: Time): Time {
    var until := Min(feedbackAt + config.feedbackMaxAge, startedAt + config.MaxPeriod());
    if session.request.kind.IsServo() then Min(until, session.submittedAt + lease) else until
  }

  /** Before the deadline every input is current; from it on one is not. */
  lemma DeadlineIsEarliest(config: Config, session: Session, lease: Time, feedbackAt: Time, startedAt: Time, at: Time)
    ensures at < DeadlineOf(config, session, lease, feedbackAt, startedAt) <==>
      && at < feedbackAt + config.feedbackMaxAge
      && (at < startedAt + config.period || at < startedAt + config.maxControlPeriod)
      && (session.request.kind == ServoJ || session.request.kind == ServoP ==> at < session.submittedAt + lease)
  {
  }

  /**
    Feedback a session's group may be commanded from: well formed, covering, within the
    recovery range, and not stale.
  */
  ghost predicate Measures(st: Static, session: Session, feedback: Feedback, at: Time) {
    && session.group in st.groups && ValidGroup(st.groups[session.group])
    && WellFormedFeedback(feedback) && Covers(feedback, st.groups[session.group].joints)
    && InRecoveryRange(feedback, st.groups[session.group], st.config.recovery.margin)
    && Fresh(feedback, at, st.config.feedbackMaxAge)
  }

  /** Joints measured within the recovery range are measured as long as the feedback is not too old. */
  lemma MeasuredWhileFresh(st: Static, session: Session, feedback: Feedback, from: Time, until: Time)
    requires session.group in st.groups && ValidGroup(st.groups[session.group])
    requires |feedback.positions| == |feedback.joints| == |feedback.velocities| && feedback.finite
    requires "" !in feedback.joints && Unique(feedback.joints)
    requires var group := st.groups[session.group];
      forall i | 0 <= i < |group.joints| ::
        MeasuredWithin(
          feedback, group.joints[i], group.lower[i] - st.config.recovery.margin,
          group.upper[i] + st.config.recovery.margin)
    requires feedback.receivedAt <= from && until < feedback.receivedAt + st.config.feedbackMaxAge
    ensures forall at | from <= at <= until :: Measures(st, session, feedback, at)
  {
    RangeMeasures(feedback, st.groups[session.group], st.config.recovery.margin);
  }

  // ---- Answers ----

  /** The answer lets the turn go on: it is no error, and a candidate is unmarked and within its limits. */
  ghost predicate Passes(group: Group, a: Answer)
    requires ValidGroup(group)
  {
    a.code == OK && (a.ToTick? ==> !a.candidate.passedRtc && FinalCode(a.candidate, group, NoReference) == OK)
  }

  /** And an output passed the final RTC and is within its limits too. */
  ghost predicate Good(group: Group, a: Answer)
    requires ValidGroup(group)
  {
    Passes(group, a) && (a.ToShape? ==> a.output.passedRtc && FinalCode(a.output, group, NoReference) == OK)
  }

  /** What a good answer is, in the values it carries. */
  lemma GoodAnswers(group: Group, a: Answer)
    requires ValidGroup(group)
    ensures Good(group, a) <==>
      && a.code == OK
      && (a.ToTick? || a.ToShape? ==>
            var c := if a.ToTick? then a.candidate else a.output;
            && (c.passedRtc <==> a.ToShape?) && c.group == group.name && c.joints == group.joints && c.finite
            && |c.positions| == |group.joints|
            && (|c.velocities| == 0 || |c.velocities| == |group.joints|)
            && (|c.accelerations| == 0 || |c.accelerations| == |group.joints|)
            && forall i | 0 <= i < |group.joints| ::
                 group.lower[i] - Roundoff(group.lower[i], group.upper[i]) <= c.positions[i]
                   <= group.upper[i] + Roundoff(group.lower[i], group.upper[i]))
  {
    if a.ToTick? || a.ToShape? {
      var c := if a.ToTick? then a.candidate else a.output;
      if Shaped(c, group) {
        assert forall i :: 0 <= i < |group.joints| ==> !Recovering(c, group, NoReference, i);
      }
    }
  }

  /** All answers from `from` on let the turn go on, and none is an output. */
  ghost predicate Passing(group: Group, answers: seq<Answer>, from: nat)
    requires ValidGroup(group)
  {
    from <= |answers| && forall j | from <= j < |answers| :: Passes(group, answers[j]) && !answers[j].ToShape?
  }

  /** The turn ends with this code at the answer: its own, or that of the check it does not stand. */
  ghost predicate StopsAt(group: Group, a: Answer, code: Code)
    requires ValidGroup(group)
  {
    if a.code != OK then code == a.code
    else
      && code != OK
      && match a
         case ToTick(_, _, candidate) =>
           code == if candidate.passedRtc then INTERNAL_ERROR else FinalCode(candidate, group, NoReference)
         case ToShape(_, _, _, output) =>
           (code == INTERNAL_ERROR && !output.passedRtc) || code == FinalCode(output, group, NoReference)
         case _ => false
  }

  lemma StopsAtBadAnswers(group: Group, a: Answer, code: Code)
    requires ValidGroup(group) && StopsAt(group, a, code)
    ensures !Good(group, a) && code != OK
  {
  }

  /** What is within its limits by itself is accepted against any reference. */
  lemma WithinIsAccepted(output: JointCommand, group: Group, reference: Reference)
    requires ValidGroup(group)
    ensures FinalCode(output, group, NoReference) == OK ==> FinalCode(output, group, reference) == OK
    ensures FinalCode(output, group, reference) != OK ==>
      FinalCode(output, group, reference) == FinalCode(output, group, NoReference)
  {
    if Shaped(output, group) {
      assert forall i :: 0 <= i < |group.joints| ==> !Recovering(output, group, NoReference, i);
    }
  }

  // ---- Why a turn fails ----

  /** The feedback read at some time, the time itself, a Move's age, a MoveJ's goal, or the answer at `k`. */
  datatype Failure =
    | Unmeasured(code: Code, read: Time)
    | Late
    | Overdue
    | Unwatchable
    | Refused(k: nat, code: Code)

  function CodeOf(failure: Failure): Code {
    match failure
    case Unmeasured(code, _) => code
    case Late => TIMEOUT
    case Overdue => TIMEOUT
    case Unwatchable => INVALID_ARGUMENT
    case Refused(_, code) => code
  }

  /** A goal the monitor takes. */
  predicate WatchableGoal(goal: JointTarget) {
    goal.joints != [] && |goal.positions| == |goal.joints| && Unique(goal.joints) && "" !in goal.joints
  }

  /** Some answer from `from` on is not good. */
  ghost predicate SomeBad(group: Group, answers: seq<Answer>, from: nat)
    requires ValidGroup(group)
  {
    exists j | from <= j < |answers| :: !Good(group, answers[j])
  }

  /**
    The failure has its reason in what the turn was given since the answer at `from`, up to the
    time `at`. Unless the joints cannot be measured or the time is over, they are brought to
    rest, if only the SDK does it.
  */
  ghost predicate Founded(
    st: Static, session: Session, lease: Time, cycle: Cycle, at: Time, answers: seq<Answer>, from: nat,
    failure: Failure, stopped: bool)
  {
    && session.group in st.groups && ValidGroup(st.groups[session.group])
    && match failure
       case Unmeasured(code, read) =>
         && cycle.now <= read <= at && !Measures(st, session, cycle.feedback, read) && code != OK
         && (code == STALE_FEEDBACK <==>
               WellFormedFeedback(cycle.feedback) && !Fresh(cycle.feedback, read, st.config.feedbackMaxAge))
       case Late =>
         || at >= cycle.feedback.receivedAt + st.config.feedbackMaxAge
         || (at >= cycle.startedAt + st.config.period && at >= cycle.startedAt + st.config.maxControlPeriod)
         || ((session.request.kind == ServoJ || session.request.kind == ServoP) && at >= session.submittedAt + lease)
       case Overdue =>
         && session.request.kind != ServoJ && session.request.kind != ServoP
         && cycle.now - session.submittedAt > st.config.moveTimeout
         && (stopped || SomeBad(st.groups[session.group], answers, from))
       case Unwatchable =>
         session.request.kind == MoveJ && !session.started && !WatchableGoal(session.request.goal)
       case Refused(k, code) =>
         && from <= k < |answers| && StopsAt(st.groups[session.group], answers[k], code)
         && (forall j | from <= j < k :: Passes(st.groups[session.group], answers[j]))
         && (stopped || SomeBad(st.groups[session.group], answers, k + 1))
  }

  /** Nothing fails a turn that is given what it needs, in time. */
  lemma NothingFails(
    st: Static, session: Session, lease: Time, cycle: Cycle, at: Time, answers: seq<Answer>, from: nat,
    failure: Failure, stopped: bool)
    requires session.group in st.groups && ValidGroup(st.groups[session.group])
    requires forall read | cycle.now <= read <= at :: Measures(st, session, cycle.feedback, read)
    requires at < cycle.feedback.receivedAt + st.config.feedbackMaxAge
    requires at < cycle.startedAt + st.config.period || at < cycle.startedAt + st.config.maxControlPeriod
    requires session.request.kind == ServoJ || session.request.kind == ServoP ==> at < session.submittedAt + lease
    requires session.request.kind != ServoJ && session.request.kind != ServoP ==>
      cycle.now - session.submittedAt <= st.config.moveTimeout
    requires session.request.kind == MoveJ ==> WatchableGoal(session.request.goal)
    requires forall j | from <= j < |answers| :: Good(st.groups[session.group], answers[j])
    ensures !Founded(st, session, lease, cycle, at, answers, from, failure, stopped)
  {
    hide Measures, Good, StopsAt, Passes, ValidGroup, WatchableGoal, SomeBad;
    if Founded(st, session, lease, cycle, at, answers, from, failure, stopped) && failure.Refused? {
      StopsAtBadAnswers(st.groups[session.group], answers[failure.k], failure.code);
    }
  }

  lemma OneIsBad(group: Group, answers: seq<Answer>, from: nat, j: nat)
    requires ValidGroup(group) && from <= j < |answers| && !Good(group, answers[j])
    ensures SomeBad(group, answers, from)
  {
    hide Good, ValidGroup;
  }

  /** So do answers before it that let the turn go on, and the session's own progress since. */
  lemma FoundedSince(
    st: Static, before: Session, session: Session, lease: Time, cycle: Cycle, at: Time, answers: seq<Answer>,
    from: nat, mid: nat, failure: Failure, stopped: bool)
    requires Founded(st, session, lease, cycle, at, answers, mid, failure, stopped)
    requires from <= mid <= |answers| && session.request == before.request && session.group == before.group
    requires session.submittedAt == before.submittedAt && (before.started ==> session.started)
    requires forall j | from <= j < mid :: Passes(st.groups[session.group], answers[j])
    ensures Founded(st, before, lease, cycle, at, answers, from, failure, stopped)
  {
    hide Good, Passes, StopsAt, ValidGroup, WatchableGoal, WellFormedFeedback, Fresh, InRecoveryRange, Covers;
  }

  lemma LateIsFounded(
    st: Static, session: Session, lease: Time, cycle: Cycle, at: Time, answers: seq<Answer>, from: nat)
    requires session.group in st.groups && ValidGroup(st.groups[session.group])
    requires at >= DeadlineOf(st.config, session, lease, cycle.feedback.receivedAt, cycle.startedAt)
    ensures forall stopped :: Founded(st, session, lease, cycle, at, answers, from, Late, stopped)
  {
    DeadlineIsEarliest(st.config, session, lease, cycle.feedback.receivedAt, cycle.startedAt, at);
    hide DeadlineOf, ValidGroup;
  }

  lemma RefusalIsFounded(
    st: Static, session: Session, lease: Time, cycle: Cycle, at: Time, answers: seq<Answer>, from: nat, k: nat,
    code: Code, stopped: bool)
    requires session.group in st.groups && ValidGroup(st.groups[session.group])
    requires stopped || SomeBad(st.groups[session.group], answers, k + 1)
    requires from <= k < |answers| && StopsAt(st.groups[session.group], answers[k], code)
    requires forall j | from <= j < k :: Passes(st.groups[session.group], answers[j])
    ensures Founded(st, session, lease, cycle, at, answers, from, Refused(k, code), stopped)
  {
    hide Passes, StopsAt, SomeBad, ValidGroup;
  }

  // ---- What a turn returns ----

  /**
    The last answer decides: its output is taken, or the turn stops at it. Whatever was asked
    before, since the answer at `from`, let the turn go on and gave no output within the limits.
  */
  ghost predicate LastDecides(
    group: Group, answers: seq<Answer>, from: nat, candidate: JointCommand, code: Code, output: JointCommand)
    requires ValidGroup(group)
  {
    && from < |answers|
    && (forall j | from <= j < |answers| - 1 ::
          Passes(group, answers[j]) && (answers[j].ToShape? ==> !Good(group, answers[j])))
    && var last := answers[|answers| - 1];
       if code == OK then last.ToShape? && last.code == OK && last.asked == candidate && last.output == output
       else StopsAt(group, last, code)
  }

  /** What the check of an answered output makes of the turn. */
  lemma CheckDecides(
    group: Group, answers: seq<Answer>, from: nat, name: string, candidate: JointCommand, output: JointCommand,
    reference: Reference)
    requires ValidGroup(group) && from < |answers| && answers[|answers| - 1] == ToShape(name, candidate, OK, output)
    requires forall j | from <= j < |answers| - 1 ::
      Passes(group, answers[j]) && (answers[j].ToShape? ==> !Good(group, answers[j]))
    ensures LastDecides(group, answers, from, candidate, FinalCode(output, group, reference), output)
    ensures FinalCode(output, group, reference) != OK ==> !Good(group, answers[|answers| - 1])
  {
    hide FinalCode, ValidGroup;
    WithinIsAccepted(output, group, reference);
  }

  /** An output that did not pass the final RTC is not taken. */
  lemma UnmarkedDecides(
    group: Group, answers: seq<Answer>, from: nat, candidate: JointCommand, output: JointCommand)
    requires ValidGroup(group) && LastDecides(group, answers, from, candidate, OK, output) && !output.passedRtc
    ensures LastDecides(group, answers, from, candidate, INTERNAL_ERROR, output)
  {
    hide FinalCode, ValidGroup;
  }

  /**
    The output is the final RTC's answer at `k`, asked with the candidate the session's tick
    gave; it was asked again only because its first output does not lie within the limits.
  */
  ghost predicate Returned(group: Group, id: Id, answers: seq<Answer>, from: nat, k: nat, output: JointCommand)
    requires ValidGroup(group)
  {
    && from <= k < |answers| && answers[k].ToShape? && answers[k].code == OK && answers[k].output == output
    && (forall j | from <= j < k :: Passes(group, answers[j]) && (answers[j].ToShape? ==> !Good(group, answers[j])))
    && exists j | from <= j < k :: answers[j].ToTick? && answers[j].id == id && answers[j].candidate == answers[k].asked
  }

  lemma ReturnedShows(group: Group, id: Id, answers: seq<Answer>, from: nat, k: nat, output: JointCommand)
    requires ValidGroup(group) && Returned(group, id, answers, from, k, output)
    ensures k < |answers| && answers[k].ToShape? && answers[k].output == output
  {
    hide Passes, Good, ValidGroup;
  }

  /** An error of the SDK decides at once. */
  lemma SdkDecides(
    group: Group, answers: seq<Answer>, from: nat, candidate: JointCommand, code: Code, output: JointCommand)
    requires ValidGroup(group) && from == |answers| - 1 && answers[from].code == code != OK
    ensures LastDecides(group, answers, from, candidate, code, output)
  {
    hide ValidGroup;
  }

  lemma LastStops(
    group: Group, answers: seq<Answer>, from: nat, candidate: JointCommand, code: Code, output: JointCommand)
    requires ValidGroup(group) && LastDecides(group, answers, from, candidate, code, output) && code != OK
    ensures from < |answers| && StopsAt(group, answers[|answers| - 1], code)
    ensures forall j | from <= j < |answers| - 1 :: Passes(group, answers[j])
  {
    hide ValidGroup, Passes, Good, StopsAt;
  }

  lemma CandidatePasses(group: Group, answers: seq<Answer>, from: nat, id: Id, candidate: JointCommand)
    requires ValidGroup(group) && from < |answers| && answers[from] == ToTick(id, OK, candidate)
    requires !candidate.passedRtc && FinalCode(candidate, group, NoReference) == OK
    ensures Passes(group, answers[from])
  {
    hide ValidGroup, FinalCode;
  }

  /** After a candidate that may go on, the answer that decides is the output. */
  lemma LastIsReturned(
    group: Group, id: Id, answers: seq<Answer>, from: nat, candidate: JointCommand, output: JointCommand)
    requires ValidGroup(group) && from < |answers| && answers[from] == ToTick(id, OK, candidate)
    requires Passes(group, answers[from]) && LastDecides(group, answers, from + 1, candidate, OK, output)
    ensures Returned(group, id, answers, from, |answers| - 1, output)
  {
    hide ValidGroup, Passes, Good;
    assert answers[from].candidate == answers[|answers| - 1].asked;
  }

  /** What was answered before the session's tick, or after the output, changes nothing about it. */
  lemma ReturnedAmong(
    group: Group, id: Id, answers: seq<Answer>, from: nat, mid: nat, k: nat, output: JointCommand, more: seq<Answer>)
    requires ValidGroup(group) && Returned(group, id, answers, mid, k, output) && from <= mid && answers <= more
    requires forall j | from <= j < mid :: Passes(group, answers[j]) && !answers[j].ToShape?
    ensures Returned(group, id, more, from, k, output)
  {
    hide ValidGroup, Passes, Good;
    var j :| mid <= j < k && answers[j].ToTick? && answers[j].id == id && answers[j].candidate == answers[k].asked;
    assert more[j] == answers[j] && more[k] == answers[k];
    forall i | from <= i < k ensures Passes(group, more[i]) && (more[i].ToShape? ==> !Good(group, more[i])) {
      assert more[i] == answers[i];
    }
  }
}
