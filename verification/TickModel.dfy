/**
  What a control tick does, as relations between pipeline states: one winner's turn,
  the turns of all winners one after the other, and the final check of what is returned.
*/
module TickModel {
  import opened MotionTypes
  import opened Arbitration
  import opened ControlArbiters
  import opened LimitRecovery
  import opened SdkBackend
  import opened PipelineModel
  import opened TurnModel

  // ---- What one winner contributes to a tick ----

  /** An RTC output of the session's own joints that may be returned. */
  ghost predicate Publishable(st: Static, session: Session, command: JointCommand) {
    && session.group in st.groups && ValidGroup(st.groups[session.group])
    && session.joints == st.groups[session.group].joints
    && command.passedRtc && Shaped(command, st.groups[session.group])
    && forall i :: 0 <= i < |session.joints| ==>
         WithinWidened(
           command.positions[i], st.groups[session.group].lower[i], st.groups[session.group].upper[i],
           st.config.recovery.margin)
  }

  /** An RTC output that obeys the limits of the session's joints strictly. */
  ghost predicate Strict(st: Static, session: Session, command: JointCommand) {
    && session.group in st.groups && ValidGroup(st.groups[session.group])
    && session.joints == st.groups[session.group].joints
    && command.passedRtc && Shaped(command, st.groups[session.group])
    && forall i :: 0 <= i < |session.joints| ==>
         Inside(command.positions[i], st.groups[session.group].lower[i], st.groups[session.group].upper[i])
  }

  lemma CheckedIsStrict(st: Static, session: Session, command: JointCommand)
    requires ValidStatic(st) && session.group in st.groups && session.joints == st.groups[session.group].joints
    requires command.passedRtc && FinalCode(command, st.groups[session.group], NoReference) == OK
    ensures Strict(st, session, command)
  {
    var group := st.groups[session.group];
    forall i | 0 <= i < |session.joints| ensures Inside(command.positions[i], group.lower[i], group.upper[i]) {
      assert !Recovering(command, group, NoReference, i);
    }
  }

  lemma StrictIsPublishable(st: Static, session: Session, command: JointCommand)
    requires ValidStatic(st) && Strict(st, session, command)
    ensures Publishable(st, session, command)
  {
  }

  function IssueFor(
    config: Config, session: Session, lease: Time, command: JointCommand, token: nat, feedbackAt: Time, startedAt: Time,
    source: Source): Issue
  {
    var until := DeadlineOf(config, session, lease, feedbackAt, startedAt);
    Issue(
      command.(session := session.id, validUntil := Some(until), token := token),
      session.request.kind, session.serial, feedbackAt, startedAt, session.submittedAt, lease, source)
  }

  /** Between `s` and `t` only session `id`, its activity, its goal and the permits of its joints changed. */
  ghost predicate Local(s: State, t: State, id: Id) {
    && id in s.sessions
    && (forall joint :: joint in s.permits && joint !in s.sessions[id].joints && s.permits[joint].session != id ==>
          joint in t.permits && t.permits[joint] == s.permits[joint])
    && SameBut(s, t, {id})
    && (id in t.sessions ==> Continues(s.sessions[id], t.sessions[id]))
    && SameSettings(s, t)
  }

  /** Apart from the sessions named, nothing about sessions, their activity, outputs or goals changed. */
  ghost predicate SameBut(s: State, t: State, ids: set<Id>) {
    && t.sessions - ids == s.sessions - ids && t.active - ids == s.active - ids
    && t.outputs - ids == s.outputs - ids && t.current - ids == s.current - ids
    && t.goals - ids == s.goals - ids && t.histories - ids == s.histories - ids
  }

  ghost predicate SameSettings(s: State, t: State) {
    && t.enabled == s.enabled && t.generation == s.generation && t.published == s.published && t.created == s.created
    && t.arbiter.policies == s.arbiter.policies && s.nextToken <= t.nextToken
  }

  /** What `SameBut` says of one other session. */
  lemma Elsewhere(s: State, t: State, ids: set<Id>, other: Id)
    requires SameBut(s, t, ids) && other !in ids
    ensures (other in t.sessions <==> other in s.sessions)
    ensures other in s.sessions ==> t.sessions[other] == s.sessions[other]
    ensures other in t.active <==> other in s.active
    ensures (other in t.outputs <==> other in s.outputs)
    ensures other in s.outputs ==> t.outputs[other] == s.outputs[other]
    ensures (other in t.current <==> other in s.current)
    ensures other in s.current ==> t.current[other] == s.current[other]
    ensures (other in t.goals <==> other in s.goals) && (other in s.goals ==> t.goals[other] == s.goals[other])
    ensures other in t.histories <==> other in s.histories
    ensures other in s.histories ==> t.histories[other] == s.histories[other]
  {
    SameKey(s.sessions, t.sessions, ids, other);
    SameKey(s.outputs, t.outputs, ids, other);
    SameKey(s.current, t.current, ids, other);
    SameKey(s.goals, t.goals, ids, other);
    SameKey(s.histories, t.histories, ids, other);
    assert other in t.active <==> other in t.active - ids;
  }

  lemma SameKey<T>(a: map<Id, T>, b: map<Id, T>, ids: set<Id>, key: Id)
    requires b - ids == a - ids && key !in ids
    ensures (key in b <==> key in a) && (key in a ==> b[key] == a[key])
  {
    assert key in a <==> key in a - ids;
    assert key in b <==> key in b - ids;
    if key in a {
      assert (a - ids)[key] == a[key] && (b - ids)[key] == b[key];
    }
  }

  lemma SameButMore(s: State, t: State, u: State, ids: set<Id>, more: set<Id>)
    requires SameBut(s, t, ids) && SameBut(t, u, more)
    ensures SameBut(s, u, ids + more)
  {
    LessKeys(s.sessions, t.sessions, u.sessions, ids, more);
    LessKeys(s.outputs, t.outputs, u.outputs, ids, more);
    LessKeys(s.current, t.current, u.current, ids, more);
    LessKeys(s.goals, t.goals, u.goals, ids, more);
    LessKeys(s.histories, t.histories, u.histories, ids, more);
    assert u.active - (ids + more) == (u.active - more) - ids == (t.active - ids) - more == s.active - (ids + more);
  }

  lemma LessKeys<T>(a: map<Id, T>, b: map<Id, T>, c: map<Id, T>, ids: set<Id>, more: set<Id>)
    requires b - ids == a - ids && c - more == b - more
    ensures c - (ids + more) == a - (ids + more)
  {
    assert c - (ids + more) == (c - more) - ids;
    assert (b - more) - ids == (b - ids) - more;
    assert (a - ids) - more == a - (ids + more);
  }

  /** The same session, further along. */
  predicate Continues(held: Session, session: Session) {
    session == held.(started := session.started, last := session.last, recovering := session.recovering)
  }

  /** `c` was issued for `id` between `s` and `t`, from this cycle's inputs, and all its permits are still held. */
  ghost predicate IssuedFor(s: State, t: State, id: Id, c: JointCommand, cycle: Cycle) {
    && id in s.sessions && c.session == id && c.joints == s.sessions[id].joints
    && s.nextToken <= c.token < t.nextToken && Holds(t.permits, c) && Genuine(t, c)
    && FromInputs(s, id, t.issued[c.token], cycle)
  }

  /**
    An issued command is for the session, and its deadline was taken from the cycle's feedback
    and start and a Servo's own lease.
  */
  ghost predicate FromInputs(s: State, id: Id, issue: Issue, cycle: Cycle)
    requires id in s.sessions
  {
    var session := s.sessions[id];
    && issue.kind == session.request.kind && issue.serial == session.serial && issue.submittedAt == session.submittedAt
    && issue.feedbackAt == cycle.feedback.receivedAt && issue.startedAt == cycle.startedAt
    && session.endpoint in s.arbiter.policies && issue.lease == s.arbiter.policies[session.endpoint].lease
  }

  /** One command more, issued for `id`. */
  ghost predicate Appended(s: State, t: State, id: Id, cycle: Cycle) {
    && |t.commands| == |s.commands| + 1 && t.commands[..|s.commands|] == s.commands
    && IssuedFor(s, t, id, t.commands[|s.commands|], cycle)
  }

  /** The command carries the last of the outputs of the session's running start, and they are all its trail. */
  ghost predicate Latest(t: State, id: Id, c: JointCommand) {
    && id in t.sessions && id in t.outputs && id in t.current && c.token in t.issued
    && t.issued[c.token].source == Along(t.current[id], t.outputs[id])
    && t.sessions[id].last.positions == c.positions
  }

  /** The outputs of the session's start have `n` more entries; those of a start begun in between begin at rest. */
  ghost predicate Grown(s: State, t: State, id: Id, n: nat) {
    && id in t.outputs && id in t.current
    && if t.current[id] < |s.starts|
       then
         && id in s.outputs && id in s.current && t.current[id] == s.current[id]
         && |t.outputs[id]| == |s.outputs[id]| + n && s.outputs[id] <= t.outputs[id]
       else |t.outputs[id]| == 1 + n
  }

  /** The session goes on, and nothing was returned or reported about its end. */
  ghost predicate GoesOn(s: State, t: State, id: Id) {
    Local(s, t, id) && t.commands == s.commands && t.pending == s.pending && id in t.active && id in t.sessions
  }

  /** And it has had no output in between. */
  ghost predicate Steady(s: State, t: State, id: Id) { GoesOn(s, t, id) && Grown(s, t, id, 0) }

  /** The session goes on with one more command, which carries its one more output. */
  ghost predicate Produced(s: State, t: State, id: Id, cycle: Cycle) {
    && Local(s, t, id) && Appended(s, t, id, cycle) && t.pending == s.pending && id in t.active && id in t.sessions
    && Grown(s, t, id, 1) && Latest(t, id, t.commands[|s.commands|])
  }

  /** The one more command is a stop. */
  ghost predicate Stopped(s: State, t: State, id: Id, cycle: Cycle) {
    Appended(s, t, id, cycle) && t.issued[t.commands[|s.commands|].token].source == Stop
  }

  /** The session was aborted, after at most a stop command. */
  ghost predicate Aborted(s: State, t: State, id: Id, cycle: Cycle) {
    && Local(s, t, id) && id !in t.sessions
    && (t.commands == s.commands || Stopped(s, t, id, cycle))
    && exists code :: t.pending == s.pending + [Event(id, ABORTED, code, s.sessions[id].serial)]
  }

  /** The session succeeded, keeping its last command. */
  ghost predicate Succeeded(s: State, t: State, id: Id, cycle: Cycle) {
    && Local(s, t, id) && id !in t.sessions
    && Appended(s, t, id, cycle) && s.sessions[id].serial in t.successes
    && t.pending == s.pending + [Event(id, SUCCEEDED, OK, s.sessions[id].serial)]
  }

  /** What a winner makes of a tick: it ends, goes on with one command, or is a Servo still waiting to be retried. */
  ghost predicate Processed(s: State, t: State, id: Id, cycle: Cycle) {
    || Aborted(s, t, id, cycle)
    || Succeeded(s, t, id, cycle)
    || Produced(s, t, id, cycle)
    || (id in s.sessions && t == s && s.sessions[id].request.kind.IsServo() && !s.sessions[id].started)
  }

  lemma LocalTransitive(s: State, t: State, u: State, id: Id)
    requires Local(s, t, id) && (t == u || Local(t, u, id))
    ensures Local(s, u, id)
  {
    hide SameBut;
    if t != u {
      SameButMore(s, t, u, {id}, {id});
      assert {id} + {id} == {id};
    }
  }

  lemma LocalKeepsSession(s: State, t: State, id: Id)
    requires Local(s, t, id) && id in t.sessions
    ensures id in s.sessions && Continues(s.sessions[id], t.sessions[id]) && SameSettings(s, t)
  {
    hide SameBut;
  }

  lemma GrownTransitive(s: State, t: State, u: State, id: Id, n: nat)
    requires Grown(s, t, id, 0) && Grown(t, u, id, n) && StartsGrow(s.starts, t.starts)
    ensures Grown(s, u, id, n)
  {
  }

  lemma IssuedThrough(s: State, t: State, u: State, id: Id, c: JointCommand, cycle: Cycle)
    requires id in s.sessions && id in t.sessions && Continues(s.sessions[id], t.sessions[id]) && SameSettings(s, t)
    requires IssuedFor(t, u, id, c, cycle)
    ensures IssuedFor(s, u, id, c, cycle)
  {
    hide Holds, Genuine;
  }

  lemma AppendedThrough(s: State, t: State, u: State, id: Id, cycle: Cycle)
    requires GoesOn(s, t, id) && Appended(t, u, id, cycle)
    ensures Appended(s, u, id, cycle)
  {
    hide IssuedFor, Local;
    LocalKeepsSession(s, t, id);
    IssuedThrough(s, t, u, id, u.commands[|t.commands|], cycle);
  }

  lemma GoesOnThenAborted(s: State, t: State, u: State, id: Id, cycle: Cycle)
    requires GoesOn(s, t, id) && Aborted(t, u, id, cycle)
    ensures Aborted(s, u, id, cycle)
  {
    hide Appended, Local;
    LocalTransitive(s, t, u, id);
    LocalKeepsSession(s, t, id);
    if Appended(t, u, id, cycle) { AppendedThrough(s, t, u, id, cycle); }
  }

  lemma SteadyThenProduced(s: State, t: State, u: State, id: Id, cycle: Cycle)
    requires Steady(s, t, id) && Produced(t, u, id, cycle) && Evolves(s, t)
    ensures Produced(s, u, id, cycle)
  {
    hide Appended, Local, Grown, Latest, StartsGrow, PermitsOnlyFresh;
    LocalTransitive(s, t, u, id);
    AppendedThrough(s, t, u, id, cycle);
    GrownTransitive(s, t, u, id, 1);
  }

  /** A stop command for the session. */
  lemma AppendStop(st: Static, s: State, gap: Gap, id: Id, lease: Time, command: JointCommand, cycle: Cycle)
    requires id in s.sessions && Strict(st, s.sessions[id], command) && ValidStatic(st)
    requires s.sessions[id].id == id && s.sessions[id].endpoint in s.arbiter.policies
    requires lease == s.arbiter.policies[s.sessions[id].endpoint].lease
    requires InvX(st, s, gap)
    ensures var issue := IssueFor(
              st.config, s.sessions[id], lease, command, s.nextToken, cycle.feedback.receivedAt, cycle.startedAt, Stop);
            var t := Append(s, issue);
            InvX(st, t, gap) && Evolves(s, t) && Local(s, t, id) && Stopped(s, t, id, cycle)
            && t.sessions == s.sessions && t.active == s.active && t.pending == s.pending
  {
    hide InvX, Evolves, ValidStatic, IssueOk;
    var issue := IssueFor(
      st.config, s.sessions[id], lease, command, s.nextToken, cycle.feedback.receivedAt, cycle.startedAt, Stop);
    StrictIsPublishable(st, s.sessions[id], command);
    PublishableIssue(st, s.sessions[id], lease, command, s.nextToken, cycle.feedback.receivedAt, cycle.startedAt, Stop);
    IssueOfSession(st, s, gap, id, issue);
    AppendKeeps(st, s, gap, issue);
    hide Publishable, Strict;
    AppendIsLocal(s, issue, id, cycle);
  }

  lemma AppendIsLocal(s: State, issue: Issue, id: Id, cycle: Cycle)
    requires id in s.sessions && issue.command.joints == s.sessions[id].joints && issue.command.session == id
    requires issue.command.token == s.nextToken && FromInputs(s, id, issue, cycle)
    requires Holds(Append(s, issue).permits, issue.command)
    ensures Local(s, Append(s, issue), id) && Appended(s, Append(s, issue), id, cycle)
    ensures Append(s, issue).commands == s.commands + [issue.command] && Append(s, issue).issued[s.nextToken] == issue
  {
    hide Holds, FromInputs;
  }

  lemma PublishableIssue(
    st: Static, session: Session, lease: Time, command: JointCommand, token: nat, feedbackAt: Time, startedAt: Time,
    source: Source)
    requires ValidStatic(st) && Publishable(st, session, command)
    requires SourceOk(source, command.positions, st.groups[session.group], st.config.recovery.margin)
    ensures IssueOk(IssueFor(st.config, session, lease, command, token, feedbackAt, startedAt, source), st)
    ensures command.joints == session.joints
  {
    hide SourceOk, WithinWidened;
  }

  /** Ending a session is local to it. */
  lemma TerminateLocal(s: State, id: Id, state: SessionState, code: Code, preserve: bool)
    requires id in s.sessions
    ensures Local(s, Terminate(s, id, state, code, preserve), id)
  {
    hide SuccessOf;
  }

  lemma EndAborts(s: State, id: Id, code: Code, preserve: bool, cycle: Cycle)
    requires id in s.sessions
    ensures Aborted(s, Terminate(s, id, ABORTED, code, preserve), id, cycle)
  {
    hide Local;
    TerminateLocal(s, id, ABORTED, code, preserve);
  }

  /** The session's end is the one event reported between `s` and `t`. */
  ghost predicate EndedAs(s: State, t: State, id: Id, state: SessionState, code: Code) {
    && id in s.sessions && id !in t.sessions && t.pending == s.pending + [Event(id, state, code, s.sessions[id].serial)]
  }

  /** The session was aborted for this failure, with its code. */
  ghost predicate FailedAs(s: State, t: State, id: Id, cycle: Cycle, failure: Failure) {
    Aborted(s, t, id, cycle) && EndedAs(s, t, id, ABORTED, CodeOf(failure))
  }

  /** A session that only went on before fails as itself. */
  lemma SteadyThenFailed(s: State, t: State, u: State, id: Id, cycle: Cycle, failure: Failure)
    requires GoesOn(s, t, id) && FailedAs(t, u, id, cycle, failure)
    ensures FailedAs(s, u, id, cycle, failure)
  {
    GoesOnThenAborted(s, t, u, id, cycle);
    hide Aborted, SameBut;
  }

  lemma EndFails(s: State, id: Id, failure: Failure, preserve: bool, cycle: Cycle)
    requires id in s.sessions
    ensures FailedAs(s, Terminate(s, id, ABORTED, CodeOf(failure), preserve), id, cycle, failure)
  {
    hide Aborted, Terminate, EndedAs;
    EndAborts(s, id, CodeOf(failure), preserve, cycle);
    TerminateEnds(s, id, ABORTED, CodeOf(failure), preserve);
  }

  /** What the backend holds changes nothing about how the session fails. */
  lemma StartedThenFailed(s: State, u: State, id: Id, cycle: Cycle, failure: Failure)
    requires id in s.sessions && FailedAs(BackendStarted(s, id), u, id, cycle, failure)
    ensures FailedAs(s, u, id, cycle, failure)
  {
    StartedThenAborted(s, u, id, cycle);
    hide Aborted;
  }

  lemma TerminateEnds(s: State, id: Id, state: SessionState, code: Code, preserve: bool)
    requires id in s.sessions
    ensures EndedAs(s, Terminate(s, id, state, code, preserve), id, state, code)
  {
  }

  /** A session that only went on in between ends as itself. */
  lemma ProducedThenEnded(s: State, t: State, u: State, id: Id, state: SessionState, code: Code, cycle: Cycle)
    requires Produced(s, t, id, cycle) && EndedAs(t, u, id, state, code)
    ensures EndedAs(s, u, id, state, code)
  {
    hide Local, Appended, Grown, Latest;
    LocalKeepsSession(s, t, id);
  }

  lemma EndedThrough(s: State, t: State, u: State, id: Id, code: Code)
    requires t.sessions == s.sessions && t.pending == s.pending && EndedAs(t, u, id, ABORTED, code)
    ensures EndedAs(s, u, id, ABORTED, code)
  {
  }

  lemma SuccessEnds(s: State, t: State, id: Id, cycle: Cycle)
    requires Produced(s, t, id, cycle)
    ensures EndedAs(s, Terminate(t, id, SUCCEEDED, OK, true), id, SUCCEEDED, OK)
  {
    TerminateEnds(t, id, SUCCEEDED, OK, true);
    ProducedThenEnded(s, t, Terminate(t, id, SUCCEEDED, OK, true), id, SUCCEEDED, OK, cycle);
  }

  /** Aborting after a stop command was returned keeps that command publishable. */
  lemma StopAborts(s: State, t: State, id: Id, code: Code, cycle: Cycle)
    requires Local(s, t, id) && Stopped(s, t, id, cycle) && t.pending == s.pending && t.sessions == s.sessions
    ensures Aborted(s, Terminate(t, id, ABORTED, code, true), id, cycle)
  {
    hide IssuedFor, SameBut;
    var u := Terminate(t, id, ABORTED, code, true);
    assert id in t.sessions;
    hide Local;
    TerminateLocal(t, id, ABORTED, code, true);
    LocalTransitive(s, t, u, id);
    IssueOutlivesEnd(s, t, u, id, t.commands[|s.commands|], cycle);
  }

  /** A command stays publishable when only its session ends and its permits are preserved. */
  lemma IssueOutlivesEnd(s: State, t: State, u: State, id: Id, c: JointCommand, cycle: Cycle)
    requires IssuedFor(s, t, id, c, cycle) && u.permits == t.permits && u.issued == t.issued
    requires u.nextToken == t.nextToken
    ensures IssuedFor(s, u, id, c, cycle)
  {
    hide Holds, FromInputs;
  }

  lemma EndSucceeds(s: State, t: State, id: Id, cycle: Cycle)
    requires Produced(s, t, id, cycle) && id in t.histories
    ensures Succeeded(s, Terminate(t, id, SUCCEEDED, OK, true), id, cycle)
  {
    hide Local, IssuedFor, Grown, Latest;
    var u := Terminate(t, id, SUCCEEDED, OK, true);
    LocalKeepsSession(s, t, id);
    TerminateLocal(t, id, SUCCEEDED, OK, true);
    LocalTransitive(s, t, u, id);
    IssueOutlivesEnd(s, t, u, id, t.commands[|s.commands|], cycle);
  }

  /** Withdrawing the command just produced leaves a session that goes on. */
  lemma PopGoesOn(s: State, t: State, id: Id, cycle: Cycle)
    requires Produced(s, t, id, cycle)
    ensures |t.commands| > 0 && GoesOn(s, t.(commands := t.commands[..|t.commands| - 1]), id)
  {
    hide IssuedFor, SameBut, Grown, Latest;
    SameButCommands(s, t, {id});
  }

  lemma SameButCommands(s: State, t: State, ids: set<Id>)
    requires SameBut(s, t, ids)
    ensures forall commands :: SameBut(s, t.(commands := commands), ids)
  {
  }

  lemma PopKeeps(st: Static, s: State, gap: Gap, commands: seq<JointCommand>)
    requires InvX(st, s, gap)
    ensures InvX(st, s.(commands := commands), gap) && Evolves(s, s.(commands := commands))
  {
    hide Agree, BackendAgrees, StartsOk, RequestsOk, ActiveDisjoint, WatchOk, PermitsOk, LogOk, FreshLog, EventsOk,
      SuccessListed, SuccessesOk, RecoveryOk, IssuedOk, TrailsOk, StartsGrow;
    EvolvesReflexive(s);
  }

  // ---- Starting the backend of a winner ----

  /** Feedback that may seed a session: usable, covering the session's joints and within the recovery range. */
  ghost predicate Usable(st: Static, session: Session, selected: Feedback) {
    && session.group in st.groups && ValidGroup(st.groups[session.group])
    && session.joints == st.groups[session.group].joints
    && |selected.positions| == |session.joints| == |selected.velocities|
    && forall i :: 0 <= i < |session.joints| ==>
         st.groups[session.group].lower[i] - st.config.recovery.margin <= selected.positions[i]
           <= st.groups[session.group].upper[i] + st.config.recovery.margin
  }

  function Seeded(selected: Feedback): JointTarget {
    JointTarget(selected.joints, selected.positions, selected.velocities, seq(|selected.positions|, i => 0.0))
  }

  lemma SelectionIsUsable(st: Static, session: Session, feedback: Feedback, selected: Feedback)
    requires session.group in st.groups && ValidGroup(st.groups[session.group])
    requires session.joints == st.groups[session.group].joints
    requires WellFormedFeedback(feedback) && Covers(feedback, session.joints)
    requires IsSelection(selected, feedback, session.joints)
    requires InRecoveryRange(feedback, st.groups[session.group], st.config.recovery.margin)
    ensures Usable(st, session, selected)
  {
  }

  lemma SeedStarts(st: Static, session: Session, selected: Feedback)
    requires Usable(st, session, selected)
    ensures LastOk(session, Seeded(selected), st.groups)
    ensures SessionOutputs(st.groups[session.group], st.config.recovery.margin, [Seeded(selected).positions])
  {
  }

  lemma GroupOf(st: Static, session: Session, selected: Feedback)
    requires Usable(st, session, selected)
    ensures session.group in st.groups && ValidGroup(st.groups[session.group])
    ensures |selected.positions| == |st.groups[session.group].joints| == |selected.velocities|
  {
  }

  lemma LastShape(st: Static, session: Session)
    requires LastOk(session, session.last, st.groups)
    ensures |session.last.positions| == |st.groups[session.group].joints|
  {
  }

  /** No other active session shares a joint with this one. */
  ghost predicate Apart(s: State, id: Id) {
    id in s.sessions &&
    forall other :: other in s.active && other in s.sessions && other != id ==>
      !Overlaps(s.sessions[other].joints, s.sessions[id].joints)
  }

  /** Other active sessions share no joint with one that is only about to be active. */
  lemma OthersApart(st: Static, s: State, id: Id)
    requires Apart(s, id) && InvX(st, s, Gap({}, {}, {id}))
    ensures id !in s.active && id in s.current && s.current[id] < |s.starts|
    ensures forall other :: other in s.active && other in s.sessions ==>
      !Overlaps(s.sessions[other].joints, s.sessions[id].joints)
  {
    hide Agree, RequestsOk, ActiveDisjoint, WatchOk, PermitsOk, LogOk, FreshLog, EventsOk, SuccessListed, SuccessesOk,
      RecoveryOk, IssuedOk, TrailsOk, Overlaps, OwnStart;
  }

  lemma AlreadySteady(st: Static, s: State, id: Id)
    requires id in s.sessions && s.sessions[id].started && InvX(st, s, CLOSED)
    ensures Steady(s, s, id)
  {
    hide Agree, RequestsOk, ActiveDisjoint, WatchOk, PermitsOk, LogOk, FreshLog, EventsOk, SuccessListed, SuccessesOk,
      IssuedOk, TrailsOk, RecoveryAt, OwnStart;
  }

  /** That the backend already holds the session changes nothing about how the session may end. */
  lemma StartedThenAborted(s: State, u: State, id: Id, cycle: Cycle)
    requires id in s.sessions && Aborted(BackendStarted(s, id), u, id, cycle)
    ensures Aborted(s, u, id, cycle)
  {
    hide Appended, Local;
    var t := BackendStarted(s, id);
    StartIsLocal(s, id);
    LocalTransitive(s, t, u, id);
    if Appended(t, u, id, cycle) { StartedThenAppended(s, u, id, cycle); }
  }

  lemma StartIsLocal(s: State, id: Id)
    requires id in s.sessions
    ensures Local(s, BackendStarted(s, id), id)
  {
    assert BackendStarted(s, id).current - {id} == s.current - {id};
  }

  lemma StartedThenAppended(s: State, u: State, id: Id, cycle: Cycle)
    requires id in s.sessions && Appended(BackendStarted(s, id), u, id, cycle)
    ensures Appended(s, u, id, cycle)
  {
    hide Holds;
  }

  lemma ActivateLocal(s: State, t: State, id: Id, last: JointTarget, recovering: bool)
    requires id in s.sessions
    requires t == Activate(BackendStarted(s, id), id, last, recovering).(goals := t.goals, histories := t.histories)
    requires t.goals - {id} == s.goals - {id} && t.histories - {id} == s.histories - {id}
    ensures Steady(s, t, id)
  {
    assert t.current - {id} == s.current - {id} && t.sessions - {id} == s.sessions - {id};
    assert t.outputs - {id} == s.outputs - {id} && t.active - {id} == s.active - {id};
  }

  /** A MoveJ becomes active and watched. */
  lemma ActivateWatched(st: Static, s: State, id: Id, last: JointTarget, recovering: bool, goal: Goals.Goal)
    requires id in s.sessions && GoalOf(s.sessions[id], goal) && !goal.cartesian && InvX(st, s, Gap({}, {}, {id}))
    requires LastOk(s.sessions[id], last, st.groups)
    requires SessionOutputs(st.groups[s.sessions[id].group], st.config.recovery.margin, [last.positions])
    requires forall other :: other in s.active && other in s.sessions ==>
      !Overlaps(s.sessions[other].joints, s.sessions[id].joints)
    ensures var t := PipelineModel.Watch(Activate(s, id, last, recovering), id, goal, []);
            InvX(st, t, CLOSED) && Evolves(s, t)
  {
    hide InvX, Evolves, GoalOf, LastOk, SessionOutputs, Overlaps;
    var watched := PipelineModel.Watch(s, id, goal, []);
    WatchKeeps(st, s, Gap({}, {}, {id}), id, goal, []);
    ActivateKeeps(st, watched, id, last, recovering);
    EvolvesTransitive(s, watched, Activate(watched, id, last, recovering));
    assert Activate(watched, id, last, recovering) ==
      PipelineModel.Watch(Activate(s, id, last, recovering), id, goal, []);
  }

  lemma ActivateShows(s: State, id: Id, last: JointTarget, recovering: bool)
    requires id in s.sessions
    ensures var t := Activate(s, id, last, recovering);
            && id in t.sessions && JointGoal(t.sessions[id]) == JointGoal(s.sessions[id])
            && t.sessions[id].request == s.sessions[id].request
  {
  }

  /** A session that ends as soon as it was activated ends as if only its start had been reported. */
  lemma ActivateAborted(st: Static, s: State, id: Id, last: JointTarget, recovering: bool, code: Code, cycle: Cycle)
    requires id in s.sessions && InvX(st, s, Gap({}, {}, {id}))
    ensures var u := Terminate(Activate(s, id, last, recovering), id, ABORTED, code, false);
            InvX(st, u, CLOSED) && Evolves(s, u) && Aborted(s, u, id, cycle) && EndedAs(s, u, id, ABORTED, code)
            && u.starts == s.starts
  {
    hide InvX, Evolves, Aborted, Terminate, EndedAs;
    var reported := s.(delivered := s.delivered + [EventOf(s, id, SessionState.RUNNING)]);
    var u := Terminate(reported, id, ABORTED, code, false);
    ReportKeeps(st, s, Gap({}, {}, {id}), id);
    assert Gap({}, {}, {id}).Without(id) == CLOSED;
    TerminateKeeps(st, reported, Gap({}, {}, {id}), id, ABORTED, code, false);
    EvolvesTransitive(s, reported, u);
    EndAborts(reported, id, code, false, cycle);
    ReportedThenAborted(s, reported, u, id, cycle);
    TerminateEnds(s, id, ABORTED, code, false);
    TerminateEnds(reported, id, ABORTED, code, false);
    TerminateFrame(reported, id, ABORTED, code, false);
    ActivateForgotten(s, id, last, recovering, code);
    assert EndedAs(s, u, id, ABORTED, code) by { ReportedThenEnded(s, reported, u, id, code); }
  }

  lemma ActivateForgotten(s: State, id: Id, last: JointTarget, recovering: bool, code: Code)
    requires id in s.sessions
    ensures Terminate(Activate(s, id, last, recovering), id, ABORTED, code, false) ==
      Terminate(s.(delivered := s.delivered + [EventOf(s, id, SessionState.RUNNING)]), id, ABORTED, code, false)
  {
    var t := Activate(s, id, last, recovering);
    assert t.sessions - {id} == s.sessions - {id} && t.outputs - {id} == s.outputs - {id};
    assert t.active - {id} == s.active - {id};
  }

  lemma ReportedThenEnded(s: State, t: State, u: State, id: Id, code: Code)
    requires t == s.(delivered := t.delivered) && EndedAs(t, u, id, ABORTED, code)
    ensures EndedAs(s, u, id, ABORTED, code)
  {
  }

  lemma ReportedThenAborted(s: State, t: State, u: State, id: Id, cycle: Cycle)
    requires t == s.(delivered := t.delivered) && Aborted(t, u, id, cycle)
    ensures Aborted(s, u, id, cycle)
  {
    hide Holds;
  }

  // ---- Reports and goals of a running session ----

  /** The session's running start, or the one it gets next. */
  ghost function RunOf(s: State, id: Id): nat { if id in s.current then s.current[id] else |s.starts| }

  /** The SDK's reports between `s` and `t` completed the path of the session's start. */
  ghost predicate NewlyReached(s: State, t: State, id: Id) {
    var k := RunOf(s, id);
    && k < |t.starts| && PathReached(t.starts[k])
    && (k < |s.starts| ==> |t.starts[k].reports| > |s.starts[k].reports|)
  }

  /** The session was started in between, and nothing has been reported of it yet. */
  ghost predicate BegunSince(s: State, t: State, id: Id) {
    && id !in s.current && id in t.current && t.current[id] == |s.starts| < |t.starts|
    && t.starts[|s.starts|].reports == []
  }

  /** It runs on the start it had, or the one it got. */
  ghost predicate RunsOn(s: State, t: State, id: Id) { id in t.current && t.current[id] == RunOf(s, id) }

  lemma ReachedSince(s: State, t: State, u: State, id: Id)
    requires s == t || BegunSince(s, t, id)
    ensures NewlyReached(s, u, id) <==> NewlyReached(t, u, id)
    ensures id in t.current && u.current == t.current ==> RunsOn(s, u, id)
  {
  }

  lemma StartsAnew(st: Static, s: State, t: State, id: Id)
    requires id in s.sessions && Steady(s, t, id) && InvX(st, s, CLOSED)
    requires if s.sessions[id].started then t == s else t.starts == s.starts + [StartOf(s.sessions[id])]
    requires InvX(st, t, CLOSED)
    ensures s == t || BegunSince(s, t, id)
  {
    hide InvX, Local;
    ArbiterHolds(st, s, CLOSED);
    ArbiterHolds(st, t, CLOSED);
    if s != t { ActiveIsSession(st, t, CLOSED, id); }
  }

  /** What the SDK reports is local to nobody. */
  lemma HeardIsSteady(s: State, id: Id, starts: seq<Start>)
    requires id in s.sessions && Steady(s, s, id)
    ensures Steady(s, s.(starts := starts), id)
  {
  }

  lemma PathChanges(s: State, id: Id, goal: Goals.Goal)
    requires id in s.current
    ensures var t := WatchPath(s, id, goal);
            && t == s.(goals := t.goals, histories := t.histories, via := t.via)
            && t.goals - {id} == s.goals - {id} && t.histories - {id} == s.histories - {id}
  {
  }

  lemma SameReached(s: State, t: State, u: State, id: Id)
    requires u.starts == t.starts
    ensures NewlyReached(s, u, id) <==> NewlyReached(s, t, id)
  {
  }

  lemma WatchLocal(s: State, t: State, id: Id)
    requires id in s.sessions && t == s.(goals := t.goals, histories := t.histories, via := t.via)
    requires t.goals - {id} == s.goals - {id} && t.histories - {id} == s.histories - {id}
    ensures Local(s, t, id) && (Steady(s, s, id) ==> Steady(s, t, id))
  {
  }

  lemma ProducedThenWatched(s: State, t: State, u: State, id: Id, cycle: Cycle)
    requires Produced(s, t, id, cycle) && u == t.(goals := u.goals, histories := u.histories, via := u.via)
    requires u.goals - {id} == t.goals - {id} && u.histories - {id} == t.histories - {id}
    ensures Produced(s, u, id, cycle)
  {
    hide Local, Holds, FromInputs;
    LocalKeepsSession(s, t, id);
    WatchLocal(t, u, id);
    LocalTransitive(s, t, u, id);
  }

  // ---- One output of a running session ----

  /** What a running session brings to the limit checks. */
  lemma RunningInputs(st: Static, s: State, gap: Gap, id: Id)
    requires ValidStatic(st) && InvX(st, s, gap) && id in s.active
    ensures id in s.sessions && id in s.outputs && id in s.current && s.current[id] < |s.starts|
    ensures id != "" && s.sessions[id].id == id && s.sessions[id].endpoint in s.arbiter.policies
    ensures s.sessions[id].group in st.groups && ValidGroup(st.groups[s.sessions[id].group])
    ensures LastOk(s.sessions[id], s.sessions[id].last, st.groups)
    ensures s.sessions[id].joints == st.groups[s.sessions[id].group].joints
    ensures var limits := s.sessions[id].request.velocityLimits;
            limits == [] || |limits| == |st.groups[s.sessions[id].group].joints|
    ensures OwnStart(s.sessions[id], s.starts[s.current[id]])
    ensures s.outputs[id] != [] && s.outputs[id][|s.outputs[id]| - 1] == s.sessions[id].last.positions
    ensures SessionOutputs(st.groups[s.sessions[id].group], st.config.recovery.margin, s.outputs[id])
  {
    hide RequestsOk, ActiveDisjoint, WatchOk, PermitsOk, LogOk, FreshLog, EventsOk, SuccessListed, SuccessesOk,
      IssuedOk, TrailsOk, Inv, SessionOutputs, ClaimAgrees, ValidGroup, OwnStart;
    ActiveIsSession(st, s, gap, id);
    assert SessionOk(s.arbiter.policies, st.groups, id, s.sessions[id]);
    assert RecoveryAt(s.sessions[id], s.outputs[id], st.groups, st.config.recovery.margin);
  }

  /** The output may follow the session's last one. */
  ghost predicate Follows(st: Static, session: Session, output: JointCommand) {
    && session.group in st.groups && ValidGroup(st.groups[session.group])
    && output.passedRtc && Shaped(output, st.groups[session.group])
    && NextPositions(st.groups[session.group], session.last.positions, output.positions)
  }

  function TargetOf(output: JointCommand): JointTarget {
    var rest := seq(|output.joints|, i => 0.0);
    JointTarget(
      output.joints, output.positions,
      if output.velocities == [] then rest else output.velocities,
      if output.accelerations == [] then rest else output.accelerations)
  }

  /** An accepted output lies in the widened limits, because the session's outputs since its start do. */
  lemma FollowingIsPublishable(st: Static, s: State, gap: Gap, id: Id, output: JointCommand)
    requires id in s.active && id in s.sessions && Follows(st, s.sessions[id], output)
    requires ValidStatic(st) && InvX(st, s, gap)
    ensures Publishable(st, s.sessions[id], output)
    ensures LastOk(s.sessions[id], TargetOf(output), st.groups)
    ensures id in s.outputs && |s.outputs[id]| >= 1
    ensures SessionOutputs(
      st.groups[s.sessions[id].group], st.config.recovery.margin, s.outputs[id] + [output.positions])
  {
    hide InvX, WithinWidened, SessionOutputs, NextPositions;
    RunningInputs(st, s, gap, id);
    var group, margin := st.groups[s.sessions[id].group], st.config.recovery.margin;
    SessionGrows(group, margin, s.outputs[id], output.positions);
    var outputs := s.outputs[id] + [output.positions];
    forall i | 0 <= i < |group.joints|
      ensures WithinWidened(output.positions[i], group.lower[i], group.upper[i], margin)
    {
      OutputsStayWithinWidenedLimits(group, margin, outputs, |outputs| - 1, i);
    }
  }

  /** One command more, which is the output but for its session, deadline and token. */
  ghost predicate Carries(after: seq<JointCommand>, before: seq<JointCommand>, output: JointCommand) {
    && |after| == |before| + 1 && after[..|before|] == before
    && var last := after[|before|];
       last == output.(session := last.session, validUntil := last.validUntil, token := last.token)
  }

  /** The command is the session's and may be published exactly before the deadline of its inputs. */
  predicate Stamped(config: Config, session: Session, lease: Time, cycle: Cycle, c: JointCommand) {
    && c.session == session.id
    && c.validUntil == Some(DeadlineOf(config, session, lease, cycle.feedback.receivedAt, cycle.startedAt))
  }

  /** The newest command carries the final RTC's answer at `k`, with its deadline. */
  ghost predicate Given(
    st: Static, session: Session, lease: Time, cycle: Cycle, answers: seq<Answer>, k: int,
    before: seq<JointCommand>, after: seq<JointCommand>)
  {
    && 0 <= k < |answers| && answers[k].ToShape? && Carries(after, before, answers[k].output)
    && Stamped(st.config, session, lease, cycle, after[|before|])
  }

  /** There is a command more than `n`, or the SDK did not bring the joints to rest. */
  ghost predicate Braked(
    st: Static, session: Session, answers: seq<Answer>, from: nat, n: int, commands: seq<JointCommand>)
  {
    && session.group in st.groups && ValidGroup(st.groups[session.group])
    && (|commands| > n || SomeBad(st.groups[session.group], answers, from))
  }

  /** What a turn that neither failed nor waits made of the output the session got. */
  ghost predicate Turned(
    st: Static, session: Session, lease: Time, cycle: Cycle, answers: seq<Answer>, from: nat, shaped: int,
    replaced: bool, before: seq<JointCommand>, after: seq<JointCommand>)
  {
    && session.group in st.groups && ValidGroup(st.groups[session.group])
    && 0 <= shaped < |answers| && answers[shaped].ToShape?
    && Returned(st.groups[session.group], session.id, answers, from, shaped, answers[shaped].output)
    && if replaced then Braked(st, session, answers, shaped + 1, |before|, after)
       else Given(st, session, lease, cycle, answers, shaped, before, after)
  }

  /** The turn of a session that was only now started has its first answers from that. */
  lemma TurnsSince(
    st: Static, earlier: Session, session: Session, lease: Time, cycle: Cycle, early: seq<Answer>, answers: seq<Answer>,
    from: nat, shaped: int, before: seq<JointCommand>, after: seq<JointCommand>)
    requires Turned(st, session, lease, cycle, answers, |early|, shaped, false, before, after)
    requires Continues(earlier, session) && early <= answers && Passing(st.groups[session.group], early, from)
    ensures Turned(st, earlier, lease, cycle, answers, from, shaped, false, before, after)
  {
    hide Returned, Carries, ValidGroup, Passes;
    assert forall j | from <= j < |early| :: answers[j] == early[j];
    ReturnedAmong(
      st.groups[session.group], session.id, answers, from, |early|, shaped, answers[shaped].output, answers);
  }

  /** What the goal's judgement adds: nothing, or a stop in the command's place. */
  lemma TurnsFinally(
    st: Static, session: Session, now: Session, lease: Time, cycle: Cycle, early: seq<Answer>, answers: seq<Answer>,
    from: nat, shaped: int, replaced: bool, before: seq<JointCommand>, after: seq<JointCommand>,
    finally: seq<JointCommand>)
    requires Turned(st, session, lease, cycle, early, from, shaped, false, before, after)
    requires Continues(session, now) && early <= answers
    requires if replaced then Braked(st, now, answers, |early|, |after| - 1, finally) else finally == after
    ensures Turned(st, session, lease, cycle, answers, from, shaped, replaced, before, finally)
  {
    hide Returned, Carries, ValidGroup, SomeBad;
    ReturnedAmong(
      st.groups[session.group], session.id, early, from, from, shaped, early[shaped].output, answers);
    GivenIsOneMore(st, session, lease, cycle, early, shaped, before, after);
    if replaced && SomeBad(st.groups[session.group], answers, |early|) {
      BadEarlier(st.groups[session.group], answers, shaped + 1, |early|);
    }
  }

  lemma GivenIsOneMore(
    st: Static, session: Session, lease: Time, cycle: Cycle, answers: seq<Answer>, k: int,
    before: seq<JointCommand>, after: seq<JointCommand>)
    requires Given(st, session, lease, cycle, answers, k, before, after)
    ensures |after| == |before| + 1
  {
  }

  lemma BadEarlier(group: Group, answers: seq<Answer>, from: nat, mid: nat)
    requires ValidGroup(group) && SomeBad(group, answers, mid) && from <= mid
    ensures SomeBad(group, answers, from)
  {
    hide Good, ValidGroup;
  }

  lemma IssuedCommand(
    config: Config, session: Session, lease: Time, command: JointCommand, token: nat, cycle: Cycle, source: Source)
    ensures var until := DeadlineOf(config, session, lease, cycle.feedback.receivedAt, cycle.startedAt);
            IssueFor(
              config, session, lease, command, token, cycle.feedback.receivedAt, cycle.startedAt, source).command ==
              command.(session := session.id, validUntil := Some(until), token := token)
  {
    hide DeadlineOf;
  }

  /** The issue for an output of an active session. */
  ghost function EmittedIssue(st: Static, s: State, id: Id, lease: Time, output: JointCommand, cycle: Cycle): Issue
    requires id in s.sessions && id in s.current && id in s.outputs
  {
    IssueFor(
      st.config, s.sessions[id], lease, output, s.nextToken, cycle.feedback.receivedAt, cycle.startedAt,
      Along(s.current[id], s.outputs[id] + [output.positions]))
  }

  /** Returning an output and remembering it as the session's last one belong together. */
  lemma EmittedProduces(st: Static, s: State, gap: Gap, id: Id, lease: Time, output: JointCommand, cycle: Cycle)
    requires id in s.active && id in s.sessions && id in s.outputs && id in s.current
    requires Follows(st, s.sessions[id], output)
    requires s.sessions[id].id == id && s.sessions[id].endpoint in s.arbiter.policies
    requires lease == s.arbiter.policies[s.sessions[id].endpoint].lease
    requires ValidStatic(st) && InvX(st, s, gap)
    ensures var t := Emitted(s, id, TargetOf(output), EmittedIssue(st, s, id, lease, output, cycle));
            && InvX(st, t, gap) && Evolves(s, t) && Produced(s, t, id, cycle) && Carries(t.commands, s.commands, output)
  {
    hide InvX, Evolves, ValidStatic, IssueOk, NextPositions, Publishable, LastOk, SessionOutputs, Shaped, ValidGroup,
      WithinLimits;
    var issue := EmittedIssue(st, s, id, lease, output, cycle);
    FollowingIsPublishable(st, s, gap, id, output);
    PublishableIssue(
      st, s.sessions[id], lease, output, s.nextToken, cycle.feedback.receivedAt, cycle.startedAt, issue.source);
    assert Follower(s, id, TargetOf(output), issue) by { FollowsGroup(st, s.sessions[id], output); }
    EmittedKeeps(st, s, gap, id, TargetOf(output), issue);
    RunningInputs(st, s, gap, id);
    hide Follows, Holds, OwnStart;
    EmittedIsProduced(st, s, id, lease, output, cycle);
  }

  lemma FollowsGroup(st: Static, session: Session, output: JointCommand)
    requires Follows(st, session, output) && ValidStatic(st)
    ensures output.group == session.group
  {
    hide ValidGroup, NextPositions;
  }

  /** The command may as well be returned before its output is remembered. */
  lemma EmittedEitherWay(s: State, id: Id, last: JointTarget, issue: Issue)
    requires id in s.sessions && id in s.outputs
    ensures Emitted(s, id, last, issue) == Output(Append(s, issue), id, last)
  {
  }

  lemma EmittedIsProduced(st: Static, s: State, id: Id, lease: Time, output: JointCommand, cycle: Cycle)
    requires id in s.active && id in s.sessions && id in s.outputs && id in s.current && s.current[id] < |s.starts|
    requires output.joints == s.sessions[id].joints && s.sessions[id].id == id
    requires s.sessions[id].endpoint in s.arbiter.policies && lease == s.arbiter.policies[s.sessions[id].endpoint].lease
    requires var issue := EmittedIssue(st, s, id, lease, output, cycle);
             Holds(Emitted(s, id, TargetOf(output), issue).permits, issue.command)
    ensures var t := Emitted(s, id, TargetOf(output), EmittedIssue(st, s, id, lease, output, cycle));
            Produced(s, t, id, cycle) && Carries(t.commands, s.commands, output)
  {
    hide Holds;
    var issue := EmittedIssue(st, s, id, lease, output, cycle);
    var remembered := Output(s, id, TargetOf(output));
    OutputIsLocal(s, id, TargetOf(output));
    AppendIsLocal(remembered, issue, id, cycle);
    hide Local, IssuedFor;
    LocalTransitive(s, remembered, Append(remembered, issue), id);
    LocalKeepsSession(s, remembered, id);
    IssuedThrough(s, remembered, Append(remembered, issue), id, issue.command, cycle);
  }

  lemma OutputIsLocal(s: State, id: Id, last: JointTarget)
    requires id in s.sessions && id in s.outputs
    ensures Local(s, Output(s, id, last), id)
  {
    var t := Output(s, id, last);
    assert t.outputs - {id} == s.outputs - {id} && t.sessions - {id} == s.sessions - {id};
  }

  lemma ProducedThenRecovered(s: State, t: State, id: Id, cycle: Cycle)
    requires Produced(s, t, id, cycle)
    ensures Produced(s, Recovered(t, id), id, cycle)
  {
    hide Holds, FromInputs, SameBut;
    assert SameBut(t, Recovered(t, id), {id}) by { RecoveredElsewhere(t, id); }
    SameButMore(s, t, Recovered(t, id), {id}, {id});
    assert {id} + {id} == {id};
  }

  lemma RecoveredElsewhere(t: State, id: Id)
    requires id in t.sessions
    ensures SameBut(t, Recovered(t, id), {id})
  {
    assert Recovered(t, id).sessions - {id} == t.sessions - {id};
  }

  /** A candidate that may be handed to the final RTC. */
  ghost predicate CandidateOk(st: Static, session: Session, candidate: JointCommand) {
    && session.group in st.groups && ValidGroup(st.groups[session.group])
    && !candidate.passedRtc && FinalCode(candidate, st.groups[session.group], NoReference) == OK
  }

  lemma ProducedShows(s: State, t: State, id: Id, cycle: Cycle)
    requires Produced(s, t, id, cycle)
    ensures id in s.sessions && id in t.sessions && id in t.active && Continues(s.sessions[id], t.sessions[id])
    ensures |t.commands| > 0 && id in t.current
  {
    hide IssuedFor, SameBut, Latest;
  }

  lemma CandidateStays(st: Static, held: Session, session: Session, candidate: JointCommand)
    requires Continues(held, session) && CandidateOk(st, held, candidate)
    ensures CandidateOk(st, session, candidate)
  {
  }

  /** Stop in place of the command just produced. */
  lemma PoppedThenAborted(s: State, t: State, u: State, id: Id, cycle: Cycle)
    requires Produced(s, t, id, cycle) && |t.commands| > 0
    requires Aborted(t.(commands := t.commands[..|t.commands| - 1]), u, id, cycle)
    ensures Aborted(s, u, id, cycle)
  {
    hide Produced, Aborted, GoesOn;
    PopGoesOn(s, t, id, cycle);
    GoesOnThenAborted(s, t.(commands := t.commands[..|t.commands| - 1]), u, id, cycle);
  }

  /**
    After its turn a Move that goes on is not late; its goal, if watched, was observed in this
    tick and has not settled.
  */
  ghost predicate Watched(t: State, id: Id, now: Time, config: Config) {
    id in t.sessions && id in t.active && t.sessions[id].request.kind.IsMove() ==>
      && now - t.sessions[id].submittedAt <= config.moveTimeout
      && (t.sessions[id].request.kind == MoveJ ==> id in t.histories)
      && (id in t.histories ==> Unsettled(t.histories[id], now, config.stableDuration))
  }

  ghost predicate Unsettled(history: seq<Goals.Observation>, now: Time, stable: Time) {
    history != [] && history[|history| - 1].now == now && !Goals.Settled(history, stable)
  }

  ghost predicate AllWatched(t: State, ids: seq<Id>, now: Time, config: Config) {
    forall id :: id in ids ==> Watched(t, id, now, config)
  }

  // ---- What becomes of a goal ----

  /**
    How a winner's turn ended: it still waits, it failed before its goal was considered,
    it goes on without a goal, the pose of its goal could not be solved, or the goal was
    judged by the observations before and this cycle's.
  */
  datatype Judgement =
    | Waiting
    | Failed(failure: Failure)
    | Unwatched
    | Unsolved(code: Code)
    | Judged(goal: Goals.Goal, history: seq<Goals.Observation>, pose: Option<Goals.PoseReport>)

  /** The goal is already watched; only a MoveJ that is started anew is watched anew. */
  predicate Carried(s: State, id: Id) {
    && id in s.sessions && id in s.goals && id in s.histories
    && (s.sessions[id].started || s.sessions[id].request.kind != MoveJ)
  }

  /**
    A goal as it stands before this tick's observation: carried over, or fresh and, unless a
    MoveJ's, because the path was reached.
  */
  ghost predicate GoalFrom(s: State, t: State, id: Id, goal: Goals.Goal, history: seq<Goals.Observation>) {
    && id in s.sessions && GoalOf(s.sessions[id], goal)
    && if Carried(s, id) then goal == s.goals[id] && history == s.histories[id]
       else
         && history == [] && goal.stableSince == None
         && (s.sessions[id].request.kind != MoveJ ==> NewlyReached(s, t, id))
  }

  /** Up to `t` the tick has only begun to watch a MoveJ. */
  ghost predicate GoalKnown(s: State, t: State, id: Id) {
    && id in s.sessions
    && (id in t.goals ==>
          && id in t.histories && (s.sessions[id].request.kind == MoveJ || Carried(s, id))
          && GoalFrom(s, t, id, t.goals[id], t.histories[id]))
    && (id !in t.goals ==> id !in s.goals)
  }

  /** The goal a MoveJ asked for. */
  function JointGoal(session: Session): Goals.Goal {
    Goals.Goal(session.request.goal.joints, session.request.goal.positions, false, session.submittedAt, None)
  }

  lemma JointsEntered(s: State, x: State, t: State, id: Id, last: JointTarget, recovering: bool)
    requires id in s.sessions && x == BackendStarted(s, id)
    requires s.sessions[id].request.kind == MoveJ && !s.sessions[id].started
    requires t == PipelineModel.Watch(Activate(x, id, last, recovering), id, JointGoal(s.sessions[id]), [])
    ensures Steady(s, t, id) && GoalKnown(s, t, id) && t.starts == x.starts
    ensures id in t.sessions && t.sessions[id] ==
      s.sessions[id].(started := true, last := last, recovering := recovering)
    ensures id in t.outputs && t.outputs[id] == [last.positions]
  {
    assert t.goals - {id} == s.goals - {id} && t.histories - {id} == s.histories - {id};
    ActivateLocal(s, t, id, last, recovering);
    KnownAnew(s, t, id, JointGoal(s.sessions[id]));
    hide Steady, GoalKnown;
  }

  lemma KnownAnew(s: State, t: State, id: Id, goal: Goals.Goal)
    requires id in s.sessions && s.sessions[id].request.kind == MoveJ && !s.sessions[id].started
    requires goal == JointGoal(s.sessions[id]) && id in t.goals && id in t.histories
    requires t.goals[id] == goal && t.histories[id] == []
    ensures GoalKnown(s, t, id)
  {
  }

  lemma KnownAsBefore(st: Static, s: State, x: State, t: State, gap: Gap, id: Id)
    requires id in s.sessions && (s.sessions[id].started || s.sessions[id].request.kind != MoveJ)
    requires x.sessions == s.sessions && x.goals == s.goals && x.histories == s.histories
    requires t.goals == s.goals && t.histories == s.histories && InvX(st, x, gap)
    ensures GoalKnown(s, t, id)
  {
    hide InvX, GoalOf;
    if id in x.goals { GoalHolds(st, x, gap, id); }
  }

  /** What a session about to be active brings along. */
  lemma BeforeActive(st: Static, s: State, x: State, id: Id, selected: Feedback)
    requires id in s.sessions && x == BackendStarted(s, id) && InvX(st, x, Gap({}, {}, {id}))
    requires Usable(st, s.sessions[id], selected) && Apart(s, id)
    ensures !s.sessions[id].started && LastOk(s.sessions[id], Seeded(selected), st.groups)
    ensures s.sessions[id].group in st.groups && ValidGroup(st.groups[s.sessions[id].group])
    ensures SessionOutputs(st.groups[s.sessions[id].group], st.config.recovery.margin, [selected.positions])
    ensures forall other :: other in s.active && other in s.sessions ==>
      !Overlaps(s.sessions[other].joints, s.sessions[id].joints)
  {
    hide InvX, Usable, LastOk, SessionOutputs, Overlaps;
    SeedStarts(st, s.sessions[id], selected);
    GroupOf(st, s.sessions[id], selected);
    ArbiterHolds(st, x, Gap({}, {}, {id}));
    OthersApart(st, x, id);
  }

  /** A pose that could not be solved is the SDK's failure. */
  function UnreachedCode(result: Goals.GoalObservation, pose: Option<Goals.PoseReport>): Code {
    if result == Goals.TIMED_OUT then TIMEOUT
    else if pose.Some? && !pose.value.valid then SDK_ERROR
    else INVALID_ARGUMENT
  }

  /** What becomes of a session whose goal was observed. */
  ghost predicate JudgedAs(
    s: State, t: State, id: Id, cycle: Cycle, goal: Goals.Goal, history: seq<Goals.Observation>,
    pose: Option<Goals.PoseReport>, config: Goals.Config)
    requires |goal.joints| == |goal.positions|
  {
    var outcome := Goals.OutcomeOf(goal, history, cycle.feedback, pose, cycle.now, config);
    match outcome
    case RUNNING =>
      var verdict := Goals.VerdictOf(goal, cycle.feedback, pose, config);
      Produced(s, t, id, cycle) && id in t.histories
        && t.histories[id] == history + [Goals.Observation(cycle.now, verdict)]
    case REACHED => Succeeded(s, t, id, cycle) && EndedAs(s, t, id, SUCCEEDED, OK)
    case _ => Aborted(s, t, id, cycle) && EndedAs(s, t, id, ABORTED, UnreachedCode(outcome, pose))
  }

  /** What a winner's turn made of its session, and of the session's goal. */
  ghost predicate Concluded(s: State, t: State, id: Id, cycle: Cycle, config: Goals.Config, judgement: Judgement) {
    id in s.sessions &&
    match judgement
    case Waiting => t == s && s.sessions[id].request.kind.IsServo() && !s.sessions[id].started
    case Failed(failure) => FailedAs(s, t, id, cycle, failure)
    case Unwatched =>
      && Produced(s, t, id, cycle)
      && (s.sessions[id].request.kind.IsMove() ==> id !in t.goals && !NewlyReached(s, t, id))
    case Unsolved(code) =>
      && Aborted(s, t, id, cycle) && EndedAs(s, t, id, ABORTED, code)
      && s.sessions[id].request.kind.IsMove() && s.sessions[id].request.kind != MoveJ
      && (id in s.goals || NewlyReached(s, t, id))
    case Judged(goal, history, pose) =>
      && GoalFrom(s, t, id, goal, history) && |goal.joints| == |goal.positions|
      && (pose.Some? <==> s.sessions[id].request.kind != MoveJ)
      && JudgedAs(s, t, id, cycle, goal, history, pose, config)
  }

  /** The goal's judgement puts a stop in the place of the command. */
  ghost predicate Replaced(cycle: Cycle, config: Goals.Config, judgement: Judgement) {
    || judgement.Unsolved?
    || (judgement.Judged? && |judgement.goal.joints| == |judgement.goal.positions| &&
        var outcome := Goals.OutcomeOf(
          judgement.goal, judgement.history, cycle.feedback, judgement.pose, cycle.now, config);
        outcome == Goals.TIMED_OUT || outcome == Goals.INVALID_FEEDBACK)
  }

  lemma SameKnown(s: State, t: State, u: State, id: Id)
    requires GoalKnown(s, t, id) && u.goals == t.goals && u.histories == t.histories
    ensures GoalKnown(s, u, id)
  {
    hide NewlyReached;
  }

  lemma KnownGoal(s: State, t: State, id: Id)
    requires GoalKnown(s, t, id) && id in t.goals
    ensures id in t.histories && GoalFrom(s, t, id, t.goals[id], t.histories[id])
  {
    hide NewlyReached;
  }

  /** The goal of a reached path. */
  function PathGoal(session: Session, candidate: JointCommand): Goals.Goal {
    Goals.Goal(candidate.joints, candidate.positions, true, session.submittedAt, None)
  }

  /** A running Move that is not watched is no MoveJ; its start is the one reached. */
  lemma PathKnown(st: Static, s: State, t: State, id: Id, cycle: Cycle)
    requires Produced(s, t, id, cycle) && InvX(st, t, CLOSED) && id !in t.goals && NewlyReached(s, t, id)
    requires t.sessions[id].request.kind.IsMove() && RunsOn(s, t, id)
    ensures t.sessions[id].request.kind != MoveJ
    ensures id in t.current && t.current[id] < |t.starts| && PathReached(t.starts[t.current[id]])
  {
    hide InvX, Local, Appended, Latest, PathReached;
    RunningJoints(st, t, CLOSED, id);
    ActiveIsSession(st, t, CLOSED, id);
  }

  lemma PathIsNew(s: State, t: State, u: State, id: Id, candidate: JointCommand, cycle: Cycle)
    requires Produced(s, t, id, cycle) && GoalKnown(s, t, id) && id !in t.goals
    requires t.sessions[id].request.kind.IsMove() && t.sessions[id].request.kind != MoveJ && NewlyReached(s, u, id)
    ensures GoalFrom(s, u, id, PathGoal(t.sessions[id], candidate), [])
  {
    hide Local, Appended, Latest, Grown, NewlyReached;
    LocalKeepsSession(s, t, id);
  }

  lemma UnwatchedConcludes(s: State, t: State, id: Id, cycle: Cycle, config: Goals.Config)
    requires Produced(s, t, id, cycle)
    requires t.sessions[id].request.kind.IsMove() ==> id !in t.goals && !NewlyReached(s, t, id)
    ensures Concluded(s, t, id, cycle, config, Unwatched)
  {
    hide NewlyReached;
    ProducedShows(s, t, id, cycle);
    hide Produced;
  }

  lemma UnsolvedConcludes(s: State, t: State, u: State, id: Id, cycle: Cycle, config: Goals.Config, code: Code)
    requires id in t.goals && id in t.histories && GoalFrom(s, t, id, t.goals[id], t.histories[id])
    requires u.starts == t.starts && Aborted(s, u, id, cycle) && EndedAs(s, u, id, ABORTED, code)
    requires s.sessions[id].request.kind.IsMove() && s.sessions[id].request.kind != MoveJ
    ensures Concluded(s, u, id, cycle, config, Unsolved(code))
  {
    hide Aborted, EndedAs, NewlyReached;
    SameReached(s, t, u, id);
  }

  lemma JudgedConcludes(
    s: State, t: State, u: State, id: Id, cycle: Cycle, config: Goals.Config, goal: Goals.Goal,
    history: seq<Goals.Observation>, pose: Option<Goals.PoseReport>)
    requires GoalFrom(s, t, id, goal, history) && u.starts == t.starts && |goal.joints| == |goal.positions|
    requires pose.Some? <==> s.sessions[id].request.kind != MoveJ
    requires JudgedAs(s, u, id, cycle, goal, history, pose, config)
    ensures Concluded(s, u, id, cycle, config, Judged(goal, history, pose))
  {
    hide JudgedAs, NewlyReached;
    SameReached(s, t, u, id);
  }

  lemma FailedConcludes(s: State, t: State, id: Id, cycle: Cycle, config: Goals.Config, failure: Failure)
    requires FailedAs(s, t, id, cycle, failure)
    ensures Concluded(s, t, id, cycle, config, Failed(failure))
  {
    hide SameBut, Stopped;
  }

  lemma FailedWatched(s: State, t: State, id: Id, cycle: Cycle, config: Config, failure: Failure)
    requires FailedAs(s, t, id, cycle, failure)
    ensures Watched(t, id, cycle.now, config)
  {
    hide Local, Stopped;
  }

  lemma WaitingConcludes(s: State, id: Id, cycle: Cycle, config: Goals.Config, limits: Config)
    requires id in s.sessions && s.sessions[id].request.kind.IsServo() && !s.sessions[id].started
    ensures Concluded(s, s, id, cycle, config, Waiting) && Watched(s, id, cycle.now, limits)
  {
  }

  lemma ConcludedIsProcessed(s: State, t: State, id: Id, cycle: Cycle, config: Goals.Config, judgement: Judgement)
    requires Concluded(s, t, id, cycle, config, judgement)
    ensures Processed(s, t, id, cycle)
  {
    hide Aborted, Succeeded, Produced, GoalFrom, Goals.OutcomeOf, EndedAs;
  }

  /** Whoever goes on in time has not reached its goal. */
  lemma ConcludedIsWatched(
    st: Static, s: State, t: State, id: Id, cycle: Cycle, config: Goals.Config, judgement: Judgement)
    requires Concluded(s, t, id, cycle, config, judgement) && InvX(st, t, CLOSED)
    requires config.stableDuration == st.config.stableDuration
    requires judgement.Unwatched? || judgement.Judged? ==>
      id in s.sessions && (s.sessions[id].request.kind.IsMove() ==>
        cycle.now - s.sessions[id].submittedAt <= st.config.moveTimeout)
    ensures Watched(t, id, cycle.now, st.config)
  {
    hide InvX, Produced, GoalFrom, Local, Goals.VerdictOf, Goals.Settled, NewlyReached;
    ArbiterHolds(st, t, CLOSED);
    RunningJoints(st, t, CLOSED, id);
    if id in t.sessions && judgement != Waiting {
      assert Produced(s, t, id, cycle) by { ConcludedGoesOn(s, t, id, cycle, config, judgement); }
      ProducedShows(s, t, id, cycle);
    }
  }

  lemma ConcludedGoesOn(s: State, t: State, id: Id, cycle: Cycle, config: Goals.Config, judgement: Judgement)
    requires Concluded(s, t, id, cycle, config, judgement) && id in t.sessions && judgement != Waiting
    ensures Produced(s, t, id, cycle)
  {
    hide Produced, GoalFrom, Goals.OutcomeOf, Local, Appended;
  }

  /** A running MoveJ is watched. */
  lemma RunningJoints(st: Static, s: State, gap: Gap, id: Id)
    requires InvX(st, s, gap)
    ensures id in s.active && id in s.sessions && s.sessions[id].request.kind == MoveJ ==> id in s.goals
    ensures s.histories.Keys == s.goals.Keys
  {
    hide Agree, StartsOk, RequestsOk, ActiveDisjoint, PermitsOk, LogOk, FreshLog, EventsOk, SuccessListed,
      SuccessesOk, RecoveryOk, IssuedOk, TrailsOk, GoalOf, Reached;
  }

  /** Watching goes on. */
  lemma WatchAgain(
    st: Static, s: State, gap: Gap, id: Id, since: Option<Time>, history: seq<Goals.Observation>)
    requires id in s.goals && InvX(st, s, gap)
    ensures var t := PipelineModel.Watch(s, id, s.goals[id].(stableSince := since), history);
            InvX(st, t, gap) && Evolves(s, t)
  {
    hide InvX, Evolves;
    GoalHolds(st, s, gap, id);
    WatchKeeps(st, s, gap, id, s.goals[id].(stableSince := since), history);
  }

  lemma GoalHolds(st: Static, s: State, gap: Gap, id: Id)
    requires id in s.goals && InvX(st, s, gap)
    ensures id in s.sessions && id in s.histories && GoalOf(s.sessions[id], s.goals[id])
    ensures s.goals[id].cartesian ==>
      id in s.via && Reached(s.sessions[id].request, s.sessions[id].serial, s.starts, s.via[id])
  {
    hide Agree, BackendAgrees, StartsOk, RequestsOk, ActiveDisjoint, PermitsOk, LogOk, FreshLog, EventsOk,
      SuccessListed, SuccessesOk, RecoveryOk, IssuedOk, TrailsOk, GoalOf, Reached;
  }

  lemma SteadyShows(st: Static, s: State, t: State, id: Id, selected: Feedback)
    requires Steady(s, t, id) && Usable(st, s.sessions[id], selected)
    ensures id in t.active && id in t.sessions && Usable(st, t.sessions[id], selected)
  {
  }

  // ---- A whole tick ----

  /** Sessions are only lost or stopped; nothing is returned. */
  ghost predicate Shrinks(s: State, t: State) {
    && (forall id :: id in t.sessions ==> id in s.sessions && Continues(s.sessions[id], t.sessions[id]))
    && t.active <= s.active && t.commands == s.commands && t.nextToken == s.nextToken && t.issued == s.issued
    && t.enabled == s.enabled && t.generation == s.generation && t.published == s.published && t.created == s.created
    && t.arbiter.policies == s.arbiter.policies && t.starts == s.starts
    && (forall id :: id in t.outputs ==> id in s.outputs && t.outputs[id] == s.outputs[id])
    && (forall id :: id in t.current ==> id in s.current && t.current[id] == s.current[id])
  }

  lemma ShrinksTransitive(s: State, t: State, u: State)
    requires Shrinks(s, t) && Shrinks(t, u)
    ensures Shrinks(s, u)
  {
  }

  lemma TerminateShrinks(s: State, id: Id, state: SessionState, code: Code, preserve: bool)
    ensures Shrinks(s, Terminate(s, id, state, code, preserve))
  {
    hide WithoutSession, SuccessOf;
    if id in s.sessions {
    } else {
    }
  }

  lemma DeactivateShrinks(s: State, id: Id)
    ensures Shrinks(s, Deactivate(s, id))
  {
  }

  lemma {:induction false} EndAllShrinks(s: State, ids: seq<Id>, state: SessionState, code: Code)
    ensures Shrinks(s, EndAll(s, ids, state, code))
    decreases |ids|
  {
    hide Terminate;
    if ids != [] {
      hide Shrinks;
      var before := EndAll(s, ids[..|ids| - 1], state, code);
      EndAllShrinks(s, ids[..|ids| - 1], state, code);
      TerminateShrinks(before, ids[|ids| - 1], state, code, false);
      ShrinksTransitive(s, before, EndAll(s, ids, state, code));
    }
  }

  /** No two winners share a joint. */
  ghost predicate WinnersApart(sessions: map<Id, Session>, winners: seq<Id>) {
    && Unique(winners)
    && forall i, j ::
         0 <= i < |winners| && 0 <= j < |winners| && i != j && winners[i] in sessions && winners[j] in sessions ==>
           !Overlaps(sessions[winners[i]].joints, sessions[winners[j]].joints)
  }

  /** The winners of the claims that are left are sessions, and share no joint. */
  lemma WinnersOfSessions(st: Static, s: State, winners: seq<Id>)
    requires InvX(st, s, CLOSED) && WinnersInOrder(winners, s.arbiter.claims)
    ensures WinnersApart(s.sessions, winners) && Members(winners) <= s.sessions.Keys
  {
    hide BackendAgrees, StartsOk, RequestsOk, ActiveDisjoint, WatchOk, PermitsOk, LogOk, FreshLog, EventsOk,
      SuccessListed, SuccessesOk, RecoveryOk, IssuedOk, TrailsOk, Held, Ranked, SessionOk, Overlaps, Blocked;
    SessionsAreClaims(st, s);
    var claims := s.arbiter.claims;
    forall i, j | 0 <= i < |winners| && 0 <= j < |winners| && i != j
      ensures !Overlaps(s.sessions[winners[i]].joints, s.sessions[winners[j]].joints)
    {
      assert winners[i] in Members(winners) && winners[j] in Members(winners);
      assert winners[i] != winners[j];
      WinnersDisjoint(claims, winners[i], winners[j]);
    }
  }

  lemma ApartShrinks(s: State, t: State, winners: seq<Id>)
    requires WinnersApart(s.sessions, winners) && Shrinks(s, t)
    ensures WinnersApart(t.sessions, winners)
  {
    hide Overlaps;
  }

  /** The session got its command, or is a Servo waiting to be retried. */
  ghost predicate Served(t: State, id: Id) {
    id in t.sessions &&
    if id in t.active then exists i :: 0 <= i < |t.commands| && t.commands[i].session == id
    else t.sessions[id].request.kind.IsServo()
  }

  /**
    The command of a session that goes on carries its one more output. Otherwise it is a
    stop, or the last command of a success.
  */
  ghost predicate Accounted(s: State, t: State, c: JointCommand) {
    if c.session in t.sessions then Latest(t, c.session, c) && Grown(s, t, c.session, 1)
    else
      && c.token in t.issued
      && (t.issued[c.token].source == Stop || t.issued[c.token].serial in t.successes)
  }

  /** Every command was issued for its own winner, in the order of the winners; the tokens rise. */
  ghost predicate CommandsOk(s: State, t: State, winners: seq<Id>, cycle: Cycle) {
    && (forall i :: 0 <= i < |t.commands| ==> CommandOk(s, t, winners, t.commands[i], cycle))
    && (forall i, j :: 0 <= i < j < |t.commands| ==>
          t.commands[i].token < t.commands[j].token && t.commands[i].session != t.commands[j].session)
  }

  ghost predicate CommandOk(s: State, t: State, winners: seq<Id>, c: JointCommand, cycle: Cycle) {
    c.session in winners && IssuedFor(s, t, c.session, c, cycle) && Accounted(s, t, c)
  }

  /** Sessions are only lost; those whose turn has not come are untouched. */
  ghost predicate SessionsLeft(s: State, t: State, winners: seq<Id>) {
    && (forall id :: id in t.sessions ==> id in s.sessions && Continues(s.sessions[id], t.sessions[id]))
    && SameBut(s, t, Members(winners)) && SameSettings(s, t)
    && |s.starts| <= |t.starts| && forall id :: id in s.current ==> s.current[id] < |s.starts|
  }

  /** The tick after some of the winners had their turn. */
  ghost predicate Ticked(s: State, t: State, winners: seq<Id>, cycle: Cycle) {
    && CommandsOk(s, t, winners, cycle)
    && SessionsLeft(s, t, winners)
    && (forall id :: id in winners && id in t.sessions ==> Served(t, id))
  }

  lemma TickBegins(st: Static, s: State, cycle: Cycle)
    requires s.commands == [] && InvX(st, s, CLOSED)
    ensures Ticked(s, s, [], cycle)
  {
    hide Agree, BackendAgrees, RequestsOk, ActiveDisjoint, WatchOk, PermitsOk, LogOk, FreshLog, EventsOk,
      SuccessListed, SuccessesOk, RecoveryOk, IssuedOk, TrailsOk, OwnStart;
  }

  /** A command issued earlier in the tick survives another winner's turn. */
  lemma CommandSurvives(s: State, t: State, u: State, id: Id, w: Id, c: JointCommand, cycle: Cycle)
    requires IssuedFor(s, t, id, c, cycle) && Local(t, u, w) && Evolves(t, u) && id != w
    requires w in s.sessions && t.sessions[w].joints == s.sessions[w].joints
    requires !Overlaps(s.sessions[id].joints, s.sessions[w].joints)
    ensures IssuedFor(s, u, id, c, cycle)
  {
    hide SameBut, StartsGrow;
    forall joint | joint in c.joints ensures joint in u.permits && u.permits[joint] == t.permits[joint] {
      assert joint !in s.sessions[w].joints;
    }
  }

  /** So does what is known of its session. */
  lemma AccountSurvives(s: State, t: State, u: State, w: Id, c: JointCommand)
    requires Accounted(s, t, c) && Local(t, u, w) && Evolves(t, u) && c.session != w && Genuine(t, c)
    ensures Accounted(s, u, c)
  {
    hide SameBut, StartsGrow, PermitsOnlyFresh;
    Elsewhere(t, u, {w}, c.session);
  }

  lemma TurnKeepsSessions(s: State, t: State, u: State, winners: seq<Id>, w: Id)
    requires SessionsLeft(s, t, winners) && w !in winners && w in t.sessions && (u == t || Local(t, u, w))
    requires |t.starts| <= |u.starts|
    ensures SessionsLeft(s, u, winners + [w]) && SessionsLeft(s, t, winners + [w])
  {
    hide SameBut;
    SameItself(t, {w});
    SameButMore(s, t, t, Members(winners), {w});
    SameButMore(s, t, u, Members(winners), {w});
    assert Members(winners + [w]) == Members(winners) + {w};
    forall id | id in u.sessions ensures id in s.sessions && Continues(s.sessions[id], u.sessions[id]) {
      if u != t {
        if id != w { Elsewhere(t, u, {w}, id); }
        assert id in t.sessions && Continues(t.sessions[id], u.sessions[id]);
      }
    }
  }

  lemma SameItself(s: State, ids: set<Id>)
    ensures SameBut(s, s, ids)
  {
  }

  lemma TurnKeepsCommands(s: State, t: State, u: State, winners: seq<Id>, w: Id, cycle: Cycle)
    requires CommandsOk(s, t, winners, cycle) && SessionsLeft(s, t, winners) && w !in winners && w in t.sessions
    requires Processed(t, u, w, cycle) && Evolves(t, u)
    requires forall id :: id in winners && id in s.sessions ==> !Overlaps(s.sessions[id].joints, s.sessions[w].joints)
    ensures CommandsOk(s, u, winners + [w], cycle)
  {
    hide Overlaps, Evolves, Local, Appended, Processed, SessionsLeft, IssuedFor, Accounted;
    ProcessedIsLocal(t, u, w, cycle);
    KeptSession(s, t, winners, w);
    forall i | 0 <= i < |t.commands|
      ensures CommandOk(s, u, winners + [w], t.commands[i], cycle) && t.commands[i].token < t.nextToken
    {
      assert CommandOk(s, t, winners, t.commands[i], cycle);
      IssuedShows(s, t, t.commands[i], cycle);
      CommandSurvives(s, t, u, t.commands[i].session, w, t.commands[i], cycle);
      AccountSurvives(s, t, u, w, t.commands[i]);
    }
    if u.commands != t.commands {
      AppendedShows(t, u, w, cycle);
      NewCommandOk(s, t, u, winners, w, cycle);
    }
  }

  lemma IssuedShows(s: State, t: State, c: JointCommand, cycle: Cycle)
    requires IssuedFor(s, t, c.session, c, cycle)
    ensures c.session in s.sessions && Genuine(t, c) && s.nextToken <= c.token < t.nextToken
  {
    hide Holds, FromInputs;
  }

  lemma AppendedShows(t: State, u: State, w: Id, cycle: Cycle)
    requires Appended(t, u, w, cycle)
    ensures |u.commands| == |t.commands| + 1 && u.commands == t.commands + [u.commands[|t.commands|]]
    ensures u.commands[|t.commands|].session == w && u.commands[|t.commands|].token >= t.nextToken
  {
    hide Holds, FromInputs;
  }

  /** The command of the winner's own turn. */
  lemma NewCommandOk(s: State, t: State, u: State, winners: seq<Id>, w: Id, cycle: Cycle)
    requires SessionsLeft(s, t, winners) && w !in winners && w in t.sessions && Processed(t, u, w, cycle)
    requires Evolves(t, u)
    requires u.commands != t.commands && |u.commands| == |t.commands| + 1 && u.commands[|t.commands|].session == w
    ensures CommandOk(s, u, winners + [w], u.commands[|t.commands|], cycle)
  {
    hide SameBut, Local, IssuedFor, Evolves, Grown, Latest;
    var c := u.commands[|t.commands|];
    Elsewhere(s, t, Members(winners), w);
    assert Appended(t, u, w, cycle);
    IssuedThrough(s, t, u, w, c, cycle);
    if w in u.sessions {
      GrownSince(s, t, u, w);
    } else {
      NewIsAccounted(t, u, w, c, cycle);
    }
  }

  lemma NewIsAccounted(t: State, u: State, w: Id, c: JointCommand, cycle: Cycle)
    requires w !in u.sessions && (Aborted(t, u, w, cycle) || Succeeded(t, u, w, cycle))
    requires |u.commands| == |t.commands| + 1 && c == u.commands[|t.commands|]
    ensures c.token in u.issued && (u.issued[c.token].source == Stop || u.issued[c.token].serial in u.successes)
  {
    hide Local, Holds;
  }

  /** What a winner had before its turn it had at the start of the tick. */
  lemma GrownSince(s: State, t: State, u: State, w: Id)
    requires Grown(t, u, w, 1) && |s.starts| <= |t.starts| && forall id :: id in s.current ==>
      s.current[id] < |s.starts|
    requires w in t.outputs <==> w in s.outputs
    requires w in s.outputs ==> t.outputs[w] == s.outputs[w]
    requires w in t.current <==> w in s.current
    requires w in s.current ==> t.current[w] == s.current[w]
    ensures Grown(s, u, w, 1)
  {
  }

  lemma TurnServes(t: State, u: State, winners: seq<Id>, w: Id, cycle: Cycle)
    requires (forall id :: id in winners && id in t.sessions ==> Served(t, id)) && w !in winners && w in t.sessions
    requires Processed(t, u, w, cycle) && (t.sessions[w].started <==> w in t.active)
    ensures forall id :: id in winners + [w] && id in u.sessions ==> Served(u, id)
  {
    hide IssuedFor, SameBut, Grown, Latest;
    ProcessedIsLocal(t, u, w, cycle);
    forall id | id in winners && id in u.sessions ensures Served(u, id) {
      Elsewhere(t, u, {w}, id);
      assert Served(t, id);
      if id in t.active {
        var i :| 0 <= i < |t.commands| && t.commands[i].session == id;
        assert u.commands == t.commands || u.commands[..|t.commands|][i] == t.commands[i];
        assert u.commands[i].session == id;
      }
    }
    if w in u.sessions && u != t {
      assert u.commands[|t.commands|].session == w by { AppendedShows(t, u, w, cycle); }
    }
  }

  lemma TurnTaken(st: Static, s: State, t: State, u: State, winners: seq<Id>, w: Id, cycle: Cycle)
    requires InvX(st, t, CLOSED) && Ticked(s, t, winners, cycle) && w !in winners && w in t.sessions
    requires Processed(t, u, w, cycle) && Evolves(t, u)
    requires forall id :: id in winners && id in s.sessions && w in s.sessions ==>
      !Overlaps(s.sessions[id].joints, s.sessions[w].joints)
    ensures Ticked(s, u, winners + [w], cycle)
  {
    ProcessedIsLocal(t, u, w, cycle);
    ArbiterHolds(st, t, CLOSED);
    StartsCounted(t, u);
    hide InvX, CommandsOk, SessionsLeft, Served, Processed, Local, Appended, Evolves, Overlaps;
    KeptSession(s, t, winners, w);
    TurnKeepsSessions(s, t, u, winners, w);
    TurnKeepsCommands(s, t, u, winners, w, cycle);
    TurnServes(t, u, winners, w, cycle);
  }

  lemma StartsCounted(t: State, u: State)
    requires Evolves(t, u)
    ensures |t.starts| <= |u.starts|
  {
  }

  lemma ProcessedIsLocal(t: State, u: State, w: Id, cycle: Cycle)
    requires Processed(t, u, w, cycle)
    ensures Local(t, u, w) && (u.commands == t.commands || Appended(t, u, w, cycle))
  {
    hide IssuedFor, Grown, Latest;
    if t == u { SameItself(t, {w}); }
    hide SameBut;
  }

  lemma KeptSession(s: State, t: State, winners: seq<Id>, w: Id)
    requires SessionsLeft(s, t, winners) && w in t.sessions
    ensures w in s.sessions && (w !in winners ==> t.sessions[w] == s.sessions[w])
  {
    hide SameBut;
    if w !in winners { Elsewhere(s, t, Members(winners), w); }
  }

  /** A winner whose session is gone already takes no turn. */
  lemma TurnSkipped(s: State, t: State, winners: seq<Id>, w: Id, cycle: Cycle)
    requires Ticked(s, t, winners, cycle) && w !in t.sessions
    ensures Ticked(s, t, winners + [w], cycle)
  {
    hide IssuedFor, Accounted, SameBut, Served;
    SameItself(t, {w});
    SameButMore(s, t, t, Members(winners), {w});
    assert Members(winners + [w]) == Members(winners) + {w};
    forall i | 0 <= i < |t.commands| ensures CommandOk(s, t, winners + [w], t.commands[i], cycle) {
      assert CommandOk(s, t, winners, t.commands[i], cycle);
    }
  }

  /** Take back the command at `k` and end its session. */
  function Dropped(t: State, k: nat): State
    requires k < |t.commands|
  {
    var u := Terminate(t, t.commands[k].session, ABORTED, TIMEOUT, false);
    u.(commands := t.commands[..k] + t.commands[k + 1..])
  }

  lemma DropKeepsTicked(s: State, t: State, winners: seq<Id>, cycle: Cycle, k: nat)
    requires Ticked(s, t, winners, cycle) && k < |t.commands|
    ensures Ticked(s, Dropped(t, k), winners, cycle)
  {
    hide Ticked, CommandsOk, SessionsLeft, Served;
    AllTicked(s, t, winners, cycle);
    OwnWinner(s, t, winners, cycle, k);
    DropKeepsCommands(s, t, winners, cycle, k);
    DropKeepsSessions(s, t, winners, k);
    DropServes(t, winners, k);
    AllTicked(s, Dropped(t, k), winners, cycle);
  }

  lemma OwnWinner(s: State, t: State, winners: seq<Id>, cycle: Cycle, k: nat)
    requires CommandsOk(s, t, winners, cycle) && k < |t.commands|
    ensures t.commands[k].session in winners && IssuedFor(s, t, t.commands[k].session, t.commands[k], cycle)
  {
    hide IssuedFor, Accounted;
    assert CommandOk(s, t, winners, t.commands[k], cycle);
  }

  lemma AllTicked(s: State, t: State, winners: seq<Id>, cycle: Cycle)
    ensures Ticked(s, t, winners, cycle) <==>
      && CommandsOk(s, t, winners, cycle) && SessionsLeft(s, t, winners)
      && forall id :: id in winners && id in t.sessions ==> Served(t, id)
  {
    hide CommandsOk, SessionsLeft, Served;
  }

  lemma DroppedIs(t: State, k: nat)
    requires k < |t.commands|
    ensures Dropped(t, k) ==
      Terminate(t, t.commands[k].session, ABORTED, TIMEOUT, false).(commands := t.commands[..k] + t.commands[k + 1..])
  {
    hide Terminate;
  }

  lemma TerminateElsewhere(t: State, id: Id, state: SessionState, code: Code)
    ensures var u := Terminate(t, id, state, code, false);
            && SameBut(t, u, {id})
            && (forall joint :: joint in t.permits && t.permits[joint].session != id ==>
                  joint in u.permits && u.permits[joint] == t.permits[joint])
            && (state != SUCCEEDED ==> u.successes == t.successes)
  {
    hide SuccessOf;
    if id in t.sessions {
    } else {
    }
  }

  /** What taking back a command leaves alone. */
  lemma DroppedFrame(t: State, k: nat)
    requires k < |t.commands|
    ensures var u, id := Dropped(t, k), t.commands[k].session;
            && SameBut(t, u, {id}) && SameSettings(t, u) && u.sessions == t.sessions - {id} && u.starts == t.starts
            && u.issued == t.issued && u.nextToken == t.nextToken && u.successes == t.successes
            && u.commands == t.commands[..k] + t.commands[k + 1..]
            && (forall joint :: joint in t.permits && t.permits[joint].session != id ==>
                  joint in u.permits && u.permits[joint] == t.permits[joint])
  {
    hide SuccessOf, Dropped, Terminate, SameBut;
    var id := t.commands[k].session;
    var ended := Terminate(t, id, ABORTED, TIMEOUT, false);
    TerminateElsewhere(t, id, ABORTED, TIMEOUT);
    TerminateFrame(t, id, ABORTED, TIMEOUT, false);
    SameButCommands(t, ended, {id});
    assert Dropped(t, k) == ended.(commands := t.commands[..k] + t.commands[k + 1..]) by { DroppedIs(t, k); }
  }

  lemma DropKeepsCommands(s: State, t: State, winners: seq<Id>, cycle: Cycle, k: nat)
    requires CommandsOk(s, t, winners, cycle) && k < |t.commands|
    ensures CommandsOk(s, Dropped(t, k), winners, cycle)
  {
    hide IssuedFor, Accounted, Dropped, SameBut, SameSettings;
    DroppedFrame(t, k);
    var u := Dropped(t, k);
    forall i | 0 <= i < |u.commands| ensures CommandOk(s, u, winners, u.commands[i], cycle) {
      var j := if i < k then i else i + 1;
      assert u.commands[i] == t.commands[j];
      assert CommandOk(s, t, winners, t.commands[j], cycle);
      assert t.commands[j].session != t.commands[k].session;
      IssueOutlives(s, t, k, t.commands[j], cycle);
      AccountOutlives(s, t, k, t.commands[j]);
    }
  }

  lemma IssueOutlives(s: State, t: State, k: nat, c: JointCommand, cycle: Cycle)
    requires k < |t.commands| && IssuedFor(s, t, c.session, c, cycle) && c.session != t.commands[k].session
    ensures IssuedFor(s, Dropped(t, k), c.session, c, cycle)
  {
    hide FromInputs, Dropped, SameBut, SameSettings;
    DroppedFrame(t, k);
  }

  lemma AccountOutlives(s: State, t: State, k: nat, c: JointCommand)
    requires k < |t.commands| && Accounted(s, t, c) && c.session != t.commands[k].session
    ensures Accounted(s, Dropped(t, k), c)
  {
    hide Dropped, SameBut, SameSettings;
    DroppedFrame(t, k);
    Elsewhere(t, Dropped(t, k), {t.commands[k].session}, c.session);
  }

  lemma DropKeepsSessions(s: State, t: State, winners: seq<Id>, k: nat)
    requires SessionsLeft(s, t, winners) && k < |t.commands| && t.commands[k].session in winners
    ensures SessionsLeft(s, Dropped(t, k), winners)
  {
    hide Dropped, SameBut;
    DroppedFrame(t, k);
    SameButMore(s, t, Dropped(t, k), Members(winners), {t.commands[k].session});
    assert Members(winners) + {t.commands[k].session} == Members(winners);
  }

  lemma DropServes(t: State, winners: seq<Id>, k: nat)
    requires k < |t.commands| && forall id :: id in winners && id in t.sessions ==> Served(t, id)
    ensures forall id :: id in winners && id in Dropped(t, k).sessions ==> Served(Dropped(t, k), id)
  {
    hide Dropped, SameBut, SameSettings;
    var u := Dropped(t, k);
    DroppedFrame(t, k);
    forall id | id in winners && id in u.sessions ensures Served(u, id) {
      Elsewhere(t, u, {t.commands[k].session}, id);
      assert Served(t, id);
      if id in t.active {
        var j :| 0 <= j < |t.commands| && t.commands[j].session == id;
        var i := if j < k then j else j - 1;
        assert u.commands[i] == t.commands[j];
      }
    }
  }

  /** Taking a command back ends no goal but its own session's. */
  lemma DropWatched(t: State, k: nat, id: Id, now: Time, config: Config)
    requires k < |t.commands| && Watched(t, id, now, config)
    ensures Watched(Dropped(t, k), id, now, config)
  {
    hide Dropped, SameBut, SameSettings, Unsettled;
    DroppedFrame(t, k);
    if id != t.commands[k].session { Elsewhere(t, Dropped(t, k), {t.commands[k].session}, id); }
  }

  lemma TurnWatched(t: State, u: State, w: Id, id: Id, now: Time, config: Config)
    requires Watched(t, id, now, config) && id != w && Local(t, u, w)
    ensures Watched(u, id, now, config)
  {
    hide SameBut, Unsettled;
    Elsewhere(t, u, {w}, id);
  }

  /** Dropping the command at `k` in the code's own two steps. */
  lemma DropKeeps(st: Static, s: State, t: State, winners: seq<Id>, cycle: Cycle, k: nat)
    requires InvX(st, t, CLOSED) && Ticked(s, t, winners, cycle) && k < |t.commands|
    ensures InvX(st, Dropped(t, k), CLOSED) && Evolves(t, Dropped(t, k)) && Ticked(s, Dropped(t, k), winners, cycle)
  {
    hide InvX, Ticked, Evolves, Terminate;
    var id := t.commands[k].session;
    var ended := Terminate(t, id, ABORTED, TIMEOUT, false);
    assert CLOSED.Without(id) == CLOSED;
    TerminateKeeps(st, t, CLOSED, id, ABORTED, TIMEOUT, false);
    PopKeeps(st, ended, CLOSED, t.commands[..k] + t.commands[k + 1..]);
    EvolvesTransitive(t, ended, Dropped(t, k));
    DropKeepsTicked(s, t, winners, cycle, k);
  }

  /** What a tick hands to its caller, seen from the state it began in. */
  ghost predicate TickResult(
    config: Config, s: State, t: State, winners: seq<Id>, cycle: Cycle, paused: bool, finishedAt: Time)
  {
    && CommandsOk(s, t, winners, cycle)
    && (forall i :: 0 <= i < |t.commands| ==>
         t.commands[i].validUntil.Some? && finishedAt < t.commands[i].validUntil.value)
    && (forall i, j :: 0 <= i < j < |t.commands| ==> !Overlaps(t.commands[i].joints, t.commands[j].joints))
    && (forall id :: id in t.sessions ==> id in s.sessions && Continues(s.sessions[id], t.sessions[id]))
    && t.active <= Members(winners)
    && (forall id :: id in winners && id in t.sessions ==> Served(t, id))
    && OnlyLost(s, t, winners, cycle.startedAt, paused)
    && AllWatched(t, winners, cycle.now, config)
    && t.pending == [] && t.published == s.published && t.created == s.created
    && t.enabled == s.enabled && t.generation == s.generation
  }

  /** A tick may lose a winner, a session whose claim expired, and after too long a pause an active Move. */
  ghost predicate LostSession(s: State, id: Id, winners: seq<Id>, at: Time, paused: bool) {
    || id in winners
    || (id in s.arbiter.claims && s.arbiter.claims[id].Expired(at))
    || (paused && id in s.active && id in s.sessions && s.sessions[id].request.kind.IsMove())
  }

  ghost predicate OnlyLost(s: State, t: State, winners: seq<Id>, at: Time, paused: bool) {
    forall id :: id in s.sessions && id !in t.sessions ==> LostSession(s, id, winners, at, paused)
  }

  /** Of the sessions exactly those whose claims expired are gone. */
  ghost predicate OnlyExpiredGone(s: State, t: State, at: Time) {
    forall id :: id in s.sessions ==>
      (id !in t.sessions <==> id in s.arbiter.claims && s.arbiter.claims[id].Expired(at))
  }

  /** Only active Moves are gone. */
  ghost predicate OnlyMovesGone(s: State, t: State) {
    forall id :: id in s.sessions && id !in t.sessions ==> id in s.active && s.sessions[id].request.kind.IsMove()
  }

  /** Of the sessions that were active only Servos are left and stopped. */
  ghost predicate StoppedAreServos(s: State, t: State) {
    forall id :: id in s.active && id !in t.active && id in t.sessions ==> t.sessions[id].request.kind.IsServo()
  }

  /** One active session is stopped: a Move ends, a Servo goes on without its backend. */
  ghost predicate OneStopped(t: State, u: State, id: Id) {
    && Shrinks(t, u) && id in t.sessions && id in t.active && u.active == t.active - {id}
    && u.sessions.Keys == (if t.sessions[id].request.kind.IsMove() then t.sessions.Keys - {id} else t.sessions.Keys)
    && t.pending <= u.pending && AllEnded(t.sessions, u.sessions, TIMEOUT, u.pending)
  }

  lemma StopEither(t: State, id: Id)
    requires id in t.sessions && id in t.active
    ensures t.sessions[id].request.kind.IsMove() ==> OneStopped(t, Terminate(t, id, ABORTED, TIMEOUT, false), id)
    ensures t.sessions[id].request.kind.IsServo() ==> OneStopped(t, Deactivate(t, id), id)
  {
    hide Shrinks;
    TerminateShrinks(t, id, ABORTED, TIMEOUT, false);
    TerminateEnds(t, id, ABORTED, TIMEOUT, false);
    TerminateFrame(t, id, ABORTED, TIMEOUT, false);
    DeactivateShrinks(t, id);
    DeactivateParts(t, id);
    hide Terminate, Deactivate;
  }

  lemma StoppedShrinks(s: State, t: State, u: State, id: Id)
    requires Shrinks(s, t) && OneStopped(t, u, id)
    ensures Shrinks(s, u) && u.active == t.active - {id} && t.pending <= u.pending
  {
    hide Shrinks;
    ShrinksTransitive(s, t, u);
  }

  lemma NothingStopped(s: State)
    ensures OnlyMovesGone(s, s) && StoppedAreServos(s, s) && AllEnded(s.sessions, s.sessions, TIMEOUT, s.pending)
  {
  }

  lemma StopStep(s: State, t: State, u: State, id: Id)
    requires Shrinks(s, t) && OnlyMovesGone(s, t) && StoppedAreServos(s, t) && OneStopped(t, u, id)
    requires AllEnded(s.sessions, t.sessions, TIMEOUT, t.pending)
    ensures OnlyMovesGone(s, u) && StoppedAreServos(s, u) && AllEnded(s.sessions, u.sessions, TIMEOUT, u.pending)
  {
    EndedMore(s.sessions, t.sessions, u.sessions, TIMEOUT, t.pending, u.pending);
    hide AllEnded;
  }

  lemma AllStopped(s: State, t: State)
    requires StoppedAreServos(s, t) && t.active == {}
    ensures NoMovesLeft(s.active, t.sessions)
  {
  }

  lemma LostInStages(s: State, t: State, u: State, winners: seq<Id>, at: Time, paused: bool)
    requires OnlyExpiredGone(s, t, at) && SameActivity(s, t) && Shrinks(s, t)
    requires OnlyMovesGone(t, u) && (!paused ==> u.sessions.Keys == t.sessions.Keys)
    ensures OnlyLost(s, u, winners, at, paused)
  {
  }

  lemma LostFrom(s: State, t: State, u: State, winners: seq<Id>, at: Time, paused: bool)
    requires t.sessions == s.sessions && t.active == s.active && t.arbiter == s.arbiter
    requires OnlyLost(t, u, winners, at, paused)
    ensures OnlyLost(s, u, winners, at, paused)
  {
    forall id | id in s.sessions && id !in u.sessions ensures LostSession(s, id, winners, at, paused) {
      assert LostSession(t, id, winners, at, paused);
    }
  }

  lemma SkippedWatched(t: State, winners: seq<Id>, id: Id, now: Time, config: Config)
    requires AllWatched(t, winners, now, config) && id !in t.sessions
    ensures AllWatched(t, winners + [id], now, config)
  {
    hide Unsettled;
  }

  lemma TurnsWatched(t: State, u: State, winners: seq<Id>, id: Id, cycle: Cycle, config: Config)
    requires AllWatched(t, winners, cycle.now, config) && Watched(u, id, cycle.now, config)
    requires Processed(t, u, id, cycle)
    ensures AllWatched(u, winners + [id], cycle.now, config)
  {
    hide Watched, Processed, Local;
    ProcessedIsLocal(t, u, id, cycle);
    forall other | other in winners + [id] ensures Watched(u, other, cycle.now, config) {
      if other != id { TurnWatched(t, u, id, other, cycle.now, config); }
    }
  }

  lemma DropAllWatched(t: State, k: nat, winners: seq<Id>, now: Time, config: Config)
    requires k < |t.commands| && AllWatched(t, winners, now, config)
    ensures AllWatched(Dropped(t, k), winners, now, config)
  {
    hide Watched, Dropped;
    forall id | id in winners ensures Watched(Dropped(t, k), id, now, config) { DropWatched(t, k, id, now, config); }
  }

  /** No command of the batch has expired. */
  ghost predicate AllValid(commands: seq<JointCommand>, upTo: int, at: Time) {
    0 <= upTo <= |commands| &&
    forall i :: 0 <= i < upTo ==> commands[i].validUntil.Some? && at < commands[i].validUntil.value
  }

  lemma TickEnds(
    config: Config, s0: State, s: State, t: State, winners: seq<Id>, cycle: Cycle, paused: bool, finishedAt: Time)
    requires Shrinks(s0.(commands := []), s) && Ticked(s, t, winners, cycle) && WinnersApart(s.sessions, winners)
    requires s.active <= Members(winners) && AllValid(t.commands, |t.commands|, finishedAt)
    requires OnlyLost(s0, s, winners, cycle.startedAt, paused)
    requires AllWatched(t, winners, cycle.now, config)
    ensures TickResult(config, s0, Deliver(t), winners, cycle, paused, finishedAt)
  {
    hide CommandsOk, Served, Ticked, Watched, LostSession;
    AllTicked(s, t, winners, cycle);
    CommandsFromStart(s0, s, t, winners, cycle);
    CommandsApart(s, t, winners, cycle);
    hide Overlaps, WinnersApart;
    var u := Deliver(t);
    forall id | id in winners && id in u.sessions ensures Served(u, id) {
      assert Served(t, id);
      ServedDelivered(t, id);
    }
    LeftOver(s, t, winners);
    hide SessionsLeft;
    forall id | id in s0.sessions && id !in t.sessions ensures LostSession(s0, id, winners, cycle.startedAt, paused) {
      if id in winners { WinnerMayGo(s0, id, winners, cycle.startedAt, paused); }
    }
    forall id | id in winners ensures Watched(u, id, cycle.now, config) { WatchedDelivered(t, id, cycle.now, config); }
  }

  lemma WinnerMayGo(s: State, id: Id, winners: seq<Id>, at: Time, paused: bool)
    requires id in winners
    ensures LostSession(s, id, winners, at, paused)
  {
  }

  lemma WatchedDelivered(t: State, id: Id, now: Time, config: Config)
    requires Watched(t, id, now, config)
    ensures Watched(Deliver(t), id, now, config)
  {
  }

  /** What the winners' turns left. */
  lemma LeftOver(s: State, t: State, winners: seq<Id>)
    requires SessionsLeft(s, t, winners) && s.active <= Members(winners)
    ensures forall id :: id in t.sessions ==> id in s.sessions && Continues(s.sessions[id], t.sessions[id])
    ensures forall id :: id in s.sessions && id !in t.sessions ==> id in winners
    ensures t.active <= Members(winners) && SameSettings(s, t)
  {
    hide SameBut;
    forall id | id !in winners
      ensures (id in t.sessions <==> id in s.sessions) && (id in t.active <==> id in s.active)
    {
      Elsewhere(s, t, Members(winners), id);
    }
  }

  lemma ServedDelivered(t: State, id: Id)
    requires Served(t, id)
    ensures Served(Deliver(t), id)
  {
  }

  lemma CommandsFromStart(s0: State, s: State, t: State, winners: seq<Id>, cycle: Cycle)
    requires Shrinks(s0.(commands := []), s) && CommandsOk(s, t, winners, cycle)
    ensures CommandsOk(s0, Deliver(t), winners, cycle)
  {
    hide Shrinks, IssuedFor, Accounted;
    forall i | 0 <= i < |t.commands| ensures CommandOk(s0, Deliver(t), winners, t.commands[i], cycle) {
      assert CommandOk(s, t, winners, t.commands[i], cycle);
      IssuedFromStart(s0, s, t, t.commands[i], cycle);
      AccountFromStart(s0, s, t, t.commands[i]);
    }
  }

  lemma IssuedFromStart(s0: State, s: State, t: State, c: JointCommand, cycle: Cycle)
    requires Shrinks(s0.(commands := []), s) && IssuedFor(s, t, c.session, c, cycle)
    ensures IssuedFor(s0, Deliver(t), c.session, c, cycle)
  {
    hide Holds;
  }

  lemma AccountFromStart(s0: State, s: State, t: State, c: JointCommand)
    requires Shrinks(s0.(commands := []), s) && Accounted(s, t, c)
    ensures Accounted(s0, Deliver(t), c)
  {
  }

  lemma CommandsApart(s: State, t: State, winners: seq<Id>, cycle: Cycle)
    requires CommandsOk(s, t, winners, cycle) && WinnersApart(s.sessions, winners)
    ensures forall i, j :: 0 <= i < j < |t.commands| ==> !Overlaps(t.commands[i].joints, t.commands[j].joints)
  {
    hide Holds, Genuine, FromInputs, Overlaps, Accounted;
    forall i, j | 0 <= i < j < |t.commands| ensures !Overlaps(t.commands[i].joints, t.commands[j].joints) {
      assert CommandOk(s, t, winners, t.commands[i], cycle) && CommandOk(s, t, winners, t.commands[j], cycle);
      var a, b := t.commands[i].session, t.commands[j].session;
      var x :| 0 <= x < |winners| && winners[x] == a;
      var y :| 0 <= y < |winners| && winners[y] == b;
    }
  }

  /** At a winner's turn, no other active session shares a joint with it. */
  lemma WinnerIsApart(s: State, t: State, all: seq<Id>, winners: seq<Id>, w: Id)
    requires WinnersApart(s.sessions, all) && SessionsLeft(s, t, winners) && w in all && w in t.sessions
    requires t.active <= Members(all)
    ensures Apart(t, w)
    ensures forall id :: id in all && id != w && id in s.sessions && w in s.sessions ==>
      !Overlaps(s.sessions[id].joints, s.sessions[w].joints)
  {
    hide Overlaps, SameBut;
    forall id | id in all && id != w && id in s.sessions && w in s.sessions
      ensures !Overlaps(s.sessions[id].joints, s.sessions[w].joints)
    {
      var x :| 0 <= x < |all| && all[x] == id;
      var y :| 0 <= y < |all| && all[y] == w;
    }
  }

  /** A winner's turn activates nobody but the winner. */
  lemma TurnStaysActive(t: State, u: State, w: Id, all: seq<Id>)
    requires Local(t, u, w) && w in all && t.active <= Members(all)
    ensures u.active <= Members(all)
  {
    hide SameBut;
    forall id | id in u.active ensures id in all {
      if id != w { Elsewhere(t, u, {w}, id); }
    }
  }

  /** Every returned command carries a deadline. */
  lemma IssuedHasDeadline(st: Static, s: State, t: State, winners: seq<Id>, cycle: Cycle, k: nat)
    requires InvX(st, t, CLOSED) && CommandsOk(s, t, winners, cycle) && k < |t.commands|
    ensures t.commands[k].validUntil.Some?
  {
    hide Agree, BackendAgrees, StartsOk, RequestsOk, ActiveDisjoint, WatchOk, PermitsOk, LogOk, FreshLog, EventsOk,
      SuccessListed, SuccessesOk, RecoveryOk, TrailsOk, Holds, FromInputs, Accounted, SourceOk;
    assert CommandOk(s, t, winners, t.commands[k], cycle);
    assert IssueOk(t.issued[t.commands[k].token], st);
  }

  lemma DeliverShrinks(s: State)
    ensures Shrinks(s, Deliver(s)) && Shrinks(s, s)
  {
  }

  /** Once expired Servos have lost their claims, their sessions are on their way out. */
  lemma ExpiredGap(st: Static, s: State, at: Time, expired: seq<Id>)
    requires InvX(st, s, CLOSED)
    requires forall id :: id in expired <==> id in s.arbiter.claims && s.arbiter.claims[id].Expired(at)
    ensures InvX(st, s.(arbiter := Evaluate(s.arbiter, at)), Gap(Members(expired), {}, {}))
    ensures Evolves(s, s.(arbiter := Evaluate(s.arbiter, at)))
  {
    hide BackendAgrees, StartsOk, RequestsOk, ActiveDisjoint, WatchOk, PermitsOk, LogOk, FreshLog, EventsOk,
      SuccessListed, SuccessesOk, RecoveryOk, IssuedOk, TrailsOk, Ranked, Held, SessionOk, ClaimAgrees, StartsGrow;
    EvolvesReflexive(s);
    SessionsAreClaims(st, s);
    var after := Evaluate(s.arbiter, at);
    StepsKeepInv(s.arbiter, Claim("", "", "", ServoJ, []), 0, at, "");
    hide Inv, Agree;
    assert Members(expired) <= s.sessions.Keys;
    forall x ensures x in s.sessions.Keys - Members(expired) <==> x in after.claims.Keys {
    }
    ArbiterMoved(st, s, after, Members(expired), {});
  }

  lemma ReleaseNothing(a: Arbiter, id: Id)
    requires id !in a.claims
    ensures Release(a, id) == a
  {
    assert a.claims - {id} == a.claims;
  }

  lemma EndUnclaimed(s: State, id: Id, state: SessionState, code: Code, preserve: bool)
    requires id !in s.arbiter.claims
    ensures Terminate(s, id, state, code, preserve).arbiter == s.arbiter
  {
    hide Terminate, Release;
    ReleaseNothing(s.arbiter, id);
    TerminateReleases(s, id, state, code, preserve);
  }

  lemma TerminateReleases(s: State, id: Id, state: SessionState, code: Code, preserve: bool)
    ensures Terminate(s, id, state, code, preserve).arbiter == if id in s.sessions then Release(s.arbiter, id)
      else s.arbiter
  {
    hide Release;
  }

  /** Ending the sessions of claims already gone leaves the claims alone. */
  lemma {:induction false} EndAllClaims(s: State, ids: seq<Id>, state: SessionState, code: Code)
    requires forall id :: id in ids ==> id !in s.arbiter.claims
    ensures EndAll(s, ids, state, code).arbiter == s.arbiter
    decreases |ids|
  {
    hide WithoutSession, SuccessOf;
    if ids != [] {
      var before := EndAll(s, ids[..|ids| - 1], state, code);
      hide Terminate;
      EndAllClaims(s, ids[..|ids| - 1], state, code);
      EndUnclaimed(before, ids[|ids| - 1], state, code, false);
    }
  }

  /** Every session that is left had an unexpired claim. */
  ghost predicate Unexpired(sessions: map<Id, Session>, claims: Claims, at: Time) {
    forall id :: id in sessions ==> id in claims && !claims[id].Expired(at)
  }

  lemma SessionsUnexpired(st: Static, s: State, claims: Claims, at: Time)
    requires InvX(st, s, CLOSED) && s.arbiter.claims == Live(claims, at)
    ensures Unexpired(s.sessions, claims, at)
  {
    hide Agree, BackendAgrees, StartsOk, RequestsOk, ActiveDisjoint, WatchOk, PermitsOk, LogOk, FreshLog, EventsOk,
      SuccessListed, SuccessesOk, RecoveryOk, IssuedOk, TrailsOk, Inv, ClaimAgrees;
    SessionsAreClaims(st, s);
  }

  /** The claim of a live session stands for it, with its endpoint's lease. */
  lemma ClaimStandsFor(st: Static, s: State, id: Id)
    requires InvX(st, s, CLOSED) && id in s.sessions
    ensures id in s.arbiter.claims && s.sessions[id].endpoint in s.arbiter.policies
    ensures var claim, session := s.arbiter.claims[id], s.sessions[id];
            && claim.claim.kind == session.request.kind && claim.receivedAt == session.submittedAt
            && claim.lease == s.arbiter.policies[session.endpoint].lease
  {
    hide BackendAgrees, StartsOk, RequestsOk, ActiveDisjoint, WatchOk, PermitsOk, LogOk, FreshLog, EventsOk,
      SuccessListed, SuccessesOk, RecoveryOk, IssuedOk, TrailsOk, OnlyPermitted, Ranked, ValidateClaim;
    SessionsAreClaims(st, s);
    assert SessionOk(s.arbiter.policies, st.groups, id, s.sessions[id]);
    assert Held(s.arbiter.policies, s.arbiter.next, id, s.arbiter.claims[id]);
  }

  // ---- The events of sessions that are ended ----

  lemma InPrefix(some: seq<Event>, more: seq<Event>, e: Event)
    requires some <= more && e in some
    ensures e in more
  {
    var i :| 0 <= i < |some| && some[i] == e;
    assert more[i] == e;
  }

  /** Ending several sessions reports each of them as itself. */
  lemma {:induction false} EndAllReports(s: State, ids: seq<Id>, state: SessionState, code: Code)
    ensures s.pending <= EndAll(s, ids, state, code).pending
    ensures forall id :: id in s.sessions && id in ids ==>
      Event(id, state, code, s.sessions[id].serial) in EndAll(s, ids, state, code).pending
    decreases |ids|
  {
    hide Terminate;
    if ids != [] {
      var n := |ids| - 1;
      var t := EndAll(s, ids[..n], state, code);
      EndAllReports(s, ids[..n], state, code);
      EndAllFrame(s, ids[..n], state, code);
      TerminateAppends(t, ids[n], state, code, false);
      if ids[n] in t.sessions { TerminateEnds(t, ids[n], state, code, false); }
      assert ids == ids[..n] + [ids[n]];
      forall id | id in s.sessions && id in ids
        ensures Event(id, state, code, s.sessions[id].serial) in EndAll(s, ids, state, code).pending
      {
        if id in ids[..n] {
          InPrefix(t.pending, EndAll(s, ids, state, code).pending, Event(id, state, code, s.sessions[id].serial));
        }
      }
    }
  }

  /** Displaced Moves are reported as preempted, and then the expired Servos as stale. */
  lemma DisplaceReports(s: State, preempted: seq<Id>, expired: seq<Id>)
    ensures var t := Displace(s, preempted, expired);
      && t.sessions == s.sessions - Members(preempted) - Members(expired)
      && (forall id :: id in s.sessions && id in preempted ==>
            Event(id, SessionState.PREEMPTED, Code.PREEMPTED, s.sessions[id].serial) in t.pending)
      && (forall id :: id in s.sessions && id in expired && id !in preempted ==>
            Event(id, ABORTED, STALE_FEEDBACK, s.sessions[id].serial) in t.pending)
  {
    hide EndAll;
    var mid := EndAll(s, preempted, SessionState.PREEMPTED, Code.PREEMPTED);
    EndAllReports(s, preempted, SessionState.PREEMPTED, Code.PREEMPTED);
    EndAllFrame(s, preempted, SessionState.PREEMPTED, Code.PREEMPTED);
    EndAllReports(mid, expired, ABORTED, STALE_FEEDBACK);
    EndAllFrame(mid, expired, ABORTED, STALE_FEEDBACK);
    forall id | id in s.sessions && id in preempted
      ensures Event(id, SessionState.PREEMPTED, Code.PREEMPTED, s.sessions[id].serial) in
                Displace(s, preempted, expired).pending
    {
      InPrefix(
        mid.pending, Displace(s, preempted, expired).pending,
        Event(id, SessionState.PREEMPTED, Code.PREEMPTED, s.sessions[id].serial));
    }
  }

  /**
    Whoever of these sessions is gone was a Servo whose lease was over, and is reported as
    stale, or a Move, and is reported as preempted.
  */
  ghost predicate AllDisplaced(
    policies: map<string, Policy>, before: map<Id, Session>, after: map<Id, Session>, events: seq<Event>, now: Time)
  {
    forall id :: id in before && id !in after ==> DisplacedAs(policies, before[id], id, events, now)
  }

  ghost predicate DisplacedAs(
    policies: map<string, Policy>, session: Session, id: Id, events: seq<Event>, now: Time)
  {
    if session.request.kind == ServoJ || session.request.kind == ServoP then
      && session.endpoint in policies && now >= session.submittedAt + policies[session.endpoint].lease
      && Event(id, ABORTED, STALE_FEEDBACK, session.serial) in events
    else Event(id, SessionState.PREEMPTED, Code.PREEMPTED, session.serial) in events
  }

  lemma NobodyDisplaced(policies: map<string, Policy>, sessions: map<Id, Session>, events: seq<Event>, now: Time)
    ensures AllDisplaced(policies, sessions, sessions, events, now)
  {
  }

  lemma DisplacedSince(
    policies: map<string, Policy>, first: map<Id, Session>, before: map<Id, Session>, after: map<Id, Session>,
    events: seq<Event>, own: Id, now: Time)
    requires before - {own} == first - {own} && own in after
    requires AllDisplaced(policies, before - {own}, after, events, now)
    ensures AllDisplaced(policies, first, after, events, now)
  {
    hide DisplacedAs;
    forall id | id in first && id !in after ensures DisplacedAs(policies, first[id], id, events, now) {
      assert id in before - {own} && (before - {own})[id] == (first - {own})[id];
    }
  }

  lemma MoveDisplaces(
    st: Static, s: State, t: State, session: Session, now: Time, code: Code, report: ArbitrationResult)
    requires InvX(st, s, CLOSED) && MoveSettles(s, t, session, now, code, report)
    requires session.request.kind.IsMove() && session.id !in s.sessions
    ensures AllDisplaced(s.arbiter.policies, s.sessions, t.sessions, t.pending, now)
  {
    hide InvX, Inv, ValidateClaim, Displace, SubmitMove, MoveResult, DisplacedAs;
    var asked := s.(arbiter := SubmitMove(s.arbiter, ClaimFor(session), now));
    DisplaceReports(asked, report.preempted, report.expired);
    MoveLosers(s.arbiter, ClaimFor(session), now, report);
    forall id | id in s.sessions && id !in t.sessions
      ensures DisplacedAs(s.arbiter.policies, s.sessions[id], id, t.pending, now)
    {
      IsDisplaced(st, s, id, report, session.id, t.pending, now);
    }
  }

  /** Those a new claim displaces are Moves the arbiter held, or Servos whose lease is over. */
  ghost predicate LosersOf(a: Arbiter, report: ArbitrationResult, own: Id, now: Time) {
    && (forall id :: id in report.preempted && id != own ==> id in a.claims && a.claims[id].claim.kind.IsMove())
    && (forall id :: id in report.expired ==> id in a.claims && a.claims[id].Expired(now))
  }

  lemma MoveLosers(a: Arbiter, claim: Claim, now: Time, report: ArbitrationResult)
    requires Inv(a) && AcceptsMove(a, claim) && claim.kind.IsMove() && MoveResult(a, claim, now, report)
    ensures LosersOf(a, report, claim.id, now)
  {
    MoveIsEntered(a, claim, now);
    hide Inv, Ranked, ValidateClaim;
    forall id | id in report.preempted && id != claim.id ensures id in a.claims && a.claims[id].claim.kind.IsMove() {
      assert id in Members(report.preempted);
    }
  }

  lemma ServoDisplaces(st: Static, s: State, t: State, session: Session, now: Time, report: ArbitrationResult)
    requires InvX(st, s, CLOSED) && ServoSettles(s, t, session, now, report) && session.request.kind.IsServo()
    ensures AllDisplaced(s.arbiter.policies, s.sessions - {session.id}, t.sessions, t.pending, now)
  {
    hide InvX, ServoSettles, DisplacedAs, LosersOf, GoneAs;
    ServoSettlesSessions(s, t, session, now, report);
    ServoSettlesLosers(s, t, session, now, report);
    forall id | id in s.sessions && id !in t.sessions && id != session.id
      ensures DisplacedAs(s.arbiter.policies, s.sessions[id], id, t.pending, now)
    {
      IsDisplaced(st, s, id, report, session.id, t.pending, now);
    }
  }

  /** How a displaced session is reported. */
  ghost predicate GoneAs(id: Id, session: Session, report: ArbitrationResult, events: seq<Event>) {
    if id in report.preempted then Event(id, SessionState.PREEMPTED, Code.PREEMPTED, session.serial) in events
    else id in report.expired && Event(id, ABORTED, STALE_FEEDBACK, session.serial) in events
  }

  lemma ServoSettlesSessions(s: State, t: State, session: Session, now: Time, report: ArbitrationResult)
    requires ServoSettles(s, t, session, now, report)
    ensures forall id :: id in s.sessions && id !in t.sessions && id != session.id ==>
      GoneAs(id, s.sessions[id], report, t.pending)
  {
    hide Inv, Displace, UpdateServo, ServoResult, AcceptsServo, ServoAsked, GoneAs, Place, ClaimFor, Revoke;
    var asked := ServoAsked(s, session, now);
    AskedSessions(s, session, now);
    PlaceElsewhere(asked, session);
    GoneReported(Place(asked, session), report);
    RevokeSessions(Displace(Place(asked, session), report.preempted, report.expired), session.joints);
  }

  lemma RevokeSessions(s: State, joints: seq<Joint>)
    ensures Revoke(s, joints).sessions == s.sessions && Revoke(s, joints).pending == s.pending
  {
  }

  lemma AskedSessions(s: State, session: Session, now: Time)
    requires Inv(s.arbiter)
    ensures ServoAsked(s, session, now).sessions == s.sessions
  {
    hide Inv, UpdateServo;
  }

  lemma PlaceElsewhere(s: State, session: Session)
    ensures forall id :: id in s.sessions && id != session.id ==>
      id in Place(s, session).sessions && Place(s, session).sessions[id] == s.sessions[id]
  {
    hide Retarget, Create;
    if session.id in s.sessions {
      RetargetSessions(s, session.id, session.request, session.submittedAt);
    } else {
      CreateSessions(s, session);
    }
  }

  lemma RetargetSessions(s: State, id: Id, request: Request, receivedAt: Time)
    requires id in s.sessions
    ensures Retarget(s, id, request, receivedAt).sessions ==
      s.sessions[id := s.sessions[id].(request := request, submittedAt := receivedAt)]
  {
  }

  lemma CreateSessions(s: State, session: Session)
    ensures Create(s, session).sessions == s.sessions[session.id := session]
  {
  }

  lemma GoneReported(s: State, report: ArbitrationResult)
    ensures var t := Displace(s, report.preempted, report.expired);
      forall id :: id in s.sessions && id !in t.sessions ==> GoneAs(id, s.sessions[id], report, t.pending)
  {
    hide Displace;
    DisplaceReports(s, report.preempted, report.expired);
  }

  lemma ServoSettlesLosers(s: State, t: State, session: Session, now: Time, report: ArbitrationResult)
    requires ServoSettles(s, t, session, now, report) && session.request.kind.IsServo()
    ensures LosersOf(s.arbiter, report, session.id, now)
  {
    hide Inv, ServoResult, AcceptsServo, LosersOf, ServoSettled, ServoAsked;
    ServoLosers(s.arbiter, ClaimFor(session), session.submittedAt, now, report);
  }

  lemma ServoLosers(a: Arbiter, claim: Claim, receivedAt: Time, now: Time, report: ArbitrationResult)
    requires Inv(a) && AcceptsServo(a, claim, receivedAt, now) && claim.kind.IsServo()
    requires ServoResult(a, claim, receivedAt, now, report)
    ensures LosersOf(a, report, claim.id, now)
  {
    EnteredRanked(a, claim, receivedAt, now);
    hide Inv, Ranked, ValidateClaim;
    forall id | id in report.preempted && id != claim.id ensures id in a.claims && a.claims[id].claim.kind.IsMove() {
      assert id in Members(report.preempted);
    }
  }

  lemma IsDisplaced(
    st: Static, s: State, id: Id, report: ArbitrationResult, own: Id, events: seq<Event>, now: Time)
    requires InvX(st, s, CLOSED) && id in s.sessions && own != id && LosersOf(s.arbiter, report, own, now)
    requires GoneAs(id, s.sessions[id], report, events)
    ensures DisplacedAs(s.arbiter.policies, s.sessions[id], id, events, now)
  {
    hide InvX;
    ClaimStandsFor(st, s, id);
  }

  /** Whoever of these sessions is gone without a turn is reported: a Servo as stale, a Move as too late. */
  ghost predicate LostReported(
    before: map<Id, Session>, after: map<Id, Session>, winners: seq<Id>, events: seq<Event>)
  {
    forall id :: id in before && id !in after && id !in winners ==> LostAs(id, before[id], events)
  }

  predicate LostAs(id: Id, session: Session, events: seq<Event>) {
    if session.request.kind == ServoJ || session.request.kind == ServoP
    then Event(id, ABORTED, STALE_FEEDBACK, session.serial) in events
    else Event(id, ABORTED, TIMEOUT, session.serial) in events
  }

  /** Every session that is gone ended as aborted with this code. */
  ghost predicate AllEnded(before: map<Id, Session>, after: map<Id, Session>, code: Code, events: seq<Event>) {
    forall id :: id in before && id !in after ==> Event(id, ABORTED, code, before[id].serial) in events
  }

  lemma LostInTwo(
    st: Static, s: State, middle: map<Id, Session>, after: map<Id, Session>, at: Time, some: seq<Event>,
    events: seq<Event>)
    requires InvX(st, s, CLOSED)
    requires forall id :: id in s.sessions && id !in middle ==>
      id in s.arbiter.claims && s.arbiter.claims[id].Expired(at)
    requires forall id :: id in middle ==> id in s.sessions && Continues(s.sessions[id], middle[id])
    requires forall id :: id in middle && id !in after ==> middle[id].request.kind.IsMove()
    requires AllEnded(s.sessions, middle, STALE_FEEDBACK, some) && forall e :: e in some ==> e in events
    requires AllEnded(middle, after, TIMEOUT, events)
    ensures LostReported(s.sessions, after, [], events)
  {
    hide InvX;
    forall id | id in s.sessions && id !in after ensures LostAs(id, s.sessions[id], events) {
      ClaimStandsFor(st, s, id);
    }
  }

  lemma LostReportedMore(
    before: map<Id, Session>, middle: map<Id, Session>, after: map<Id, Session>, winners: seq<Id>, some: seq<Event>,
    events: seq<Event>)
    requires LostReported(before, middle, [], some) && some <= events
    requires forall id :: id in middle && id !in after ==> id in winners
    ensures LostReported(before, after, winners, events)
  {
    forall id | id in before && id !in after && id !in winners ensures LostAs(id, before[id], events) {
      assert LostAs(id, before[id], some);
      forall e | e in some ensures e in events { InPrefix(some, events, e); }
    }
  }

  lemma EventsGrow(s: State, t: State, handed: seq<Event>, some: seq<Event>, events: seq<Event>)
    requires Evolves(s, t) && s.delivered == handed + some && t.delivered == handed + events
    ensures some <= events
  {
    hide StartsGrow;
    assert events == t.delivered[|handed|..] && some == s.delivered[|handed|..];
  }

  lemma EndedMore(
    before: map<Id, Session>, middle: map<Id, Session>, after: map<Id, Session>, code: Code, some: seq<Event>,
    events: seq<Event>)
    requires AllEnded(before, middle, code, some) && some <= events
    requires forall id :: id in middle ==> id in before && middle[id].serial == before[id].serial
    requires forall id :: id in middle && id !in after ==> Event(id, ABORTED, code, middle[id].serial) in events
    ensures AllEnded(before, after, code, events)
  {
    forall e | e in some ensures e in events { InPrefix(some, events, e); }
  }

  /** After a tick every live Servo's last target was within its lease when the tick began. */
  lemma ServosAreCurrent(st: Static, s: State, sessions: map<Id, Session>, at: Time)
    requires InvX(st, s, CLOSED) && Unexpired(sessions, s.arbiter.claims, at)
    requires forall id :: id in sessions ==> id in s.sessions && Continues(s.sessions[id], sessions[id])
    ensures forall id |
        id in sessions && (sessions[id].request.kind == ServoJ || sessions[id].request.kind == ServoP) ::
      && sessions[id].endpoint in s.arbiter.policies
      && at < sessions[id].submittedAt + s.arbiter.policies[sessions[id].endpoint].lease
  {
    hide InvX;
    forall id | id in sessions && (sessions[id].request.kind == ServoJ || sessions[id].request.kind == ServoP)
      ensures sessions[id].endpoint in s.arbiter.policies
      ensures at < sessions[id].submittedAt + s.arbiter.policies[sessions[id].endpoint].lease
    {
      ClaimStandsFor(st, s, id);
    }
  }

  /** Whoever a tick loses without a turn is an expired Servo, or after a pause an active Move. */
  lemma LostWithoutTurn(st: Static, s: State, t: State, winners: seq<Id>, at: Time, paused: bool)
    requires InvX(st, s, CLOSED) && OnlyLost(s, t, winners, at, paused)
    ensures forall id :: id in s.sessions && id !in t.sessions && id !in winners ==>
      || (&& (s.sessions[id].request.kind == ServoJ || s.sessions[id].request.kind == ServoP)
          && s.sessions[id].endpoint in s.arbiter.policies
          && at >= s.sessions[id].submittedAt + s.arbiter.policies[s.sessions[id].endpoint].lease)
      || (paused && id in s.active && s.sessions[id].request.kind != ServoJ && s.sessions[id].request.kind != ServoP)
  {
    hide InvX;
    forall id | id in s.sessions && id !in t.sessions && id !in winners
      ensures
        || (&& (s.sessions[id].request.kind == ServoJ || s.sessions[id].request.kind == ServoP)
            && s.sessions[id].endpoint in s.arbiter.policies
            && at >= s.sessions[id].submittedAt + s.arbiter.policies[s.sessions[id].endpoint].lease)
        || (paused && id in s.active && s.sessions[id].request.kind != ServoJ && s.sessions[id].request.kind != ServoP)
    {
      ClaimStandsFor(st, s, id);
      assert LostSession(s, id, winners, at, paused);
    }
  }

  lemma DeactivateParts(s: State, id: Id)
    requires id in s.sessions
    ensures var t := s.(current := s.current - {id});
            Deactivate(s, id) == t.(
              active := t.active - {id}, outputs := t.outputs - {id},
              sessions := t.sessions[id := t.sessions[id].(started := false)])
  {
  }

  lemma DeactivateActive(s: State, id: Id)
    ensures Deactivate(s, id).active == s.active - {id}
    ensures id in s.sessions ==> Deactivate(s, id).sessions.Keys == s.sessions.Keys
  {
  }

  /** The sessions that are left are as active as before. */
  ghost predicate SameActivity(s: State, t: State) {
    forall id :: id in t.sessions ==> (id in t.active <==> id in s.active)
  }

  lemma EndAllActivity(s: State, ids: seq<Id>, state: SessionState, code: Code)
    ensures SameActivity(s, EndAll(s, ids, state, code))
  {
    hide EndAll;
    EndAllFrame(s, ids, state, code);
    var t := EndAll(s, ids, state, code);
    forall id | id in t.sessions ensures id in t.active <==> id in s.active {
      EndAllElsewhere(s, ids, state, code, id);
    }
  }

  lemma UnexpiredShrinks(s: State, t: State, claims: Claims, at: Time)
    requires Unexpired(s.sessions, claims, at) && Shrinks(s, t)
    ensures Unexpired(t.sessions, claims, at)
  {
  }

  ghost predicate NoMovesLeft(active: set<Id>, sessions: map<Id, Session>) {
    forall id :: id in active && id in sessions ==> sessions[id].request.kind.IsServo()
  }

  lemma MovesAreGone(active: set<Id>, sessions: map<Id, Session>)
    requires NoMovesLeft(active, sessions)
    ensures forall id :: id in active && id in sessions ==>
      sessions[id].request.kind == ServoJ || sessions[id].request.kind == ServoP
  {
  }

  lemma NoMovesShrinks(s: State, t: State, u: State)
    requires SameActivity(s, t) && NoMovesLeft(t.active, u.sessions) && Shrinks(t, u)
    ensures NoMovesLeft(s.active, u.sessions)
  {
  }

  lemma NoMovesStay(s: State, t: State, active: set<Id>)
    requires NoMovesLeft(active, s.sessions) && Shrinks(s, t)
    ensures NoMovesLeft(active, t.sessions) && (s.active == {} ==> t.active == {})
  {
  }

  /** The winner at `k` takes its turn among all the winners. */
  lemma TurnWithin(st: Static, s: State, t: State, u: State, winners: seq<Id>, k: nat, cycle: Cycle)
    requires k < |winners| && winners[k] in t.sessions && InvX(st, t, CLOSED) && Ticked(s, t, winners[..k], cycle)
    requires WinnersApart(s.sessions, winners) && t.active <= Members(winners)
    requires Processed(t, u, winners[k], cycle) && Evolves(t, u)
    ensures Ticked(s, u, winners[..k + 1], cycle) && u.active <= Members(winners)
  {
    hide InvX, Evolves, Ticked, WinnersApart, Processed, Local;
    var w := winners[k];
    TurnIsApart(s, t, winners, k, cycle);
    assert winners[..k + 1] == winners[..k] + [w];
    TurnTaken(st, s, t, u, winners[..k], w, cycle);
    ProcessedIsLocal(t, u, w, cycle);
    TurnStaysActive(t, u, w, winners);
  }

  lemma TurnIsApart(s: State, t: State, winners: seq<Id>, k: nat, cycle: Cycle)
    requires k < |winners| && winners[k] in t.sessions && Ticked(s, t, winners[..k], cycle)
    requires WinnersApart(s.sessions, winners) && t.active <= Members(winners)
    ensures Apart(t, winners[k]) && winners[k] !in winners[..k]
    ensures forall id :: id in winners[..k] && id in s.sessions && winners[k] in s.sessions ==>
      !Overlaps(s.sessions[id].joints, s.sessions[winners[k]].joints)
  {
    hide CommandsOk, SessionsLeft, Served, Overlaps, Apart;
    WinnerIsApart(s, t, winners, winners[..k], winners[k]);
  }

  lemma TickedContinues(s: State, t: State, winners: seq<Id>, cycle: Cycle)
    requires Ticked(s, t, winners, cycle) && s.active <= Members(winners)
    ensures forall id :: id in t.sessions ==> id in s.sessions && Continues(s.sessions[id], t.sessions[id])
    ensures forall id :: id in s.sessions && id !in t.sessions ==> id in winners
  {
    hide CommandsOk, Served, SameBut;
    LeftOver(s, t, winners);
  }

  lemma FewerSessions(some: map<Id, Session>, fewer: map<Id, Session>, claims: Claims, at: Time, active: set<Id>)
    requires forall id :: id in fewer ==> id in some && Continues(some[id], fewer[id])
    ensures Unexpired(some, claims, at) ==> Unexpired(fewer, claims, at)
    ensures NoMovesLeft(active, some) ==> NoMovesLeft(active, fewer)
  {
  }

  // ---- The turns of a tick ----

  /**
    A winner's turn: its session as the turn began, how the turn ended, all answers of the SDK up
    to then, the first of its own, the one its output is, when it ended, and the command it added.
  */
  datatype Turn =
    | Skipped
    | Taken(
        session: Session, judgement: Judgement, said: seq<Answer>, from: nat, shaped: int, endedAt: Time,
        returned: Option<JointCommand>)

  /** The command is the output but for its session, deadline and token. */
  predicate Bears(c: JointCommand, output: JointCommand) {
    c == output.(session := c.session, validUntil := c.validUntil, token := c.token)
  }

  /** How a winner's turn went, told from its inputs. */
  ghost predicate TurnOk(
    st: Static, config: Goals.Config, s: State, cycle: Cycle, retries: map<string, Time>, id: Id, turn: Turn)
  {
    match turn
    case Skipped => id !in s.sessions
    case Taken(session, judgement, said, from, shaped, endedAt, returned) =>
      && id in s.sessions && Continues(s.sessions[id], session) && session.endpoint in s.arbiter.policies
      && session.group in st.groups && ValidGroup(st.groups[session.group])
      && var lease, group := s.arbiter.policies[session.endpoint].lease, st.groups[session.group];
         if judgement.Waiting? then
           && (session.request.kind == ServoJ || session.request.kind == ServoP) && !session.started
           && session.endpoint in retries && cycle.now < retries[session.endpoint]
         else if judgement.Failed? then
           Founded(st, session, lease, cycle, endedAt, said, from, judgement.failure, returned.Some?)
         else
           && 0 <= shaped < |said| && said[shaped].ToShape?
           && Returned(group, id, said, from, shaped, said[shaped].output)
           && (session.request.kind == ServoJ || session.request.kind == ServoP ==> judgement.Unwatched?)
           && (judgement.Judged? ==>
                 GoalOf(session, judgement.goal) && (judgement.pose.Some? <==> session.request.kind != MoveJ))
           && if Replaced(cycle, config, judgement) then returned.Some? || SomeBad(group, said, shaped + 1)
              else
                && returned.Some? && Bears(returned.value, said[shaped].output)
                && Stamped(st.config, session, lease, cycle, returned.value)
  }

  /** Every winner had its turn, before `until`, with answers the SDK gave. */
  ghost predicate TurnsOk(
    st: Static, config: Goals.Config, s: State, cycle: Cycle, retries: map<string, Time>, winners: seq<Id>,
    turns: seq<Turn>, first: nat, answers: seq<Answer>, until: Time)
  {
    && |turns| == |winners|
    && forall k | 0 <= k < |turns| ::
         && TurnOk(st, config, s, cycle, retries, winners[k], turns[k])
         && (turns[k].Taken? ==>
               first <= turns[k].from && turns[k].said <= answers && turns[k].endedAt <= until)
  }

  /** The command a turn added, if it did. */
  function Added(before: seq<JointCommand>, after: seq<JointCommand>): Option<JointCommand> {
    if |after| > |before| then Some(after[|before|]) else None
  }

  lemma TurnIsOk(
    st: Static, config: Goals.Config, s: State, t: State, id: Id, cycle: Cycle, retries: map<string, Time>,
    judgement: Judgement, said: seq<Answer>, from: nat, shaped: int, endedAt: Time)
    requires Concluded(s, t, id, cycle, config, judgement)
    requires id in s.sessions && s.sessions[id].endpoint in s.arbiter.policies && s.sessions[id].id == id
    requires s.sessions[id].group in st.groups && ValidGroup(st.groups[s.sessions[id].group])
    requires var lease := s.arbiter.policies[s.sessions[id].endpoint].lease;
      if judgement.Waiting? then
        s.sessions[id].endpoint in retries && cycle.now < retries[s.sessions[id].endpoint]
      else if judgement.Failed? then
        Founded(st, s.sessions[id], lease, cycle, endedAt, said, from, judgement.failure, |t.commands| > |s.commands|)
      else
        Turned(
          st, s.sessions[id], lease, cycle, said, from, shaped, Replaced(cycle, config, judgement), s.commands,
          t.commands)
    ensures TurnOk(
      st, config, s, cycle, retries, id,
      Taken(s.sessions[id], judgement, said, from, shaped, endedAt, Added(s.commands, t.commands)))
  {
    hide Aborted, Produced, FailedAs, JudgedAs, Returned, SomeBad, ValidGroup, Founded, Replaced, EndedAs, Stamped,
      NewlyReached;
    if judgement.Judged? { GoalFromIsOf(s, t, id, judgement.goal, judgement.history); }
  }

  lemma GoalFromIsOf(s: State, t: State, id: Id, goal: Goals.Goal, history: seq<Goals.Observation>)
    requires GoalFrom(s, t, id, goal, history)
    ensures id in s.sessions && GoalOf(s.sessions[id], goal) && s.sessions[id].request.kind.IsMove()
  {
    hide NewlyReached;
  }

  /** A turn in the middle of a tick is one of the session as the winners' turns began. */
  lemma TurnAmongOthers(
    st: Static, config: Goals.Config, s: State, t: State, winners: seq<Id>, k: nat, cycle: Cycle,
    retries: map<string, Time>, turn: Turn)
    requires k < |winners| && WinnersApart(s.sessions, winners) && Ticked(s, t, winners[..k], cycle)
    requires TurnOk(st, config, t, cycle, retries, winners[k], turn)
    ensures TurnOk(st, config, s, cycle, retries, winners[k], turn)
  {
    hide CommandsOk, Served, SameBut, Founded, Turned, Returned, ValidGroup, Replaced, SomeBad, Stamped, GoalOf,
      Overlaps;
    assert winners[k] !in Members(winners[..k]);
    Elsewhere(s, t, Members(winners[..k]), winners[k]);
  }

  lemma OneMoreTurn(
    st: Static, config: Goals.Config, s: State, cycle: Cycle, retries: map<string, Time>, winners: seq<Id>, id: Id,
    turns: seq<Turn>, turn: Turn, first: nat, answers: seq<Answer>, until: Time, more: seq<Answer>, later: Time)
    requires TurnsOk(st, config, s, cycle, retries, winners, turns, first, answers, until)
    requires answers <= more && until <= later && TurnOk(st, config, s, cycle, retries, id, turn)
    requires turn.Taken? ==> first <= turn.from && turn.said <= more && turn.endedAt <= later
    ensures TurnsOk(st, config, s, cycle, retries, winners + [id], turns + [turn], first, more, later)
  {
    hide TurnOk;
  }

  /** Seen from before the tick's preparation, which only ends or stops sessions. */
  lemma TurnsFromStart(
    st: Static, config: Goals.Config, s: State, t: State, cycle: Cycle, retries: map<string, Time>,
    winners: seq<Id>, turns: seq<Turn>, first: nat, answers: seq<Answer>, until: Time)
    requires Shrinks(s, t) && TurnsOk(st, config, t, cycle, retries, winners, turns, first, answers, until)
    ensures |turns| == |winners|
    ensures forall k | 0 <= k < |turns| && turns[k].Taken? ::
      && TurnOk(st, config, s, cycle, retries, winners[k], turns[k])
      && first <= turns[k].from && turns[k].said <= answers && turns[k].endedAt <= until
    ensures forall k | 0 <= k < |turns| && turns[k].Skipped? :: winners[k] !in t.sessions
  {
    hide Founded, Turned, Returned, ValidGroup, Replaced, SomeBad, Stamped, GoalOf;
  }

  /** Two winners are of different endpoints: sessions of one endpoint are of one group. */
  lemma EndpointsApart(st: Static, s: State, winners: seq<Id>, j: nat, k: nat)
    requires InvX(st, s, CLOSED) && WinnersApart(s.sessions, winners) && j < |winners| && k < |winners| && j != k
    requires ValidStatic(st) && winners[j] in s.sessions && winners[k] in s.sessions
    ensures s.sessions[winners[j]].endpoint != s.sessions[winners[k]].endpoint
  {
    hide InvX;
    ArbiterHolds(st, s, CLOSED);
    assert SessionOk(s.arbiter.policies, st.groups, winners[j], s.sessions[winners[j]]);
    assert SessionOk(s.arbiter.policies, st.groups, winners[k], s.sessions[winners[k]]);
    OverlapsItself(s.sessions[winners[j]].joints);
  }

  lemma OverlapsItself(joints: seq<Joint>)
    ensures joints != [] ==> Overlaps(joints, joints)
  {
    if joints != [] { assert joints[0] in joints; }
  }

  /** For the winners from `k` on the times to wait for are still those at the tick's start. */
  ghost predicate RetriesLeft(
    s: State, winners: seq<Id>, k: nat, retries: map<string, Time>, now: map<string, Time>)
  {
    forall j | k <= j < |winners| && winners[j] in s.sessions ::
      SameWait(retries, now, s.sessions[winners[j]].endpoint)
  }

  predicate SameWait(retries: map<string, Time>, now: map<string, Time>, endpoint: string) {
    (endpoint in now <==> endpoint in retries) && (endpoint in retries ==> now[endpoint] == retries[endpoint])
  }

  lemma RetriesLeftNext(
    st: Static, s: State, winners: seq<Id>, k: nat, retries: map<string, Time>, now: map<string, Time>,
    next: map<string, Time>)
    requires RetriesLeft(s, winners, k, retries, now) && k < |winners| && WinnersApart(s.sessions, winners)
    requires InvX(st, s, CLOSED) && ValidStatic(st)
    requires winners[k] in s.sessions ==> forall e :: e != s.sessions[winners[k]].endpoint ==> SameWait(now, next, e)
    requires winners[k] !in s.sessions ==> next == now
    ensures RetriesLeft(s, winners, k + 1, retries, next)
  {
    hide InvX, WinnersApart, ValidStatic;
    forall j | k + 1 <= j < |winners| && winners[j] in s.sessions
      ensures SameWait(retries, next, s.sessions[winners[j]].endpoint)
    {
      if winners[k] in s.sessions { EndpointsApart(st, s, winners, j, k); }
      assert SameWait(retries, now, s.sessions[winners[j]].endpoint);
      assert SameWait(now, next, s.sessions[winners[j]].endpoint);
    }
  }

  lemma RetriesAtStart(s: State, winners: seq<Id>, retries: map<string, Time>)
    ensures RetriesLeft(s, winners, 0, retries, retries)
  {
  }

  /** What the turns added is among the commands. */
  ghost predicate HandedOut(turns: seq<Turn>, commands: seq<JointCommand>) {
    forall k | 0 <= k < |turns| && turns[k].Taken? && turns[k].returned.Some? :: turns[k].returned.value in commands
  }

  lemma HandedMore(turns: seq<Turn>, turn: Turn, before: seq<JointCommand>, after: seq<JointCommand>)
    requires HandedOut(turns, before) && before <= after && (turn.Taken? ==> turn.returned == Added(before, after))
    ensures HandedOut(turns + [turn], after)
  {
    forall c | c in before ensures c in after {
      var i :| 0 <= i < |before| && before[i] == c;
      assert after[i] == c;
    }
  }

  /** The failure of a winner is reported with its code. */
  ghost predicate FailuresReported(winners: seq<Id>, turns: seq<Turn>, events: seq<Event>) {
    && |turns| == |winners|
    && forall k | 0 <= k < |turns| && turns[k].Taken? && turns[k].judgement.Failed? ::
         Event(winners[k], ABORTED, CodeOf(turns[k].judgement.failure), turns[k].session.serial) in events
  }

  lemma ReportedMore(
    winners: seq<Id>, id: Id, turns: seq<Turn>, turn: Turn, before: seq<Event>, after: seq<Event>)
    requires FailuresReported(winners, turns, before) && before <= after
    requires turn.Taken? && turn.judgement.Failed? ==>
      Event(id, ABORTED, CodeOf(turn.judgement.failure), turn.session.serial) in after
    ensures FailuresReported(winners + [id], turns + [turn], after)
  {
    forall e | e in before ensures e in after {
      var i :| 0 <= i < |before| && before[i] == e;
      assert after[i] == e;
    }
  }

  /** A turn adds at most one command and reports at most its own session's end. */
  lemma TurnAdds(s: State, t: State, id: Id, cycle: Cycle)
    requires Processed(s, t, id, cycle)
    ensures s.commands <= t.commands && s.pending <= t.pending
  {
    hide IssuedFor, Local, Grown, Latest;
  }

  lemma FailureIsReported(s: State, t: State, id: Id, cycle: Cycle, failure: Failure)
    requires FailedAs(s, t, id, cycle, failure)
    ensures id in s.sessions && Event(id, ABORTED, CodeOf(failure), s.sessions[id].serial) in t.pending
  {
    hide Aborted;
  }

  lemma ConcludedReports(s: State, t: State, id: Id, cycle: Cycle, config: Goals.Config, judgement: Judgement)
    requires Concluded(s, t, id, cycle, config, judgement)
    ensures judgement.Failed? ==>
      id in s.sessions &&
      Event(id, ABORTED, CodeOf(judgement.failure), s.sessions[id].serial) in t.pending
  {
    hide FailedAs, Produced, Aborted, JudgedAs, GoalFrom, NewlyReached;
    if judgement.Failed? { FailureIsReported(s, t, id, cycle, judgement.failure); }
  }

  /** A winner whose session is already gone has no turn. */
  lemma SkipsTurn(
    st: Static, config: Goals.Config, s: State, t: State, winners: seq<Id>, k: nat, cycle: Cycle,
    retries: map<string, Time>, now: map<string, Time>)
    requires k < |winners| && WinnersApart(s.sessions, winners) && Ticked(s, t, winners[..k], cycle)
    requires winners[k] !in t.sessions && RetriesLeft(s, winners, k, retries, now) && InvX(st, s, CLOSED)
    requires ValidStatic(st)
    ensures TurnOk(st, config, s, cycle, retries, winners[k], Skipped) && RetriesLeft(s, winners, k + 1, retries, now)
  {
    hide CommandsOk, Served, SameBut, InvX, RetriesLeft, Overlaps;
    assert winners[k] !in Members(winners[..k]);
    Elsewhere(s, t, Members(winners[..k]), winners[k]);
    RetriesLeftNext(st, s, winners, k, retries, now, now);
  }

  /** The winner whose turn comes is as it was before all turns. */
  lemma TurnUntouched(s: State, t: State, winners: seq<Id>, k: nat, cycle: Cycle)
    requires k < |winners| && WinnersApart(s.sessions, winners) && Ticked(s, t, winners[..k], cycle)
    requires winners[k] in t.sessions
    ensures winners[k] in s.sessions && s.sessions[winners[k]] == t.sessions[winners[k]]
  {
    hide CommandsOk, Served, SameBut, Overlaps;
    assert winners[k] !in Members(winners[..k]);
    Elsewhere(s, t, Members(winners[..k]), winners[k]);
  }

  lemma WaitsAsBefore(
    s: State, winners: seq<Id>, k: nat, retries: map<string, Time>, now: map<string, Time>)
    requires RetriesLeft(s, winners, k, retries, now) && k < |winners| && winners[k] in s.sessions
    ensures SameWait(retries, now, s.sessions[winners[k]].endpoint)
  {
  }

  /** What a winner's turn came to, once the tick is over. */
  ghost predicate TurnResult(
    st: Static, config: Goals.Config, s: State, cycle: Cycle, retries: map<string, Time>, id: Id, turn: Turn,
    first: nat, answers: seq<Answer>, commands: seq<JointCommand>, events: seq<Event>, paused: bool, finishedAt: Time)
  {
    match turn
    case Skipped =>
      && paused && id in s.active && id in s.sessions
      && s.sessions[id].request.kind != ServoJ && s.sessions[id].request.kind != ServoP
    case Taken(session, judgement, said, from, _, endedAt, returned) =>
      && TurnOk(st, config, s, cycle, retries, id, turn)
      && first <= from && said <= answers && endedAt <= finishedAt
      && (returned.Some? ==>
            || returned.value in commands
            || (returned.value.validUntil.Some? && finishedAt >= returned.value.validUntil.value))
      && (judgement.Failed? ==> Event(id, ABORTED, CodeOf(judgement.failure), session.serial) in events)
  }

  ghost predicate TurnsResult(
    st: Static, config: Goals.Config, s: State, cycle: Cycle, retries: map<string, Time>, winners: seq<Id>,
    turns: seq<Turn>, first: nat, answers: seq<Answer>, commands: seq<JointCommand>, events: seq<Event>,
    paused: bool, finishedAt: Time)
  {
    && |turns| == |winners|
    && forall k | 0 <= k < |turns| ::
         TurnResult(
           st, config, s, cycle, retries, winners[k], turns[k], first, answers, commands, events, paused, finishedAt)
  }

  /** A winner is not expired, so it loses its turn only to a pause. */
  lemma SkippedIsPaused(
    st: Static, s: State, t: State, winners: seq<Id>, id: Id, at: Time, paused: bool)
    requires InvX(st, s, CLOSED) && OnlyLost(s, t, [], at, paused) && id in winners && id !in t.sessions
    requires WinnersInOrder(winners, Live(s.arbiter.claims, at))
    ensures paused && id in s.active && id in s.sessions
    ensures s.sessions[id].request.kind != ServoJ && s.sessions[id].request.kind != ServoP
  {
    hide InvX, Ranked, Blocked;
    SessionsAreClaims(st, s);
    var live := Live(s.arbiter.claims, at);
    assert id in Members(winners) && id in live;
    assert LostSession(s, id, [], at, paused);
  }

  lemma TurnsEnd(
    st: Static, config: Goals.Config, s: State, t: State, cycle: Cycle, retries: map<string, Time>,
    winners: seq<Id>, turns: seq<Turn>, first: nat, answers: seq<Answer>, until: Time, added: seq<JointCommand>,
    commands: seq<JointCommand>, reported: seq<Event>, events: seq<Event>, paused: bool, finishedAt: Time)
    requires Shrinks(s.(commands := []), t) && until <= finishedAt
    requires TurnsOk(st, config, t, cycle, retries, winners, turns, first, answers, until)
    requires HandedOut(turns, added) && FailuresReported(winners, turns, reported)
    requires forall c :: c in added && c !in commands ==> c.validUntil.Some? && finishedAt >= c.validUntil.value
    requires forall e :: e in reported ==> e in events
    requires InvX(st, s, CLOSED) && OnlyLost(s, t, [], cycle.startedAt, paused)
    requires WinnersInOrder(winners, Live(s.arbiter.claims, cycle.startedAt))
    ensures TurnsResult(
      st, config, s, cycle, retries, winners, turns, first, answers, commands, events, paused, finishedAt)
  {
    hide InvX, Shrinks, TurnOk, OnlyLost, WinnersInOrder;
    TurnsFromStart(st, config, s.(commands := []), t, cycle, retries, winners, turns, first, answers, until);
    forall k | 0 <= k < |turns|
      ensures TurnResult(
        st, config, s, cycle, retries, winners[k], turns[k], first, answers, commands, events, paused, finishedAt)
    {
      if turns[k].Skipped? {
        SkippedIsPaused(st, s, t, winners, winners[k], cycle.startedAt, paused);
      } else {
        CommandsAside(st, config, s, cycle, retries, winners[k], turns[k]);
      }
    }
  }

  lemma CommandsAside(
    st: Static, config: Goals.Config, s: State, cycle: Cycle, retries: map<string, Time>, id: Id, turn: Turn)
    requires TurnOk(st, config, s.(commands := []), cycle, retries, id, turn)
    ensures TurnOk(st, config, s, cycle, retries, id, turn)
  {
    hide Founded, Turned, Returned, ValidGroup, Replaced, SomeBad, Stamped, GoalOf;
  }

  lemma OnlyLostMore(s: State, t: State, winners: seq<Id>, at: Time, paused: bool)
    requires OnlyLost(s, t, [], at, paused)
    ensures OnlyLost(s, t, winners, at, paused)
  {
    forall id | id in s.sessions && id !in t.sessions ensures LostSession(s, id, winners, at, paused) {
      assert LostSession(s, id, [], at, paused);
    }
  }
}
