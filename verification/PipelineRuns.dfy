/**
  Whole runs of the pipeline. Every public method keeps the invariant and relates the
  states before and after by `Evolves`, so any sequence of calls is a history; what
  follows holds of every history.
*/
module PipelineRuns {
  import opened MotionTypes
  import opened Arbitration
  import opened ControlArbiters
  import opened LimitRecovery
  import opened SdkBackend
  import opened PipelineModel
  import opened TurnModel
  import opened TickModel
  import opened CommandPipelines
  import Stamps = InputTimestamps

  /** The states between the calls of one run. */
  ghost predicate History(st: Static, states: seq<State>) {
    && (forall k :: 0 <= k < |states| ==> InvX(st, states[k], CLOSED))
    && (forall k :: 0 < k < |states| ==> Evolves(states[k - 1], states[k]))
  }

  lemma {:induction false} EvolvesAcross(st: Static, states: seq<State>, i: nat, j: nat)
    requires History(st, states) && i <= j < |states|
    ensures Evolves(states[i], states[j])
    decreases j - i
  {
    hide InvX, Evolves;
    if i == j {
      EvolvesReflexive(states[i]);
    } else {
      EvolvesAcross(st, states, i, j - 1);
      assert Evolves(states[j - 1], states[j]);
      EvolvesTransitive(states[i], states[j - 1], states[j]);
    }
  }

  datatype Call =
    | RegisterEndpoint(policy: Policy)
    | SubmitMove(endpoint: string, request: Request, now: Time, generation: nat)
    | UpdateServo(endpoint: string, request: Request, receivedAt: Time, now: Time, generation: nat)
    | Cancel(id: Id)
    | SetOutputPermit(enabled: bool, generation: nat)
    | Tick(feedback: Feedback, now: Time)
    | ValidateCommand(command: JointCommand, now: Time)
    | PublishCommand(command: JointCommand, now: Time)
    | PublishCommands(batch: seq<JointCommand>, now: Time)

  /** No Move is submitted under an id reserved for Servos. */
  predicate Proper(call: Call) {
    call.SubmitMove? || call.UpdateServo? ==> call.request.kind.IsMove() ==> !IsServoId(call.request.id)
  }

  /** Only a submission under the permission in force creates a session, at most one; any other changes nothing. */
  ghost predicate CreatesUnderPermission(s: State, call: Call, t: State) {
    && (t.created != s.created ==>
          && (call.SubmitMove? || call.UpdateServo?) && t.created == s.created + 1
          && s.enabled && call.generation == s.generation)
    && ((call.SubmitMove? || call.UpdateServo?) && !(s.enabled && call.generation == s.generation) ==> t == s)
  }

  method Perform(pipeline: CommandPipeline, call: Call)
    requires pipeline.Valid() && Proper(call)
    modifies pipeline, pipeline.arbiter, pipeline.monitor, pipeline.backend, pipeline.backend.sdk,
      pipeline.clock
    ensures pipeline.Valid() && Evolves(old(pipeline.State()), pipeline.State())
    ensures CreatesUnderPermission(old(pipeline.State()), call, pipeline.State())
  {
    hide Evolves, MoveOutcome, ServoOutcome, CommandPipeline.ValidX, CommandPipeline.State;
    pipeline.Shown();
    if call.SubmitMove? || call.UpdateServo? {
      Submit(pipeline, call);
    } else {
      PerformOther(pipeline, call);
    }
    pipeline.Shown();
  }

  method Submit(pipeline: CommandPipeline, call: Call)
    requires pipeline.Valid() && Proper(call) && (call.SubmitMove? || call.UpdateServo?)
    modifies pipeline, pipeline.arbiter, pipeline.monitor, pipeline.backend, pipeline.backend.sdk,
      pipeline.clock
    ensures pipeline.Valid() && Evolves(old(pipeline.State()), pipeline.State())
    ensures CreatesUnderPermission(old(pipeline.State()), call, pipeline.State())
  {
    hide Evolves, MoveOutcome, ServoOutcome, CommandPipeline.ValidX, CommandPipeline.State;
    pipeline.Shown();
    ghost var s := pipeline.State();
    match call {
      case SubmitMove(endpoint, request, now, generation) =>
        var _, _, _ := pipeline.SubmitMove(endpoint, request, now, generation);
      case UpdateServo(endpoint, request, receivedAt, now, generation) =>
        var _, _, _ := pipeline.UpdateServo(endpoint, request, receivedAt, now, generation);
    }
    pipeline.Shown();
    CreatedGrows(s, pipeline.State());
  }

  lemma CreatedGrows(s: State, t: State)
    requires Evolves(s, t)
    ensures s.created <= t.created
  {
  }

  method PerformOther(pipeline: CommandPipeline, call: Call)
    requires pipeline.Valid() && !call.SubmitMove? && !call.UpdateServo?
    modifies pipeline, pipeline.arbiter, pipeline.monitor, pipeline.backend, pipeline.backend.sdk,
      pipeline.clock
    ensures pipeline.Valid() && Evolves(old(pipeline.State()), pipeline.State())
    ensures pipeline.created == old(pipeline.created)
  {
    hide Evolves, TickResult, Terminate, EndAll, Screened, Published, CommandPipeline.ValidX, CommandPipeline.State;
    match call {
      case RegisterEndpoint(policy) => var _ := pipeline.RegisterEndpoint(policy);
      case Cancel(id) => var _ := pipeline.Cancel(id);
      case SetOutputPermit(enabled, generation) => var _ := pipeline.SetOutputPermit(enabled, generation);
      case Tick(feedback, now) => var _, _, _, _ := pipeline.Tick(feedback, now);
      case ValidateCommand(command, now) => var _ := pipeline.ValidateCommandForPublication(command, now);
      case PublishCommand(command, now) => var _, _ := pipeline.PublishCommand(command, now);
      case PublishCommands(batch, now) => var _, _, _, _ := pipeline.PublishCommands(batch, now);
    }
  }

  /** The calls of a new pipeline, whatever they are, are a history. */
  method Drive(st: Static, config: Goals.Config, calls: seq<Call>)
    returns (pipeline: CommandPipeline, ghost states: seq<State>)
    requires ValidStatic(st) && Goals.ConfigValid(config)
    requires config.moveTimeout == st.config.moveTimeout && config.stableDuration == st.config.stableDuration
    requires forall call :: call in calls ==> Proper(call)
    ensures |states| == |calls| + 1 && states[0] == Initial()
    ensures pipeline.Valid() && pipeline.st == st && states[|calls|] == pipeline.State()
    ensures History(st, states)
    ensures forall k | 0 <= k < |calls| :: CreatesUnderPermission(states[k], calls[k], states[k + 1])
  {
    hide InvX, Evolves, ValidStatic, CreatesUnderPermission, CommandPipeline.ValidX, CommandPipeline.State;
    pipeline := new CommandPipeline(st, config);
    pipeline.Invariant();
    states := [pipeline.State()];
    for k := 0 to |calls|
      invariant fresh(pipeline) && fresh(pipeline.arbiter) && fresh(pipeline.monitor) && fresh(pipeline.backend)
      invariant fresh(pipeline.clock) && fresh(pipeline.backend.sdk) && pipeline.Valid() && pipeline.st == st
      invariant |states| == k + 1 && states[0] == Initial() && states[k] == pipeline.State()
      invariant History(st, states)
      invariant forall i | 0 <= i < k :: CreatesUnderPermission(states[i], calls[i], states[i + 1])
    {
      assert Proper(calls[k]);
      Perform(pipeline, calls[k]);
      pipeline.Invariant();
      states := states + [pipeline.State()];
    }
  }

  /** Every live session was submitted under the permission now in force; none outlives a change of it. */
  lemma PermissionBindsSessions(st: Static, states: seq<State>, i: nat, j: nat, id: Id)
    requires History(st, states) && i <= j < |states| && id in states[i].sessions
    ensures states[i].enabled && states[i].sessions[id].generation == states[i].generation
    ensures !states[j].enabled || states[j].generation != states[i].generation ==>
      !LiveSerial(states[j].sessions, states[i].sessions[id].serial)
  {
    hide Evolves, LiveSerial;
    EvolvesAcross(st, states, i, j);
    OnlyPermittedHolds(st, states[i]);
    OnlyPermittedHolds(st, states[j]);
    if LiveSerial(states[j].sessions, states[i].sessions[id].serial) {
      SerialKeepsGeneration(st, states[i], states[j], id);
    }
  }

  lemma OnlyPermittedHolds(st: Static, s: State)
    requires InvX(st, s, CLOSED)
    ensures OnlyPermitted(s.sessions, s.enabled, s.generation)
    ensures EventsOk(s.sessions, s.created, s.delivered + s.pending)
  {
    hide Agree, BackendAgrees, StartsOk, RequestsOk, ActiveDisjoint, WatchOk, PermitsOk, LogOk, FreshLog, EventsOk,
      SuccessListed, SuccessesOk, RecoveryOk, IssuedOk, TrailsOk;
  }

  lemma SerialKeepsGeneration(st: Static, s: State, t: State, id: Id)
    requires InvX(st, s, CLOSED) && Evolves(s, t) && id in s.sessions && LiveSerial(t.sessions, s.sessions[id].serial)
    ensures exists x :: x in t.sessions && t.sessions[x].generation == s.sessions[id].generation
  {
    hide InvX, StartsGrow, PermitsOnlyFresh;
    OnlyPermittedHolds(st, s);
    hide OnlyPermitted, EndedSerial;
    var x :| x in t.sessions && t.sessions[x].serial == s.sessions[id].serial;
    assert SameOrigin(s.sessions[x], t.sessions[x]);
  }

  // ---- Publication ----

  /** A command returned earlier whose permits are no longer all its own can never be published again. */
  lemma LostPermitsStayLost(s: State, t: State, c: JointCommand)
    requires Evolves(s, t) && c.token < s.nextToken && !Holds(s.permits, c)
    ensures !Holds(t.permits, c)
  {
    if c.token != 0 && c.joints != [] {
      var joint :| joint in c.joints && !(joint in s.permits && s.permits[joint] == Permit(c.session, c.token));
      assert joint in t.permits ==> t.permits[joint] != Permit(c.session, c.token);
    }
  }

  lemma SilencedForever(st: Static, states: seq<State>, i: nat, j: nat, c: JointCommand)
    requires History(st, states) && i <= j < |states|
    requires c.token < states[i].nextToken && !Holds(states[i].permits, c)
    ensures !Holds(states[j].permits, c)
  {
    hide InvX, Evolves, Holds;
    EvolvesAcross(st, states, i, j);
    LostPermitsStayLost(states[i], states[j], c);
  }

  /** What a cancelled, preempted or expired session had computed is never published afterwards. */
  lemma EndedSessionIsSilenced(s: State, id: Id, state: SessionState, code: Code, later: State, c: JointCommand)
    requires Evolves(Terminate(s, id, state, code, false), later)
    requires c.session == id && c.token < s.nextToken
    ensures !Holds(later.permits, c)
  {
    hide Evolves, Terminate;
    var ended := Terminate(s, id, state, code, false);
    TerminateSilences(s, id, state, code);
    assert !Holds(ended.permits, c) by {
      if c.joints != [] { assert c.joints[0] in c.joints; }
    }
    LostPermitsStayLost(ended, later, c);
  }

  lemma {:induction false} EndAllSilences(s: State, ids: seq<Id>, state: SessionState, code: Code, c: JointCommand)
    requires c.session in ids
    ensures !Holds(EndAll(s, ids, state, code).permits, c)
    decreases |ids|
  {
    hide Terminate;
    var n := |ids| - 1;
    if ids[n] == c.session {
      TerminateSilences(EndAll(s, ids[..n], state, code), ids[n], state, code);
      if c.joints != [] { assert c.joints[0] in c.joints; }
    } else {
      assert c.session in ids[..n];
      EndAllSilences(s, ids[..n], state, code, c);
      EndingAddsNoPermit(EndAll(s, ids[..n], state, code), ids[n], state, code, c);
    }
  }

  lemma EndingAddsNoPermit(s: State, id: Id, state: SessionState, code: Code, c: JointCommand)
    requires !Holds(s.permits, c)
    ensures !Holds(Terminate(s, id, state, code, false).permits, c)
  {
    hide Terminate;
    TerminateSilences(s, id, state, code);
  }

  lemma {:induction false} EndAllAddsNoPermit(s: State, ids: seq<Id>, state: SessionState, code: Code, c: JointCommand)
    requires !Holds(s.permits, c)
    ensures !Holds(EndAll(s, ids, state, code).permits, c)
    decreases |ids|
  {
    hide Terminate, Holds;
    if ids != [] {
      EndAllAddsNoPermit(s, ids[..|ids| - 1], state, code, c);
      EndingAddsNoPermit(EndAll(s, ids[..|ids| - 1], state, code), ids[|ids| - 1], state, code, c);
    }
  }

  lemma DisplaceSilences(s: State, preempted: seq<Id>, expired: seq<Id>, c: JointCommand)
    requires c.session in preempted || c.session in expired
    ensures !Holds(Displace(s, preempted, expired).permits, c)
  {
    hide EndAll, Holds;
    var middle := EndAll(s, preempted, SessionState.PREEMPTED, Code.PREEMPTED);
    if c.session in preempted {
      EndAllSilences(s, preempted, SessionState.PREEMPTED, Code.PREEMPTED, c);
      EndAllAddsNoPermit(middle, expired, ABORTED, STALE_FEEDBACK, c);
    } else {
      EndAllSilences(middle, expired, ABORTED, STALE_FEEDBACK, c);
    }
  }

  lemma RevokeSilences(s: State, joints: seq<Joint>, c: JointCommand)
    requires Overlaps(c.joints, joints)
    ensures !Holds(Revoke(s, joints).permits, c)
  {
  }

  lemma RevokeAddsNoPermit(s: State, joints: seq<Joint>, c: JointCommand)
    requires !Holds(s.permits, c)
    ensures !Holds(Revoke(s, joints).permits, c)
  {
  }

  /**
    Admitting a Move silences, for the rest of the run, every command computed before that
    touches one of its joints or belongs to a session it evicted.
  */
  lemma AdmittedMoveSilences(
    st: Static, s: State, t: State, endpoint: string, request: Request, now: Time, generation: nat,
    code: Code, id: Id, report: ArbitrationResult, later: State, c: JointCommand)
    requires MoveOutcome(st, s, t, endpoint, request, now, generation, code, id, report)
    requires MoveRefusal(st, s, endpoint, request, generation) == OK && report.admitted && Evolves(t, later)
    requires c.token < s.nextToken
    requires Overlaps(c.joints, st.groups[request.group].joints) || c.session in report.preempted
      || c.session in report.expired
    ensures !Holds(later.permits, c)
  {
    hide Evolves, Holds, Inv, MoveResult, AcceptsMove, ControlArbiters.SubmitMove, Overlaps, Displace;
    var session :=
      NewSession(st.groups, s.arbiter.policies[endpoint], request, s.created).(
      submittedAt := now, generation := generation);
    var asked := s.(arbiter := ControlArbiters.SubmitMove(s.arbiter, ClaimFor(session), now));
    AdmissionSilences(asked, report, session, later, c);
  }

  lemma AdmissionSilences(asked: State, report: ArbitrationResult, session: Session, later: State, c: JointCommand)
    requires var t := Revoke(Create(Displace(asked, report.preempted, report.expired), session), session.joints);
             Evolves(t, later)
    requires c.token < asked.nextToken
    requires Overlaps(c.joints, session.joints) || c.session in report.preempted || c.session in report.expired
    ensures !Holds(later.permits, c)
  {
    hide Evolves, Holds, Displace, Overlaps;
    var ended := Displace(asked, report.preempted, report.expired);
    var created := Create(ended, session);
    var t := Revoke(created, session.joints);
    DisplaceTokens(asked, report.preempted, report.expired);
    if Overlaps(c.joints, session.joints) {
      RevokeSilences(created, session.joints, c);
    } else {
      DisplaceSilences(asked, report.preempted, report.expired, c);
      RevokeAddsNoPermit(created, session.joints, c);
    }
    LostPermitsStayLost(t, later, c);
  }

  lemma DisplaceTokens(s: State, preempted: seq<Id>, expired: seq<Id>)
    ensures Displace(s, preempted, expired).nextToken == s.nextToken
  {
    hide EndAll;
    EndAllFrame(s, preempted, SessionState.PREEMPTED, Code.PREEMPTED);
    EndAllFrame(EndAll(s, preempted, SessionState.PREEMPTED, Code.PREEMPTED), expired, ABORTED, STALE_FEEDBACK);
  }

  /** A winning Servo target does the same. */
  lemma WinningServoSilences(
    current: State, t: State, session: Session, now: Time, report: ArbitrationResult, later: State, c: JointCommand)
    requires ServoSettles(current, t, session, now, report) && report.admitted && Evolves(t, later)
    requires c.token < current.nextToken
    requires Overlaps(c.joints, session.joints) || c.session in report.preempted || c.session in report.expired
    ensures !Holds(later.permits, c)
  {
    hide Evolves, Holds, Inv, ServoResult, AcceptsServo, ControlArbiters.UpdateServo, Overlaps, Displace;
    var placed := Place(ServoAsked(current, session, now), session);
    var ended := Displace(placed, report.preempted, report.expired);
    DisplaceTokens(placed, report.preempted, report.expired);
    if Overlaps(c.joints, session.joints) {
      RevokeSilences(ended, session.joints, c);
    } else {
      DisplaceSilences(placed, report.preempted, report.expired, c);
      RevokeAddsNoPermit(ended, session.joints, c);
    }
    LostPermitsStayLost(t, later, c);
  }

  /**
    Once the permits are cleared, by revoking the permission or changing its generation,
    nothing computed before is published.
  */
  lemma ClearedPermitsSilence(s: State, later: State, c: JointCommand)
    requires s.permits == map[] && Evolves(s, later) && c.token < s.nextToken
    ensures !Holds(later.permits, c)
  {
    hide Evolves;
    if c.joints != [] { assert c.joints[0] in c.joints; }
    LostPermitsStayLost(s, later, c);
  }

  /**
    On every joint of a run the published tokens strictly increase; only within one call
    may a joint be published again, and then with the same token of the same session.
  */
  lemma PublishedTokensIncrease(st: Static, states: seq<State>, i: nat, j: nat, a: nat, b: nat, joint: Joint)
    requires History(st, states) && i <= j < |states|
    requires a < |states[i].published| && a < b < |states[j].published|
    requires joint in states[i].published[a].command.joints && joint in states[j].published[b].command.joints
    ensures var p, q := states[i].published[a], states[j].published[b];
            p.command.token < q.command.token || Repeats(p, q)
  {
    hide InvX;
    EvolvesAcross(st, states, i, j);
    PublishedPrefix(states[i], states[j], a);
    PublishedInOrder(st, states[j], a, b, joint);
  }

  lemma PublishedPrefix(s: State, t: State, a: nat)
    requires Evolves(s, t) && a < |s.published|
    ensures a < |t.published| && t.published[a] == s.published[a]
  {
  }

  lemma PublishedInOrder(st: Static, s: State, a: nat, b: nat, joint: Joint)
    requires a < b < |s.published| && InvX(st, s, CLOSED)
    requires joint in s.published[a].command.joints && joint in s.published[b].command.joints
    ensures s.published[a].command.token < s.published[b].command.token || Repeats(s.published[a], s.published[b])
  {
    hide Agree, BackendAgrees, StartsOk, RequestsOk, ActiveDisjoint, WatchOk, PermitsOk, FreshLog, EventsOk,
      SuccessListed, SuccessesOk, RecoveryOk, IssuedOk, TrailsOk, Repeats;
  }

  /**
    Whatever a tick returned was published while its feedback, its cycle and, for a Servo,
    its target were current.
  */
  lemma PublishedWhileCurrent(st: Static, states: seq<State>, i: nat, a: nat)
    requires History(st, states) && i < |states| && a < |states[i].published|
    requires IsIssued(states[i].issued, states[i].published[a].command)
    ensures var s := states[i];
            var p := s.published[a];
            var issue := s.issued[p.command.token];
            && p.at - issue.feedbackAt < st.config.feedbackMaxAge && p.at - issue.startedAt < st.config.MaxPeriod()
            && issue.serial < |s.requests|
            && (s.requests[issue.serial].kind.IsServo() ==> p.at - issue.submittedAt < issue.lease)
  {
    hide Evolves, Agree, BackendAgrees, StartsOk, ActiveDisjoint, WatchOk, PermitsOk, LogOk, EventsOk, SuccessListed,
      SuccessesOk, RecoveryOk, IssuedOk, TrailsOk;
    var s := states[i];
    assert InvX(st, s, CLOSED);
    assert FreshAt(s.issued[s.published[a].command.token], st.config, s.published[a].at);
    assert OfRequest(s.issued[s.published[a].command.token], s.requests);
  }

  // ---- Batches ----

  predicate InTime(c: JointCommand, at: Time) { c.validUntil.Some? && at < c.validUntil.value }

  /** Screening up to here has ended the session, because a command of it that was held came too late. */
  ghost predicate Cut(s: State, batch: seq<JointCommand>, times: seq<Time>, id: Id)
    requires |times| == |batch|
  {
    exists k :: 0 <= k < |batch| && batch[k].session == id && Holds(s.permits, batch[k]) && !InTime(batch[k], times[k])
  }

  /** Held before the call, checked in time, and no held command of its session came too late before it. */
  ghost predicate Approvable(s: State, batch: seq<JointCommand>, times: seq<Time>, k: nat)
    requires |times| == |batch| && k < |batch|
  {
    s.enabled && Holds(s.permits, batch[k]) && InTime(batch[k], times[k])
      && !Cut(s, batch[..k], times[..k], batch[k].session)
  }

  /** The approvable commands of a batch, in its order. */
  ghost function Picked(s: State, batch: seq<JointCommand>, times: seq<Time>, k: nat): (picked: seq<JointCommand>)
    requires |times| == |batch| && k <= |batch|
  {
    if k == 0 then []
    else Picked(s, batch, times, k - 1) + if Approvable(s, batch, times, k - 1) then [batch[k - 1]] else []
  }

  /** A session that screening has ended holds nothing any more; every other command is held as before. */
  ghost predicate HeldUnlessCut(s: State, t: State, batch: seq<JointCommand>, times: seq<Time>)
    requires |times| == |batch|
  {
    && t.enabled == s.enabled
    && forall c: JointCommand ::
         Holds(t.permits, c) <==> Holds(s.permits, c) && !(s.enabled && Cut(s, batch, times, c.session))
  }

  lemma CutMore(s: State, batch: seq<JointCommand>, times: seq<Time>, c: JointCommand, at: Time, id: Id)
    requires |times| == |batch|
    ensures Cut(s, batch + [c], times + [at], id) <==>
      Cut(s, batch, times, id) || (c.session == id && Holds(s.permits, c) && !InTime(c, at))
  {
    hide Holds, InTime;
    var more, later := batch + [c], times + [at];
    if Cut(s, batch, times, id) {
      var k :| 0 <= k < |batch| && batch[k].session == id && Holds(s.permits, batch[k]) && !InTime(batch[k], times[k]);
      assert more[k] == batch[k] && later[k] == times[k];
    }
    assert more[|batch|] == c && later[|batch|] == at;
  }

  /** Ending a session takes exactly its own commands' permits. */
  lemma EndingTakesPermits(t: State, id: Id, c: JointCommand)
    ensures var u := Terminate(t, id, ABORTED, TIMEOUT, false);
            u.enabled == t.enabled && (Holds(u.permits, c) <==> Holds(t.permits, c) && c.session != id)
  {
    hide Terminate;
    TerminateSilences(t, id, ABORTED, TIMEOUT);
    if c.joints != [] { assert c.joints[0] in c.joints; }
  }

  lemma {:induction false} ScreenedUpto(s: State, batch: seq<JointCommand>, times: seq<Time>, k: nat)
    requires |times| == |batch| && k <= |batch|
    ensures var (t, approved) := Screened(s, batch[..k], times[..k]);
            HeldUnlessCut(s, t, batch[..k], times[..k]) && approved == Picked(s, batch, times, k)
  {
    hide Holds, Terminate, Screened;
    if k == 0 {
      ScreenedNothing(s);
      assert batch[..0] == [] && times[..0] == [];
    } else {
      ScreenedUpto(s, batch, times, k - 1);
      var front, before, c, at := batch[..k - 1], times[..k - 1], batch[k - 1], times[k - 1];
      assert batch[..k] == front + [c] && times[..k] == before + [at];
      ScreenedStep(s, batch, before, k - 1, at);
      forall id { CutMore(s, front, before, c, at, id); }
      ScreenedOne(s, Screened(s, front, before).0, front, before, c, at);
    }
  }

  /** One more command: approved, refused, or the end of its session. */
  lemma ScreenedOne(
    s: State, t: State, front: seq<JointCommand>, before: seq<Time>, c: JointCommand, at: Time)
    requires |before| == |front| && HeldUnlessCut(s, t, front, before)
    requires forall id :: Cut(s, front + [c], before + [at], id) <==>
      Cut(s, front, before, id) || (c.session == id && Holds(s.permits, c) && !InTime(c, at))
    ensures var late := t.enabled && Holds(t.permits, c) && !InTime(c, at);
            HeldUnlessCut(
              s, if late then Terminate(t, c.session, ABORTED, TIMEOUT, false) else t, front + [c], before + [at])
  {
    hide Holds, Terminate, InTime, Cut;
    var late := t.enabled && Holds(t.permits, c) && !InTime(c, at);
    if late {
      forall d: JointCommand { EndingTakesPermits(t, c.session, d); }
      EndingTakesPermits(t, c.session, c);
    }
  }

  /** A batch publishes exactly its approvable commands, in its order. */
  lemma ScreenedIsPicked(s: State, batch: seq<JointCommand>, times: seq<Time>)
    requires |times| == |batch|
    ensures Screened(s, batch, times).1 == Picked(s, batch, times, |batch|)
  {
    hide Screened, Picked;
    ScreenedUpto(s, batch, times, |batch|);
    assert batch[..|batch|] == batch && times[..|batch|] == times;
  }

  /** Every approvable command is picked, at a place of its own. */
  lemma {:induction false} PickedAt(s: State, batch: seq<JointCommand>, times: seq<Time>, k: nat, i: nat)
    returns (x: nat)
    requires |times| == |batch| && i < k <= |batch| && Approvable(s, batch, times, i)
    ensures x == |Picked(s, batch, times, i)| && x < |Picked(s, batch, times, k)|
    ensures Picked(s, batch, times, k)[x] == batch[i] && Picked(s, batch, times, i) <= Picked(s, batch, times, k)
    decreases k
  {
    hide Approvable;
    x := |Picked(s, batch, times, i)|;
    if k > i + 1 { var y := PickedAt(s, batch, times, k - 1, i); }
  }

  lemma {:induction false} PickedFrom(s: State, batch: seq<JointCommand>, times: seq<Time>, k: nat, x: nat)
    returns (i: nat)
    requires |times| == |batch| && k <= |batch| && x < |Picked(s, batch, times, k)|
    ensures i < k && Approvable(s, batch, times, i) && batch[i] == Picked(s, batch, times, k)[x]
    ensures x == |Picked(s, batch, times, i)|
    decreases k
  {
    hide Approvable;
    if x == |Picked(s, batch, times, k - 1)| {
      i := k - 1;
    } else {
      i := PickedFrom(s, batch, times, k - 1, x);
    }
  }

  /** Nothing is approvable twice. */
  ghost predicate OncePerBatch(s: State, batch: seq<JointCommand>, times: seq<Time>)
    requires |times| == |batch|
  {
    forall i, j :: 0 <= i < j < |batch| && Approvable(s, batch, times, i) && Approvable(s, batch, times, j) ==>
      batch[i] != batch[j]
  }

  predicate PairwiseDisjoint(commands: seq<JointCommand>) {
    forall x, y :: 0 <= x < y < |commands| ==> !Overlaps(commands[x].joints, commands[y].joints)
  }

  /** Held commands that ticks returned share a joint only if they are the same command. */
  lemma HeldOverlapIsSame(s: State, c: JointCommand, d: JointCommand)
    requires Holds(s.permits, c) && Holds(s.permits, d) && Genuine(s, c) && Genuine(s, d)
    ensures Overlaps(c.joints, d.joints) <==> c == d
  {
    if c == d { assert c.joints[0] in c.joints; }
  }

  /**
    Of commands that ticks returned, a batch publishes no joint twice if and only if no
    command that is held and in time is listed twice.
  */
  lemma BatchIsDisjointExactly(s: State, batch: seq<JointCommand>, times: seq<Time>)
    requires |times| == |batch| && forall k :: 0 <= k < |batch| ==> Genuine(s, batch[k])
    ensures PairwiseDisjoint(Screened(s, batch, times).1) <==> OncePerBatch(s, batch, times)
  {
    hide Screened, Approvable, Overlaps, Genuine, Holds;
    ScreenedIsPicked(s, batch, times);
    var n, approved := |batch|, Picked(s, batch, times, |batch|);
    if OncePerBatch(s, batch, times) {
      forall x, y | 0 <= x < y < |approved| ensures !Overlaps(approved[x].joints, approved[y].joints) {
        var i := PickedFrom(s, batch, times, n, x);
        var j := PickedFrom(s, batch, times, n, y);
        PickedInOrder(s, batch, times, i, j);
        ApprovableIsHeld(s, batch, times, i);
        ApprovableIsHeld(s, batch, times, j);
        HeldOverlapIsSame(s, batch[i], batch[j]);
      }
    }
    if PairwiseDisjoint(approved) {
      forall i, j | 0 <= i < j < n && Approvable(s, batch, times, i) && Approvable(s, batch, times, j)
        ensures batch[i] != batch[j]
      {
        var x := PickedAt(s, batch, times, n, i);
        var y := PickedAt(s, batch, times, n, j);
        var z := PickedAt(s, batch, times, j, i);
        ApprovableIsHeld(s, batch, times, i);
        ApprovableIsHeld(s, batch, times, j);
        HeldOverlapIsSame(s, batch[i], batch[j]);
      }
    }
  }

  lemma ApprovableIsHeld(s: State, batch: seq<JointCommand>, times: seq<Time>, k: nat)
    requires |times| == |batch| && k < |batch| && Approvable(s, batch, times, k)
    ensures Holds(s.permits, batch[k])
  {
    hide Holds, Cut;
  }

  lemma {:induction false} PickedGrows(s: State, batch: seq<JointCommand>, times: seq<Time>, j: nat, i: nat)
    requires |times| == |batch| && j <= i <= |batch|
    ensures |Picked(s, batch, times, j)| <= |Picked(s, batch, times, i)|
    decreases i
  {
    hide Approvable;
    if j < i { PickedGrows(s, batch, times, j, i - 1); }
  }

  lemma PickedInOrder(s: State, batch: seq<JointCommand>, times: seq<Time>, i: nat, j: nat)
    requires |times| == |batch| && i <= |batch| && j <= |batch|
    requires |Picked(s, batch, times, i)| < |Picked(s, batch, times, j)|
    ensures i < j
  {
    hide Picked;
    if j <= i { PickedGrows(s, batch, times, j, i); }
  }

  /** A command listed twice in one batch is approved, and so published, twice. */
  lemma RepeatedCommandIsApprovedTwice(s: State, c: JointCommand, at: Time)
    requires s.enabled && Holds(s.permits, c) && InTime(c, at)
    ensures Screened(s, [c, c], [at, at]).1 == [c, c]
  {
    hide Holds, Screened;
    var batch := [c, c];
    ScreenedNothing(s);
    assert batch[..0] == [] && batch[..2] == batch;
    ScreenedStep(s, batch, [], 0, at);
    ScreenedStep(s, batch, [at], 1, at);
    assert [] + [at] == [at] && [at] + [at] == [at, at];
    assert [] + [c] == [c] && [c] + [c] == [c, c];
  }

  // ---- Sessions and events ----

  function TerminalEvents(stream: seq<Event>): (n: nat)
    ensures n <= |stream|
  {
    if stream == [] then 0
    else TerminalEvents(stream[..|stream| - 1]) + (if stream[|stream| - 1].state.Terminal() then 1 else 0)
  }

  ghost function EndedSerials(stream: seq<Event>): set<nat> {
    set i | 0 <= i < |stream| && stream[i].state.Terminal() :: stream[i].serial
  }

  ghost function LiveSerials(sessions: map<Id, Session>): set<nat> {
    set id | id in sessions :: sessions[id].serial
  }

  lemma {:induction false} EndedSerialsCounted(stream: seq<Event>)
    requires forall i, k :: 0 <= i < k < |stream| && stream[i].state.Terminal() ==> stream[i].serial != stream[k].serial
    ensures |EndedSerials(stream)| == TerminalEvents(stream)
    decreases |stream|
  {
    if stream != [] {
      var n := |stream| - 1;
      var front := stream[..n];
      EndedSerialsCounted(front);
      if stream[n].state.Terminal() {
        assert stream[n].serial !in EndedSerials(front);
        assert EndedSerials(stream) == EndedSerials(front) + {stream[n].serial} by {
          forall x ensures x in EndedSerials(stream) <==> x in EndedSerials(front) + {stream[n].serial} {
            EndedSplit(stream, x);
          }
        }
      } else {
        assert EndedSerials(stream) == EndedSerials(front) by {
          forall x ensures x in EndedSerials(stream) <==> x in EndedSerials(front) { EndedSplit(stream, x); }
        }
      }
    }
  }

  lemma EndedSplit(stream: seq<Event>, x: nat)
    requires stream != []
    ensures var n := |stream| - 1;
            x in EndedSerials(stream) <==>
              x in EndedSerials(stream[..n]) || (stream[n].state.Terminal() && stream[n].serial == x)
  {
    var n := |stream| - 1;
    if x in EndedSerials(stream[..n]) {
      var i :| 0 <= i < n && stream[..n][i].state.Terminal() && stream[..n][i].serial == x;
      assert stream[i].serial == x;
    }
    if x in EndedSerials(stream) {
      var i :| 0 <= i < |stream| && stream[i].state.Terminal() && stream[i].serial == x;
      assert i < n ==> stream[..n][i].serial == x;
    }
  }

  lemma {:induction false} LiveSerialsCounted(sessions: map<Id, Session>)
    requires forall a, b :: a in sessions && b in sessions && a != b ==> sessions[a].serial != sessions[b].serial
    ensures |LiveSerials(sessions)| == |sessions|
    decreases |sessions|
  {
    if sessions != map[] {
      var id :| id in sessions;
      var rest := sessions - {id};
      assert rest.Keys == sessions.Keys - {id} && |rest.Keys| == |sessions.Keys| - 1;
      LiveSerialsCounted(rest);
      assert sessions[id].serial !in LiveSerials(rest);
      assert LiveSerials(sessions) == LiveSerials(rest) + {sessions[id].serial} by {
        forall x ensures x in LiveSerials(sessions) <==> x in LiveSerials(rest) + {sessions[id].serial} {
          if x in LiveSerials(sessions) {
            var y :| y in sessions && sessions[y].serial == x;
            assert y != id ==> y in rest && rest[y].serial == x;
          }
          if x in LiveSerials(rest) {
            var y :| y in rest && rest[y].serial == x;
            assert y in sessions && sessions[y].serial == x;
          }
        }
      }
    }
  }

  ghost function Upto(n: nat): (below: set<nat>)
    ensures |below| == n && forall k: nat :: k in below <==> k < n
  {
    if n == 0 then {} else Upto(n - 1) + {n - 1}
  }

  /** Every session ever created is live or has exactly one terminal event, delivered or pending. */
  lemma SessionsAreAccountedFor(st: Static, s: State)
    requires InvX(st, s, CLOSED)
    ensures s.created == |s.sessions| + TerminalEvents(s.delivered + s.pending)
  {
    hide Agree, BackendAgrees, StartsOk, RequestsOk, ActiveDisjoint, WatchOk, PermitsOk, LogOk, FreshLog,
      SuccessListed, SuccessesOk, RecoveryOk, IssuedOk, TrailsOk;
    Accounting(s.sessions, s.created, s.delivered + s.pending);
  }

  lemma Accounting(sessions: map<Id, Session>, created: nat, stream: seq<Event>)
    requires EventsOk(sessions, created, stream)
    ensures created == |sessions| + TerminalEvents(stream)
  {
    hide TerminalEvents;
    EndedSerialsCounted(stream);
    LiveSerialsCounted(sessions);
    var live, ended := LiveSerials(sessions), EndedSerials(stream);
    assert live !! ended;
    forall x: nat ensures x in live + ended <==> x in Upto(created) {
      if x < created {
        if LiveSerial(sessions, x) {
          var id :| id in sessions && sessions[id].serial == x;
        } else {
          assert EndedSerial(stream, x);
        }
      }
    }
    assert live + ended == Upto(created);
    assert |live + ended| == |live| + |ended|;
  }

  /** Once a session has ended it is never live again: a preempted Move does not resume. */
  lemma EndedNeverResumes(st: Static, states: seq<State>, i: nat, j: nat, n: nat)
    requires History(st, states) && i <= j < |states|
    requires n < states[i].created && !LiveSerial(states[i].sessions, n)
    ensures !LiveSerial(states[j].sessions, n)
    ensures EndedSerial(states[j].delivered + states[j].pending, n)
  {
    hide InvX;
    EvolvesAcross(st, states, i, j);
    assert forall id :: id in states[j].sessions && states[j].sessions[id].serial < states[i].created ==>
        id in states[i].sessions && states[i].sessions[id].serial == states[j].sessions[id].serial;
    NotLiveIsEnded(st, states[j], n);
  }

  lemma NotLiveIsEnded(st: Static, s: State, n: nat)
    requires InvX(st, s, CLOSED) && n < s.created && !LiveSerial(s.sessions, n)
    ensures EndedSerial(s.delivered + s.pending, n)
  {
    hide Agree, BackendAgrees, StartsOk, RequestsOk, ActiveDisjoint, WatchOk, PermitsOk, LogOk, FreshLog,
      SuccessListed, SuccessesOk, RecoveryOk, IssuedOk, TrailsOk, LiveSerial, EndedSerial;
  }

  /** In the events handed out so far, nothing about a session follows its one terminal event. */
  lemma EventsEndOnce(st: Static, states: seq<State>, i: nat, a: nat, b: nat)
    requires History(st, states) && i < |states| && a < b < |states[i].delivered|
    requires states[i].delivered[a].state.Terminal()
    ensures states[i].delivered[a].serial != states[i].delivered[b].serial
  {
    var s := states[i];
    hide Evolves, Agree, BackendAgrees, StartsOk, RequestsOk, ActiveDisjoint, WatchOk, PermitsOk, LogOk, FreshLog,
      SuccessListed, SuccessesOk, RecoveryOk, IssuedOk, TrailsOk;
    var stream := s.delivered + s.pending;
    assert stream[a] == s.delivered[a] && stream[b] == s.delivered[b];
    assert EventsOk(s.sessions, s.created, stream);
  }

  /** A tick reports the end of every session it lost, among the events it hands over. */
  lemma TickReportsEnds(
    st: Static, s: State, t: State, winners: seq<Id>, cycle: Cycle, paused: bool, finishedAt: Time, id: Id)
    requires InvX(st, s, CLOSED) && InvX(st, t, CLOSED) && Evolves(s, t)
    requires TickResult(st.config, s, t, winners, cycle, paused, finishedAt)
    requires id in s.sessions && id !in t.sessions
    ensures LostSession(s, id, winners, cycle.startedAt, paused)
    ensures exists i | |s.delivered| <= i < |t.delivered| ::
              t.delivered[i].state.Terminal() && t.delivered[i].serial == s.sessions[id].serial
  {
    hide Agree, BackendAgrees, StartsOk, RequestsOk, ActiveDisjoint, WatchOk, PermitsOk, LogOk, FreshLog,
      SuccessListed, SuccessesOk, RecoveryOk, IssuedOk, TrailsOk, CommandsOk, Served, Overlaps, AllWatched,
      LostSession, StartsGrow;
    var n := s.sessions[id].serial;
    assert forall x :: x in t.sessions ==> x in s.sessions && t.sessions[x].serial == s.sessions[x].serial;
    assert forall k :: 0 <= k < |s.delivered| ==> (s.delivered + s.pending)[k] == t.delivered[k];
    assert EndedSerial(t.delivered + t.pending, n);
    assert t.delivered + t.pending == t.delivered;
    var i :| 0 <= i < |t.delivered| && t.delivered[i].state.Terminal() && t.delivered[i].serial == n;
  }

  // ---- Progress ----

  /** A winner that may run: not waiting to be tried again, not too old, with a goal the monitor takes. */
  predicate MayRun(config: Config, session: Session, retries: map<string, Time>, now: Time, paused: bool) {
    if session.request.kind == ServoJ || session.request.kind == ServoP then
      session.endpoint !in retries || retries[session.endpoint] <= now
    else
      && !paused && now - session.submittedAt <= config.moveTimeout
      && (session.request.kind == MoveJ ==>
            && session.request.goal.joints != [] && |session.request.goal.positions| == |session.request.goal.joints|
            && Unique(session.request.goal.joints) && "" !in session.request.goal.joints)
  }

  /** The tick came to its end before any of the session's inputs was out of date. */
  predicate Prompt(config: Config, session: Session, lease: Time, cycle: Cycle, finishedAt: Time) {
    && cycle.feedback.receivedAt <= cycle.now && finishedAt < cycle.feedback.receivedAt + config.feedbackMaxAge
    && (finishedAt < cycle.startedAt + config.period || finishedAt < cycle.startedAt + config.maxControlPeriod)
    && (session.request.kind == ServoJ || session.request.kind == ServoP ==> finishedAt < session.submittedAt + lease)
  }

  /** Each joint of the group is measured, no further beyond its limits than the recovery margin. */
  ghost predicate InRange(st: Static, group: Group, feedback: Feedback)
    requires ValidGroup(group)
  {
    && |feedback.positions| == |feedback.joints| == |feedback.velocities| && feedback.finite
    && "" !in feedback.joints && Unique(feedback.joints)
    && forall i | 0 <= i < |group.joints| ::
         MeasuredWithin(
           feedback, group.joints[i], group.lower[i] - st.config.recovery.margin,
           group.upper[i] + st.config.recovery.margin)
  }

  /**
    A healthy winner goes on. Given usable feedback, enough time and good answers of the SDK,
    its turn neither waits nor fails, and the tick hands over a command that carries the first
    output of the final RTC, unless the goal's judgement puts a stop in its place; a Servo has
    no goal.
  */
  lemma HealthyWinnersGoOn(
    st: Static, config: Goals.Config, s: State, cycle: Cycle, retries: map<string, Time>, winners: seq<Id>,
    turns: seq<Turn>, first: nat, answers: seq<Answer>, commands: seq<JointCommand>, events: seq<Event>,
    paused: bool, finishedAt: Time, k: nat)
    requires ValidStatic(st) && InvX(st, s, CLOSED) && k < |winners| && winners[k] in s.sessions
    requires TurnsResult(
      st, config, s, cycle, retries, winners, turns, first, answers, commands, events, paused, finishedAt)
    requires var session := s.sessions[winners[k]];
      && session.endpoint in s.arbiter.policies && session.group in st.groups && ValidGroup(st.groups[session.group])
      && InRange(st, st.groups[session.group], cycle.feedback)
      && Prompt(st.config, session, s.arbiter.policies[session.endpoint].lease, cycle, finishedAt)
      && MayRun(st.config, session, retries, cycle.now, paused)
      && (turns[k].Taken? ==>
            forall j | turns[k].from <= j < |turns[k].said| :: Good(st.groups[session.group], turns[k].said[j]))
    ensures turns[k].Taken? && !turns[k].judgement.Waiting? && !turns[k].judgement.Failed?
    ensures var turn, kind := turns[k], s.sessions[winners[k]].request.kind;
      && (forall j | turn.from <= j < turn.shaped :: j < |turn.said| && !turn.said[j].ToShape?)
      && 0 <= turn.shaped < |turn.said| && turn.said[turn.shaped].ToShape?
      && (kind == ServoJ || kind == ServoP || !Replaced(cycle, config, turn.judgement) ==>
            exists c :: c in commands && c.session == winners[k] && Bears(c, turn.said[turn.shaped].output))
  {
    hide InvX, TurnResult, Founded, Returned, Good, MayRun, Prompt, InRange, Replaced, ValidGroup, ValidStatic;
    var id, turn, session := winners[k], turns[k], s.sessions[winners[k]];
    assert TurnResult(
      st, config, s, cycle, retries, id, turn, first, answers, commands, events, paused, finishedAt);
    WinnerIsTaken(
      st, config, s, cycle, retries, id, turn, first, answers, commands, events, paused, finishedAt);
    HealthyTurn(
      st, config, s, cycle, retries, id, turn, first, answers, commands, events, paused, finishedAt);
    if !Replaced(cycle, config, turn.judgement) {
      ReturnedIsHandedOver(
        st, config, s, cycle, retries, id, turn, first, answers, commands, events, paused, finishedAt);
    } else {
      ServosAreNotReplaced(st, config, s, cycle, retries, id, turn);
    }
  }

  lemma WinnerIsTaken(
    st: Static, config: Goals.Config, s: State, cycle: Cycle, retries: map<string, Time>, id: Id, turn: Turn,
    first: nat, answers: seq<Answer>, commands: seq<JointCommand>, events: seq<Event>, paused: bool, finishedAt: Time)
    requires TurnResult(st, config, s, cycle, retries, id, turn, first, answers, commands, events, paused, finishedAt)
    requires id in s.sessions && MayRun(st.config, s.sessions[id], retries, cycle.now, paused)
    ensures turn.Taken? && TurnOk(st, config, s, cycle, retries, id, turn) && turn.endedAt <= finishedAt
  {
    hide TurnOk;
  }

  lemma HealthyTurn(
    st: Static, config: Goals.Config, s: State, cycle: Cycle, retries: map<string, Time>, id: Id, turn: Turn,
    first: nat, answers: seq<Answer>, commands: seq<JointCommand>, events: seq<Event>, paused: bool, finishedAt: Time)
    requires turn.Taken? && TurnOk(st, config, s, cycle, retries, id, turn) && turn.endedAt <= finishedAt
    requires id in s.sessions
    requires var session := s.sessions[id];
      && session.endpoint in s.arbiter.policies && session.group in st.groups && ValidGroup(st.groups[session.group])
      && InRange(st, st.groups[session.group], cycle.feedback)
      && Prompt(st.config, session, s.arbiter.policies[session.endpoint].lease, cycle, finishedAt)
      && MayRun(st.config, session, retries, cycle.now, paused)
      && forall j | turn.from <= j < |turn.said| :: Good(st.groups[session.group], turn.said[j])
    ensures !turn.judgement.Waiting? && !turn.judgement.Failed?
    ensures 0 <= turn.shaped < |turn.said| && turn.said[turn.shaped].ToShape?
    ensures forall j | turn.from <= j < turn.shaped :: j < |turn.said| && !turn.said[j].ToShape?
  {
    hide ValidGroup, Founded, Good, Passes, Replaced, SomeBad, Stamped, GoalOf;
    var session, lease := turn.session, s.arbiter.policies[turn.session.endpoint].lease;
    MeasuredWhileFresh(st, session, cycle.feedback, cycle.now, turn.endedAt);
    if turn.judgement.Failed? {
      NothingFails(
        st, session, lease, cycle, turn.endedAt, turn.said, turn.from, turn.judgement.failure, turn.returned.Some?);
    }
  }

  lemma ReturnedIsHandedOver(
    st: Static, config: Goals.Config, s: State, cycle: Cycle, retries: map<string, Time>, id: Id, turn: Turn,
    first: nat, answers: seq<Answer>, commands: seq<JointCommand>, events: seq<Event>, paused: bool, finishedAt: Time)
    requires TurnResult(st, config, s, cycle, retries, id, turn, first, answers, commands, events, paused, finishedAt)
    requires turn.Taken? && !turn.judgement.Waiting? && !turn.judgement.Failed? && id in s.sessions
    requires !Replaced(cycle, config, turn.judgement) && InvX(st, s, CLOSED) && 0 <= turn.shaped < |turn.said|
    requires turn.said[turn.shaped].ToShape? && s.sessions[id].endpoint in s.arbiter.policies
    requires Prompt(st.config, s.sessions[id], s.arbiter.policies[s.sessions[id].endpoint].lease, cycle, finishedAt)
    ensures exists c :: c in commands && c.session == id && Bears(c, turn.said[turn.shaped].output)
  {
    hide InvX, ValidGroup, Founded, Returned, Replaced, SomeBad, GoalOf;
    ArbiterHolds(st, s, CLOSED);
    assert SessionOk(s.arbiter.policies, st.groups, id, s.sessions[id]);
    DeadlineIsEarliest(
      st.config, turn.session, s.arbiter.policies[turn.session.endpoint].lease, cycle.feedback.receivedAt,
      cycle.startedAt, finishedAt);
    hide DeadlineOf;
    assert turn.returned.value in commands;
  }

  lemma ServosAreNotReplaced(
    st: Static, config: Goals.Config, s: State, cycle: Cycle, retries: map<string, Time>, id: Id, turn: Turn)
    requires turn.Taken? && TurnOk(st, config, s, cycle, retries, id, turn) && Replaced(cycle, config, turn.judgement)
    ensures id in s.sessions && s.sessions[id].request.kind != ServoJ && s.sessions[id].request.kind != ServoP
  {
    hide ValidGroup, Founded, Returned, SomeBad, Stamped, GoalOf, Goals.OutcomeOf;
  }

  /** A MoveJ in time whose goal joints are all measured keeps its command: its goal's judgement never stops it. */
  lemma MeasuredGoalsAreNotReplaced(
    st: Static, config: Goals.Config, s: State, cycle: Cycle, retries: map<string, Time>, id: Id, turn: Turn)
    requires turn.Taken? && TurnOk(st, config, s, cycle, retries, id, turn) && turn.judgement.Judged?
    requires turn.session.request.kind == MoveJ && cycle.now - turn.session.submittedAt <= config.moveTimeout
    requires |cycle.feedback.positions| == |cycle.feedback.joints| == |cycle.feedback.velocities|
    requires cycle.feedback.finite && Unique(cycle.feedback.joints) && "" !in cycle.feedback.joints
    requires forall joint :: joint in turn.session.request.goal.joints ==> joint in cycle.feedback.joints
    ensures !Replaced(cycle, config, turn.judgement)
  {
    hide ValidGroup, Founded, Returned, SomeBad, Stamped, Goals.Settled;
    if |turn.judgement.goal.joints| == |turn.judgement.goal.positions| {
      Goals.VerdictMeasures(turn.judgement.goal, cycle.feedback, turn.judgement.pose, config);
    }
    hide Goals.VerdictOf;
  }

  // ---- Motion ----

  /**
    Of the commands a run returned along one start of a session, a later one lies no
    further outside its limits than an earlier one, joint by joint; once inside, inside
    for good.
  */
  lemma ReturnedOvershootNeverGrows(st: Static, states: seq<State>, k: nat, t: nat, u: nat, i: nat)
    requires History(st, states) && k < |states| && t <= u
    requires t in states[k].issued && u in states[k].issued && SameStart(states[k].issued[t], states[k].issued[u])
    requires i < |states[k].issued[t].command.joints|
    ensures var one, two := states[k].issued[t], states[k].issued[u];
            && two.serial == one.serial && two.command.joints == one.command.joints && one.command.group in st.groups
            && |one.command.positions| == |two.command.positions| == |one.command.joints|
            && var group := st.groups[one.command.group];
            && |group.lower| == |group.joints| == |group.upper| && group.joints == one.command.joints
            && Overshoot(two.command.positions[i], group.lower[i], group.upper[i])
                 <= Overshoot(one.command.positions[i], group.lower[i], group.upper[i])
            && (Inside(one.command.positions[i], group.lower[i], group.upper[i]) ==>
                  Inside(two.command.positions[i], group.lower[i], group.upper[i]))
  {
    hide InvX, Evolves, Overshoot, Inside, SameStart, SessionOutputs, WithinWidened;
    var s := states[k];
    IssuedHere(st, s, t);
    IssuedHere(st, s, u);
    var one, two := s.issued[t], s.issued[u];
    TrailExtends(st, s, t, u);
    OvershootNeverGrows(
      st.groups[one.command.group], st.config.recovery.margin, two.source.trail, |one.source.trail| - 1,
      |two.source.trail| - 1, i);
  }

  /** The outputs of a start that an earlier command ends are continued by a later one. */
  lemma TrailExtends(st: Static, s: State, t: nat, u: nat)
    requires t <= u && t in s.issued && u in s.issued && SameStart(s.issued[t], s.issued[u]) && InvX(st, s, CLOSED)
    ensures s.issued[t].source.Along? && s.issued[u].source.Along?
    ensures s.issued[t].source.trail <= s.issued[u].source.trail
    ensures s.issued[t].serial == s.issued[u].serial && s.issued[t].command.group == s.issued[u].command.group
  {
    hide Agree, BackendAgrees, StartsOk, RequestsOk, ActiveDisjoint, WatchOk, PermitsOk, LogOk, FreshLog, EventsOk,
      SuccessListed, SuccessesOk, RecoveryOk, IssuedOk;
    assert OnOwnStart(s.issued[t], s.starts) && OnOwnStart(s.issued[u], s.starts);
  }

  /** A stop obeys every limit. */
  lemma StopsAreInside(st: Static, states: seq<State>, k: nat, t: nat, i: nat)
    requires History(st, states) && k < |states| && t in states[k].issued && states[k].issued[t].source == Stop
    requires i < |states[k].issued[t].command.joints|
    ensures var c := states[k].issued[t].command;
            && c.group in st.groups && |c.positions| == |c.joints|
            && |st.groups[c.group].lower| == |c.joints| == |st.groups[c.group].upper|
            && Inside(c.positions[i], st.groups[c.group].lower[i], st.groups[c.group].upper[i])
  {
    hide InvX, Evolves, Inside, WithinWidened;
    IssuedHere(st, states[k], t);
  }

  /** No active session's joint has moved further out since its backend start. */
  lemma ActiveOvershootNeverGrows(st: Static, s: State, id: Id, a: nat, b: nat, i: nat)
    requires ValidStatic(st) && InvX(st, s, CLOSED) && id in s.active
    requires id in s.sessions && id in s.outputs && s.sessions[id].group in st.groups
    requires a <= b < |s.outputs[id]| && i < |st.groups[s.sessions[id].group].joints|
    ensures |s.outputs[id][a]| == |s.outputs[id][b]| == |st.groups[s.sessions[id].group].joints|
    ensures var group := st.groups[s.sessions[id].group];
            && |group.lower| == |group.joints| == |group.upper|
            && Overshoot(s.outputs[id][b][i], group.lower[i], group.upper[i])
                 <= Overshoot(s.outputs[id][a][i], group.lower[i], group.upper[i])
            && (Inside(s.outputs[id][a][i], group.lower[i], group.upper[i]) ==>
                  Inside(s.outputs[id][b][i], group.lower[i], group.upper[i]))
  {
    hide InvX, Overshoot, Inside;
    RecoveryIgnoresFlag(st, s, CLOSED, id);
    OvershootNeverGrows(st.groups[s.sessions[id].group], st.config.recovery.margin, s.outputs[id], a, b, i);
  }

  /** Every command a run ever returned lies in the widened limits and carries the deadline of its inputs. */
  lemma IssuedCommandsAreSafe(st: Static, states: seq<State>, i: nat, j: nat, token: nat)
    requires History(st, states) && i <= j < |states| && token in states[i].issued
    ensures token in states[j].issued && states[j].issued[token] == states[i].issued[token]
    ensures IssueOk(states[j].issued[token], st)
  {
    hide IssueOk, InvX;
    EvolvesAcross(st, states, i, j);
    IssuedHere(st, states[j], token);
  }

  lemma IssuedHere(st: Static, s: State, token: nat)
    requires InvX(st, s, CLOSED) && token in s.issued
    ensures IssueOk(s.issued[token], st)
  {
    hide Agree, BackendAgrees, StartsOk, RequestsOk, ActiveDisjoint, WatchOk, PermitsOk, LogOk, FreshLog, EventsOk,
      SuccessListed, SuccessesOk, RecoveryOk, TrailsOk, IssueOk;
  }

  // ---- Success ----

  /**
    A session that succeeded was a Move whose last observations had settled. If it was no
    MoveJ, the SDK had reported the path of one of its own starts reached, and a MoveP's
    start reported every waypoint of its request, in order.
  */
  lemma SuccessIsEarned(st: Static, states: seq<State>, i: nat, e: nat)
    requires History(st, states) && i < |states| && e < |states[i].delivered|
    requires states[i].delivered[e].state == SUCCEEDED
    ensures var s, n := states[i], states[i].delivered[e].serial;
            && n in s.successes && n < |s.requests| && s.requests[n].kind.IsMove()
            && Goals.Settled(s.successes[n].history, st.config.stableDuration)
            && (s.requests[n].kind != MoveJ ==>
                  && s.successes[n].start.Some? && s.successes[n].start.value < |s.starts|
                  && var start := s.starts[s.successes[n].start.value];
                  && start.owner == n && start.kind == s.requests[n].kind && start.reports != []
                  && (start.kind == MoveP ==> AllReachedInOrder(start.reports, s.requests[n].waypoints)))
  {
    hide Evolves, Agree, BackendAgrees, StartsOk, RequestsOk, ActiveDisjoint, WatchOk, PermitsOk, LogOk, FreshLog,
      EventsOk, RecoveryOk, IssuedOk, TrailsOk, Goals.Settled, EndedSerial, AllReachedInOrder;
    var s := states[i];
    assert InvX(st, s, CLOSED);
    var stream := s.delivered + s.pending;
    assert stream[e] == s.delivered[e];
    assert Earned(s.requests[stream[e].serial], stream[e].serial, s.successes[stream[e].serial], s.starts,
      st.config.stableDuration);
  }

  /** What a session succeeded by, and what it was asked for, never changes afterwards. */
  lemma SuccessStands(st: Static, states: seq<State>, i: nat, j: nat, n: nat)
    requires History(st, states) && i <= j < |states| && n in states[i].successes && n < |states[i].requests|
    ensures n in states[j].successes && states[j].successes[n] == states[i].successes[n]
    ensures n < |states[j].requests| && states[j].requests[n] == states[i].requests[n]
  {
    hide InvX, StartsGrow, PermitsOnlyFresh;
    EvolvesAcross(st, states, i, j);
  }

  // ---- Targets ----

  /**
    A stamped target that was accepted after another is never refused by the pipeline as
    older than the other; only its lease may be over.
  */
  lemma AcceptedTargetIsInOrder(
    tracker: Stamps.Tracker, inputs: seq<Stamps.Input>, rules: Stamps.Rules, offset: int, i: nat, j: nat,
    st: Static, s: State, endpoint: string, request: Request, now: Time, generation: nat)
    requires Stamps.RosTimeAdvances(tracker, inputs) && Stamps.ClocksAgree(inputs, offset) && i < j < |inputs|
    requires Stamps.VerdictAt(tracker, inputs, rules, i).Accepted? && inputs[i].stamp != 0
    requires Stamps.VerdictAt(tracker, inputs, rules, j).Accepted? && inputs[j].stamp != 0
    requires s.enabled && generation == s.generation && endpoint in s.arbiter.policies
    requires RequestCode(st.groups, s.arbiter.policies[endpoint], request, true) == OK
    requires ServoId(endpoint) in s.sessions ==>
      s.sessions[ServoId(endpoint)].submittedAt == Stamps.VerdictAt(tracker, inputs, rules, i).freshAt
    requires inputs[j].receivedAt <= now
    ensures var freshAt := Stamps.VerdictAt(tracker, inputs, rules, j).freshAt;
            ServoRefusal(st, s, endpoint, request, freshAt, now, generation) ==
              if now - freshAt >= s.arbiter.policies[endpoint].lease then REJECTED else OK
  {
    Stamps.FreshnessGoesBackExactly(tracker, inputs, rules, offset, i, j);
  }
}
