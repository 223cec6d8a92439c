/**
  The command pipeline itself: sessions, arbitration, the SDK backend, goal
  monitoring and one-shot publication permits. Every method is one critical section.
*/
module CommandPipelines {
  import opened MotionTypes
  import opened Arbitration
  import opened ControlArbiters
  import opened LimitRecovery
  import opened GoalMonitors
  import opened SdkBackend
  import opened PipelineModel
  import opened TurnModel
  import opened TickModel

  /** The steady clock. Any amount of time may pass between two readings. */
  class Clock {
    var now: Time

    constructor () { now := 0; }

    method Read() returns (t: Time)
      modifies this
      ensures t == now && now >= old(now)
    {
      var passed :| passed >= 0;
      now := now + passed;
      t := now;
    }
  }

  class CommandPipeline {
    const st: Static
    const arbiter: ControlArbiter
    const monitor: GoalMonitor
    const backend: SdkMotionBackend
    const clock: Clock

    var endpoints: map<string, Policy>
    var outputEnabled: bool
    var outputGeneration: nat
    var sessions: map<Id, Session>
    var retryAfter: map<string, Time>
    var active: set<Id>
    var pending: seq<Event>
    var permits: map<Joint, Permit>
    var nextToken: nat
    var currentPeriod: Time
    var lastTick: Option<Time>
    /** Sessions created so far. */
    var created: nat
    /** The result a tick is building. */
    var commands: seq<JointCommand>
    var events: seq<Event>

    /** Events handed out, by earlier ticks and up to now. */
    ghost var delivered: seq<Event>
    ghost var handed: seq<Event>
    /** Requests sessions were created with, commands returned, and commands published. */
    ghost var requests: seq<Request>
    ghost var issued: map<nat, Issue>
    ghost var published: seq<Publication>
    /** Outputs since the running start of each active session. */
    ghost var outputs: map<Id, seq<seq<real>>>
    /** The start whose path was reached, for watched goals, and what ended sessions succeeded by. */
    ghost var via: map<Id, nat>
    ghost var successes: map<nat, Success>

    ghost function State(): State
      reads this`outputEnabled, this`outputGeneration, this`sessions, this`active, this`pending, this`permits,
        this`nextToken,
        this`created, this`commands, this`delivered, this`requests, this`issued, this`published, this`outputs, this`via,
        this`successes, arbiter, monitor, backend
    {
      PipelineModel.State.State(
        outputEnabled, outputGeneration, arbiter.State(), sessions, active, backend.starts, backend.current,
        monitor.goals, monitor.history, via, permits, nextToken, pending, delivered, commands, created, requests,
        issued,
        published, outputs, successes)
    }

    /** What holds of the fields the abstract state does not show, and of the parts by themselves. */
    ghost predicate Sound()
      reads this`endpoints, this`currentPeriod, this`delivered, this`handed, this`events, arbiter, monitor, backend
    {
      && ValidStatic(st) && arbiter.Valid() && backend.Valid() && monitor.Valid() && ConfigValid(monitor.config)
      && monitor.config.moveTimeout == st.config.moveTimeout
      && monitor.config.stableDuration == st.config.stableDuration
      && endpoints == arbiter.policies && currentPeriod > 0 && delivered == handed + events
    }

    ghost predicate ValidX(gap: Gap)
      reads this`outputEnabled, this`outputGeneration, this`sessions, this`active, this`pending, this`permits,
        this`nextToken, this`created, this`commands, this`delivered, this`requests, this`issued, this`published,
        this`outputs, this`via, this`successes, this`endpoints, this`currentPeriod, this`handed, this`events, arbiter,
        monitor, backend
    {
      Sound() && InvX(st, State(), gap)
    }

    ghost predicate Valid()
      reads this, arbiter, monitor, backend
    {
      ValidX(CLOSED)
    }

    /** The abstract state shows the concrete fields. */
    lemma Shown()
      ensures State().sessions == sessions && State().active == active && State().permits == permits
      ensures State().commands == commands
      ensures State().pending == pending && State().starts == backend.starts && State().current == backend.current
      ensures State().goals == monitor.goals && State().histories == monitor.history && State().via == via
      ensures State().arbiter == arbiter.State() && State().enabled == outputEnabled
      ensures State().generation == outputGeneration
      ensures State().created == created && State().nextToken == nextToken && State().issued == issued
      ensures State().published == published && State().requests == requests && State().successes == successes
      ensures State().delivered == delivered && State().outputs == outputs
    {
    }

    constructor (st: Static, monitorConfig: GoalMonitors.Config)
      requires ValidStatic(st) && ConfigValid(monitorConfig)
      requires monitorConfig.moveTimeout == st.config.moveTimeout
      requires monitorConfig.stableDuration == st.config.stableDuration
      ensures Valid() && this.st == st && monitor.config == monitorConfig
      ensures State() == Initial()
      ensures fresh(arbiter) && fresh(monitor) && fresh(backend) && fresh(backend.sdk) && fresh(clock)
    {
      hide InvX, GoalMonitor.Valid, SdkMotionBackend.Valid, ConfigValid, Inv, ValidGroup;
      this.st := st;
      arbiter := new ControlArbiter();
      monitor := new GoalMonitor(monitorConfig);
      backend := new SdkMotionBackend();
      clock := new Clock();
      endpoints, outputEnabled, outputGeneration := map[], true, 0;
      sessions, retryAfter, active, pending := map[], map[], {}, [];
      permits, nextToken, currentPeriod, lastTick := map[], 1, st.config.period, None;
      created, commands, events := 0, [], [];
      delivered, handed, requests, issued, published := [], [], [], map[], [];
      outputs, via, successes := map[], map[], map[];
      new;
      InitialHolds(st);
      assert State() == Initial();
    }

    method RegisterEndpoint(policy: Policy) returns (code: Code)
      requires Valid()
      modifies this`endpoints, arbiter
      ensures Valid() && Evolves(old(State()), State())
      ensures code == OK <==>
        && policy.endpoint != "" && policy.group != "" && policy.endpoint !in old(endpoints)
        && policy.group in st.groups && (policy.kind == ServoJ || policy.kind == ServoP ==> policy.lease > 0)
      ensures policy.group !in st.groups ==> code == NOT_CONFIGURED && State() == old(State())
      ensures policy.group in st.groups ==>
        && code == RegisterCode(old(arbiter.State()), policy)
        && State() == old(State()).(arbiter := old(arbiter.State()).(
             policies := if code == OK then old(endpoints)[policy.endpoint := policy] else old(endpoints)))
    {
      hide InvX, Evolves, Inv, ValidStatic, GoalMonitor.Valid, SdkMotionBackend.Valid;
      EvolvesReflexive(State());
      if policy.group !in st.groups { return NOT_CONFIGURED; }
      EndpointRegistered(st, State(), policy);
      code := arbiter.RegisterEndpoint(policy);
      if code == OK {
        endpoints := endpoints[policy.endpoint := policy];
      }
    }

    // ---- Ending a session ----

    method TerminateSession(id: Id, state: SessionState, code: Code, preserveOutput: bool, ghost gap: Gap)
      requires ValidX(gap) && id !in gap.entering && state.Terminal()
      requires state == SUCCEEDED ==> MaySucceed(State(), id, st.config.stableDuration)
      modifies this`permits, this`active, this`pending, this`sessions, this`outputs, this`via, this`successes,
        arbiter, monitor, backend
      ensures ValidX(gap.Without(id))
      ensures State() == Terminate(old(State()), id, state, code, preserveOutput)
      ensures Evolves(old(State()), State())
    {
      hide InvX, Evolves, Terminate, MaySucceed, WithoutSession, CommandPipeline.Sound, CommandPipeline.State;
      Shown();
      TerminateKeeps(st, State(), gap, id, state, code, preserveOutput);
      TerminateParts(State(), id, state, code, preserveOutput);
      if !preserveOutput { DropPermits(id); }
      if id !in sessions { return; }
      DropSession(id, state, code);
    }

    method DropPermits(id: Id)
      modifies this`permits
      ensures State() == old(State()).(permits := WithoutSession(old(State()).permits, id))
    {
      permits := WithoutSession(permits, id);
    }

    method End(id: Id, state: SessionState, code: Code, preserveOutput: bool)
      requires Valid() && state.Terminal() && (state == SUCCEEDED ==> MaySucceed(State(), id, st.config.stableDuration))
      modifies this`permits, this`active, this`pending, this`sessions, this`outputs, this`via, this`successes,
        arbiter, monitor, backend
      ensures Valid() && Evolves(old(State()), State())
      ensures State() == Terminate(old(State()), id, state, code, preserveOutput)
    {
      hide InvX, Evolves, Inv, ValidStatic, GoalMonitor.Valid, SdkMotionBackend.Valid, Terminate;
      assert CLOSED.Without(id) == CLOSED;
      TerminateSession(id, state, code, preserveOutput, CLOSED);
    }

    /** Remove the session from every place that knows it, and report its end. */
    method DropSession(id: Id, state: SessionState, code: Code)
      requires id in sessions && Sound()
      modifies this`active, this`pending, this`sessions, this`outputs, this`via, this`successes, arbiter, monitor,
        backend
      ensures Sound() && State() == Terminate(old(State()), id, state, code, true)
    {
      hide Terminate, Recorded, DroppedElsewhere, CommandPipeline.Sound, CommandPipeline.State;
      Shown();
      DropSteps(State(), id, state, code);
      RecordSuccess(id, state);
      Shown();
      DropElsewhere(id);
      Shown();
      ReportEnd(Event(id, state, code, sessions[id].serial));
      Forget(id);
    }

    ghost method RecordSuccess(id: Id, state: SessionState)
      requires id in sessions
      modifies this`successes
      ensures State() == Recorded(old(State()), id, state)
    {
      if state == SUCCEEDED && id in monitor.history {
        successes := successes[sessions[id].serial := SuccessOf(State(), id)];
      }
    }

    /** The backend, the arbiter and the monitor forget the session. */
    method DropElsewhere(id: Id)
      requires Sound()
      modifies arbiter, monitor, backend
      ensures Sound() && State() == DroppedElsewhere(old(State()), id)
    {
      hide Release, CommandPipeline.Sound, CommandPipeline.State;
      StopBackend(id);
      ReleaseClaim(id);
      EraseGoal(id);
    }

    method StopBackend(id: Id)
      requires Sound()
      modifies backend
      ensures Sound() && State() == old(State()).(current := old(State()).current - {id})
    {
      hide ValidStatic, ControlArbiter.Valid, GoalMonitor.Valid, SdkMotionBackend.Valid;
      backend.StopSession(id);
    }

    method ReleaseClaim(id: Id)
      requires Sound()
      modifies arbiter
      ensures Sound() && State() == old(State()).(arbiter := Release(old(State()).arbiter, id))
    {
      hide ValidStatic, ControlArbiter.Valid, GoalMonitor.Valid, SdkMotionBackend.Valid;
      arbiter.ReleaseClaim(id);
    }

    method EraseGoal(id: Id)
      requires Sound()
      modifies monitor
      ensures Sound()
      ensures State() == old(State()).(goals := old(State()).goals - {id}, histories := old(State()).histories - {id})
    {
      hide ValidStatic, ControlArbiter.Valid, GoalMonitor.Valid, SdkMotionBackend.Valid;
      monitor.Erase(id);
    }

    /** The session is neither live nor active any more. */
    method Forget(id: Id)
      modifies this`active, this`sessions, this`outputs, this`via
      ensures var s := old(State());
              State() == s.(
                active := s.active - {id}, sessions := s.sessions - {id}, outputs := s.outputs - {id},
                via := s.via - {id})
    {
      active := active - {id};
      sessions := sessions - {id};
      outputs, via := outputs - {id}, via - {id};
    }

    method ReportEnd(event: Event)
      modifies this`pending
      ensures State() == old(State()).(pending := old(State()).pending + [event])
    {
      pending := pending + [event];
    }

    // ---- Submission ----

    /** The request's session, or why it is refused. */
    method ValidateRequest(policy: Policy, request: Request, expectServo: bool) returns (code: Code, session: Session)
      requires Valid() && policy.endpoint in endpoints && endpoints[policy.endpoint] == policy && policy.endpoint != ""
      requires request.kind.IsMove() ==> !IsServoId(request.id)
      ensures code == RequestCode(st.groups, policy, request, expectServo)
      ensures code == OK ==> session == NewSession(st.groups, policy, request, created)
    {
      session := *;
      if request.kind.IsServo() != expectServo || policy.kind != request.kind || policy.group != request.group {
        return INVALID_ARGUMENT, session;
      }
      if request.group !in st.groups { return NOT_CONFIGURED, session; }
      if !expectServo && request.id == "" { return INVALID_ARGUMENT, session; }
      var group := st.groups[request.group];
      if request.velocityLimits != [] && |request.velocityLimits| != |group.joints| {
        return INVALID_ARGUMENT, session;
      }
      if request.check != OK { return request.check, session; }
      if request.kind == MoveP && request.waypoints == 0 { return INVALID_ARGUMENT, session; }
      session := Session(
        policy.endpoint, if expectServo then ServoId(policy.endpoint) else request.id, group.name, group.joints,
        request, 0, false, JointTarget([], [], [], []), false, created, 0);
      return OK, session;
    }

    method EndSessions(ids: seq<Id>, state: SessionState, code: Code, ghost gone: set<Id>, ghost entering: set<Id>)
      requires ValidX(Gap(gone, entering, {})) && Members(ids) !! entering && state.Terminal() && state != SUCCEEDED
      modifies this`permits, this`active, this`pending, this`sessions, this`outputs, this`via, this`successes,
        arbiter, monitor, backend
      ensures ValidX(Gap(gone - Members(ids), entering, {}))
      ensures State() == EndAll(old(State()), ids, state, code)
      ensures Evolves(old(State()), State())
    {
      hide InvX, Evolves, Terminate, CommandPipeline.Sound, CommandPipeline.State;
      EvolvesReflexive(State());
      assert gone - Members(ids[..0]) == gone;
      for k := 0 to |ids|
        invariant ValidX(Gap(gone - Members(ids[..k]), entering, {}))
        invariant State() == EndAll(old(State()), ids[..k], state, code)
        invariant Evolves(old(State()), State())
      {
        ghost var before := State();
        TerminateSession(ids[k], state, code, false, Gap(gone - Members(ids[..k]), entering, {}));
        EvolvesTransitive(old(State()), before, State());
        assert ids[..k + 1][..k] == ids[..k];
        assert gone - Members(ids[..k]) - {ids[k]} == gone - Members(ids[..k + 1]);
        assert Gap({}, entering, {}).starting - {ids[k]} == {};
      }
      assert ids[..|ids|] == ids;
    }

    /** End the sessions the arbiter displaced. */
    method EndDisplaced(preempted: seq<Id>, expired: seq<Id>, ghost entering: set<Id>)
      requires ValidX(Gap(Members(preempted) + Members(expired), entering, {}))
      requires Members(preempted) !! entering && Members(expired) !! entering
      modifies this`permits, this`active, this`pending, this`sessions, this`outputs, this`via, this`successes,
        arbiter, monitor, backend
      ensures ValidX(Gap({}, entering, {})) && Evolves(old(State()), State())
      ensures State() == Displace(old(State()), preempted, expired)
      ensures sessions == old(sessions) - (Members(preempted) + Members(expired))
      ensures forall id :: id in entering && id in old(arbiter.claims) ==>
        id in arbiter.claims && arbiter.claims[id] == old(arbiter.claims)[id]
    {
      hide InvX, Inv, ValidStatic, SessionOk, GoalMonitor.Valid, SdkMotionBackend.Valid, Evolves, Terminate, EndAll;
      ghost var s := State();
      EndAllFrame(s, preempted, SessionState.PREEMPTED, Code.PREEMPTED);
      forall id | id in entering { EndAllElsewhere(s, preempted, SessionState.PREEMPTED, Code.PREEMPTED, id); }
      EndSessions(preempted, SessionState.PREEMPTED, Code.PREEMPTED, Members(preempted) + Members(expired), entering);
      ghost var middle := State();
      EndAllFrame(middle, expired, ABORTED, STALE_FEEDBACK);
      forall id | id in entering { EndAllElsewhere(middle, expired, ABORTED, STALE_FEEDBACK, id); }
      ghost var rest := Members(preempted) + Members(expired) - Members(preempted);
      EndSessions(expired, ABORTED, STALE_FEEDBACK, rest, entering);
      assert rest - Members(expired) == {};
      EvolvesTransitive(s, middle, State());
    }

    method RevokeOutputs(joints: seq<Joint>, ghost gap: Gap)
      requires ValidX(gap)
      modifies this`permits
      ensures ValidX(gap) && State() == Revoke(old(State()), joints) && Evolves(old(State()), State())
      ensures permits == old(permits) - Members(joints)
    {
      hide InvX, Inv, ValidStatic, GoalMonitor.Valid, SdkMotionBackend.Valid, Evolves;
      RevokeKeeps(st, State(), gap, joints);
      for k := 0 to |joints|
        invariant permits == old(permits) - Members(joints[..k])
      {
        permits := permits - {joints[k]};
        assert joints[..k + 1] == joints[..k] + [joints[k]];
      }
      assert joints[..|joints|] == joints;
    }

    method AdmitSession(session: Session, ghost gone: set<Id>)
      requires ValidX(Gap(gone, {session.id}, {})) && session.id !in sessions
      requires SessionOk(endpoints, st.groups, session.id, session) && session.serial == created && !session.started
      requires ClaimAgrees(arbiter.claims, session.id, session)
      requires outputEnabled && session.generation == outputGeneration
      modifies this`sessions, this`created, this`requests
      ensures ValidX(Gap(gone, {}, {})) && State() == Create(old(State()), session) && Evolves(old(State()), State())
      ensures created == old(created) + 1 && sessions == old(sessions)[session.id := session]
    {
      hide InvX, Evolves, SessionOk, ClaimAgrees, Create, CommandPipeline.Sound, CommandPipeline.State;
      Shown();
      Enrolling(session, Gap(gone, {session.id}, {}));
      CreateKeeps(st, State(), gone, session);
      Enroll(session);
    }

    lemma Enrolling(session: Session, gap: Gap)
      requires ValidX(gap)
      ensures State().arbiter.policies == endpoints && State().arbiter.claims == arbiter.claims
    {
      hide InvX, ValidStatic, ControlArbiter.Valid, GoalMonitor.Valid, SdkMotionBackend.Valid;
    }

    method Enroll(session: Session)
      modifies this`sessions, this`created, this`requests
      ensures State() == Create(old(State()), session)
      ensures created == old(created) + 1 && sessions == old(sessions)[session.id := session]
    {
      sessions := sessions[session.id := session];
      created := created + 1;
      requests := requests + [session.request];
    }

    /**
      A Move is admitted exactly when its claim wins. The Moves it evicts end as
      preempted, expired Servos end as aborted, and outputs already computed for its
      joints can no longer be published.
    */
    method SubmitMove(endpointName: string, request: Request, now: Time, generation: nat)
      returns (code: Code, id: Id, ghost report: ArbitrationResult)
      requires Valid()
      requires request.kind.IsMove() ==> !IsServoId(request.id)
      modifies this`permits, this`active, this`pending, this`sessions, this`created, this`requests, this`outputs,
        this`via, this`successes, arbiter, monitor, backend
      ensures Valid() && Evolves(old(State()), State())
      ensures MoveOutcome(st, old(State()), State(), endpointName, request, now, generation, code, id, report)
      ensures !old(outputEnabled) || generation != old(outputGeneration) ==> code == REJECTED && State() == old(State())
      ensures created <= old(created) + 1
      ensures code == OK ==>
        && id == request.id && id in sessions && id !in old(sessions) && sessions[id].endpoint == endpointName
        && sessions[id].request == request && sessions[id].submittedAt == now && sessions[id].generation == generation
      // A well-formed Move under the permission in force is admitted if whoever shares a joint with it ranks no higher.
      ensures
        && old(outputEnabled) && generation == old(outputGeneration)
        && endpointName in endpoints && request.group in st.groups
        && endpoints[endpointName].kind == request.kind && endpoints[endpointName].group == request.group
        && request.kind != ServoJ && request.kind != ServoP && request.id != "" && request.check == OK
        && (|request.velocityLimits| == 0 || |request.velocityLimits| == |st.groups[request.group].joints|)
        && (request.kind == MoveP ==> request.waypoints != 0) && request.id !in old(sessions)
        && (forall other, joint |
              && other in old(sessions) && joint in old(sessions)[other].joints
              && joint in st.groups[request.group].joints ::
              old(sessions)[other].endpoint in endpoints ==>
                var high, own := endpoints[old(sessions)[other].endpoint].priority, endpoints[endpointName].priority;
                high < own || (high == own && old(sessions)[other].submittedAt <= now)) ==>
        code == OK
      ensures AllDisplaced(endpoints, old(sessions), sessions, pending, now)
    {
      hide InvX, Evolves, ValidateClaim, SessionOk, AcceptsMove, MoveSettles, NewSession, AllDisplaced,
        CommandPipeline.Sound, CommandPipeline.State;
      ghost var s := State();
      report := ArbitrationResult(OK, false, [], [], []);
      NobodyDisplaced(endpoints, sessions, pending, now);
      EvolvesReflexive(s);
      var session;
      Known();
      Shown();
      if !outputEnabled || generation != outputGeneration {
        UnpermittedIsRefused(st, s, endpointName, request, now, now, generation);
      }
      if endpointName in endpoints && request.group in st.groups {
        ProperMoveIsNotRefused(st, s, endpointName, request, generation);
      }
      hide MoveRefusal;
      code, session := CheckMove(endpointName, request, now, generation);
      if code != OK { return code, "", report; }
      code, report := AskMove(session, now);
      MoveDisplaces(st, s, State(), session, now, code, report);
      Shown();
      return code, session.id, report;
    }

    /** The session of a Move that is not refused. */
    method CheckMove(endpointName: string, request: Request, now: Time, generation: nat)
      returns (code: Code, session: Session)
      requires Valid()
      requires request.kind.IsMove() ==> !IsServoId(request.id)
      ensures code == MoveRefusal(st, State(), endpointName, request, generation) && endpoints == arbiter.policies
      ensures code == OK ==>
        && endpointName in endpoints && request.group in st.groups && request.kind.IsMove()
        && session ==
           NewSession(st.groups, endpoints[endpointName], request, created).(
           submittedAt := now, generation := generation)
        && outputEnabled && session.generation == outputGeneration
        && session.id !in sessions && session.serial == created && session.submittedAt == now && !session.started
        && session.id == request.id && session.endpoint == endpointName && session.request == request
        && session.joints == st.groups[request.group].joints && session.generation == generation
        && session.request.kind.IsMove() && SessionOk(endpoints, st.groups, session.id, session)
        && AcceptsMove(arbiter.State(), ClaimFor(session))
    {
      hide InvX, Inv, ValidateClaim, SessionOk, AcceptsMove, CommandPipeline.Sound, CommandPipeline.State;
      Known();
      Shown();
      session := *;
      if !outputEnabled || generation != outputGeneration { return REJECTED, session; }
      if endpointName !in endpoints { return NOT_CONFIGURED, session; }
      RegisteredEndpoint(arbiter.State(), endpointName);
      code, session := ValidateRequest(endpoints[endpointName], request, false);
      if code != OK { return; }
      if session.id in sessions { return INVALID_ARGUMENT, session; }
      session := session.(submittedAt := now, generation := generation);
      SubmittedClaim(st, State(), endpointName, request, now, generation);
    }

    /** What validity says of the endpoints. */
    lemma Known()
      requires Valid()
      ensures ValidStatic(st) && InvX(st, State(), CLOSED) && Inv(arbiter.State())
      ensures endpoints == arbiter.policies && arbiter.State().policies == arbiter.policies
    {
      hide InvX, Inv, ValidStatic;
      ArbiterHolds(st, State(), CLOSED);
    }

    method AskMove(session: Session, now: Time) returns (code: Code, ghost report: ArbitrationResult)
      requires Valid() && session.id !in sessions && session.serial == created && session.submittedAt == now
      requires SessionOk(endpoints, st.groups, session.id, session) && session.request.kind.IsMove() && !session.started
      requires AcceptsMove(arbiter.State(), ClaimFor(session))
      requires outputEnabled && session.generation == outputGeneration
      modifies this`permits, this`active, this`pending, this`sessions, this`created, this`requests, this`outputs,
        this`via, this`successes, arbiter, monitor, backend
      ensures Valid() && Evolves(old(State()), State())
      ensures MoveSettles(old(State()), State(), session, now, code, report)
      ensures created == if code == OK then old(created) + 1 else old(created)
      ensures code == OK ==> session.id in sessions && sessions[session.id] == session
      ensures session.endpoint in old(endpoints) ==> code == OK || Outranked(old(State()), session, now)
    {
      hide InvX, Inv, Evolves, Terminate, EndAll, IsWinnerSet, SessionOk, Displace, ValidateClaim, Outranked,
        MoveResult, Revoke, Create, CommandPipeline.ValidX, CommandPipeline.State;
      ghost var s := State();
      Shown();
      var arbitration := AskArbiter(session, now);
      report := arbitration;
      ghost var asked := State();
      EndDisplaced(arbitration.preempted, arbitration.expired, if report.admitted then {session.id} else {});
      EvolvesTransitive(s, asked, State());
      if arbitration.code != OK || !arbitration.admitted { return arbitration.code, report; }
      ghost var ended := State();
      AdmitSession(session, {});
      EvolvesTransitive(s, ended, State());
      ended := State();
      RevokeOutputs(session.joints, CLOSED);
      EvolvesTransitive(s, ended, State());
      return OK, report;
    }

    method AskArbiter(session: Session, now: Time) returns (report: ArbitrationResult)
      requires Valid() && session.id !in sessions
      requires session.request.kind.IsMove() && AcceptsMove(arbiter.State(), ClaimFor(session))
      modifies arbiter
      ensures ValidX(
        Gap(Members(report.preempted) + Members(report.expired), if report.admitted then {session.id} else {}, {}))
      ensures Evolves(old(State()), State())
      ensures Inv(old(arbiter.State())) && MoveResult(old(arbiter.State()), ClaimFor(session), now, report)
      ensures State() ==
        old(State()).(arbiter := ControlArbiters.SubmitMove(old(arbiter.State()), ClaimFor(session), now))
      ensures session.id !in report.preempted && session.id !in report.expired
      ensures report.admitted ==> ClaimAgrees(arbiter.claims, session.id, session.(submittedAt := now))
      ensures report.admitted <==> report.code == OK
      ensures session.endpoint in endpoints ==> report.admitted || Outranked(old(State()), session, now)
    {
      hide InvX, Inv, ValidStatic, GoalMonitor.Valid, SdkMotionBackend.Valid, Evolves, IsWinnerSet, Ranked, Held,
        ValidateClaim, Outranked, MoveResult;
      ghost var s := State();
      ArbiterHolds(st, s, CLOSED);
      var claim := Claim(session.id, session.endpoint, session.group, session.request.kind, session.joints);
      report := arbiter.SubmitMoveClaim(claim, now);
      MoveGap(st, s, session, now, report);
      Arbitrated(s.arbiter, claim, now, report);
      if session.endpoint in endpoints { LosersAreOutranked(st, s, session, now, report); }
      MoveEntered(s.arbiter, claim, now, report);
      ArbiterEvolves(s, arbiter.State());
    }

    lemma SubmittedUnderPermission(id: Id, gap: Gap)
      requires ValidX(gap) && id in sessions
      ensures outputEnabled && sessions[id].generation == outputGeneration
    {
      hide Agree, BackendAgrees, StartsOk, RequestsOk, ActiveDisjoint, WatchOk, PermitsOk, LogOk, FreshLog, EventsOk,
        SuccessListed, SuccessesOk, RecoveryOk, IssuedOk, TrailsOk, CommandPipeline.Sound;
    }

    /** The session pursues the target of this one; it was created for it at most now. */
    ghost predicate Targeted(session: Session, before: nat, known: set<Id>)
      reads this`sessions, this`created
    {
      && session.id in sessions && sessions[session.id].request == session.request
      && sessions[session.id].submittedAt == session.submittedAt
      && sessions[session.id].generation == session.generation
      && created == if session.id in known then before else before + 1
    }

    method PlaceServo(session: Session, ghost gone: set<Id>)
      requires ValidX(Gap(if session.id in sessions then gone + {session.id} else gone, {session.id}, {}))
      requires session.id !in gone
      requires SessionOk(endpoints, st.groups, session.id, session) && session.serial == created && !session.started
      requires ClaimAgrees(arbiter.claims, session.id, session)
      requires session.id in sessions ==>
        sessions[session.id].request.kind == session.request.kind && session.request.kind.IsServo()
          && SameSession(sessions[session.id], session)
      requires outputEnabled && session.generation == outputGeneration
      modifies this`sessions, this`created, this`requests
      ensures ValidX(Gap(gone, {}, {})) && State() == Place(old(State()), session) && Evolves(old(State()), State())
      ensures Targeted(session, old(created), old(sessions).Keys)
    {
      hide InvX, Inv, ValidStatic, GoalMonitor.Valid, SdkMotionBackend.Valid, Evolves, SessionOk;
      if session.id in sessions {
        SubmittedUnderPermission(session.id, Gap(gone + {session.id}, {session.id}, {}));
        RetargetOk(endpoints, st.groups, arbiter.claims, sessions[session.id], session);
        RetargetKeeps(st, State(), gone, session.id, session.request, session.submittedAt);
        var held := sessions[session.id];
        sessions := sessions[session.id := held.(request := session.request, submittedAt := session.submittedAt)];
      } else {
        AdmitSession(session, gone);
      }
    }

    /**
      A newer target replaces the session's target and receipt time in place; a new or
      expired endpoint is acquired by a fresh session. The target keeps its original
      receipt time, so buffering it never extends its lease.
    */
    method UpdateServo(endpointName: string, request: Request, receivedAt: Time, now: Time, generation: nat)
      returns (code: Code, id: Id, ghost report: ArbitrationResult)
      requires Valid()
      requires request.kind.IsMove() ==> !IsServoId(request.id)
      modifies this`permits, this`active, this`pending, this`sessions, this`created, this`requests, this`outputs,
        this`via, this`successes, arbiter, monitor, backend
      ensures Valid() && Evolves(old(State()), State())
      ensures ServoOutcome(
        st, old(State()), State(), endpointName, request, receivedAt, now, generation, code, id, report)
      ensures !old(outputEnabled) || generation != old(outputGeneration) ==> code == REJECTED && State() == old(State())
      ensures created <= old(created) + 1
      // Accepted exactly if well formed, in time, not older than the target pursued, and under the permission in force.
      ensures code == OK <==>
        && old(outputEnabled) && generation == old(outputGeneration)
        && endpointName in endpoints && request.group in st.groups
        && endpoints[endpointName].kind == request.kind && endpoints[endpointName].group == request.group
        && (request.kind == ServoJ || request.kind == ServoP) && request.check == OK
        && (|request.velocityLimits| == 0 || |request.velocityLimits| == |st.groups[request.group].joints|)
        && receivedAt <= now < receivedAt + endpoints[endpointName].lease
        && ("servo:" + endpointName in old(sessions) ==>
              old(sessions)["servo:" + endpointName].submittedAt <= receivedAt)
      ensures code == OK ==>
        && id == "servo:" + endpointName && id in sessions && sessions[id].request == request
        && sessions[id].submittedAt == receivedAt && sessions[id].generation == generation
      ensures code != OK ==> State() == old(State())
      ensures AllDisplaced(endpoints, old(sessions), sessions, pending, now)
    {
      hide InvX, Inv, Evolves, Terminate, SessionOk, ServoSettles, ValidateClaim, AllDisplaced,
        CommandPipeline.ValidX;
      ghost var s := State();
      NobodyDisplaced(endpoints, sessions, pending, now);
      report := ArbitrationResult(OK, false, [], [], []);
      EvolvesReflexive(s);
      var session;
      if !outputEnabled || generation != outputGeneration {
        UnpermittedIsRefused(st, s, endpointName, request, receivedAt, now, generation);
      }
      ProperTargetIsNotRefused(st, s, endpointName, request, receivedAt, now, generation);
      hide ServoRefusal;
      code, session := CheckServo(endpointName, request, receivedAt, now, generation);
      if code != OK { return code, "", report; }
      var lease := endpoints[endpointName].lease;
      code, report := PursueTarget(session, lease, now);
      return code, session.id, report;
    }

    /** An expired session of the endpoint ends first; then the target is asked for. */
    method PursueTarget(session: Session, lease: Time, now: Time) returns (code: Code, ghost report: ArbitrationResult)
      requires Valid() && session.endpoint in endpoints && lease == endpoints[session.endpoint].lease
      requires SessionOk(endpoints, st.groups, session.id, session) && session.request.kind.IsServo()
      requires !session.started && outputEnabled && session.generation == outputGeneration
      requires ValidateClaim(endpoints, ClaimFor(session), true) == OK && session.serial == created
      requires session.submittedAt <= now && now - session.submittedAt < lease
      requires session.id in sessions ==> sessions[session.id].submittedAt <= session.submittedAt
      modifies this`permits, this`active, this`pending, this`sessions, this`created, this`requests, this`outputs,
        this`via, this`successes, arbiter, monitor, backend
      ensures Valid() && Evolves(old(State()), State()) && code == OK
      ensures ServoSettles(Reacquire(old(State()), session.id, lease, now), State(), session, now, report)
      ensures session.id in sessions && sessions[session.id].request == session.request
      ensures sessions[session.id].submittedAt == session.submittedAt
      ensures sessions[session.id].generation == session.generation && created <= old(created) + 1
      ensures AllDisplaced(endpoints, old(sessions), sessions, pending, now)
    {
      hide InvX, Inv, Evolves, Terminate, SessionOk, ServoSettles, ValidateClaim, AllDisplaced, Reacquire, LeaseOver,
        CommandPipeline.ValidX, CommandPipeline.State;
      ghost var before := sessions;
      Shown();
      EndExpired(session.id, lease, now);
      ghost var current := State();
      Shown();
      Known();
      code, report := AskServo(session, lease, now, old(State()));
      Shown();
      ServoDisplaces(st, current, State(), session, now, report);
      DisplacedSince(endpoints, before, current.sessions, sessions, pending, session.id, now);
    }

    /** The session of a target that is not refused. */
    method CheckServo(endpointName: string, request: Request, receivedAt: Time, now: Time, generation: nat)
      returns (code: Code, session: Session)
      requires Valid()
      requires request.kind.IsMove() ==> !IsServoId(request.id)
      ensures code == ServoRefusal(st, State(), endpointName, request, receivedAt, now, generation)
      ensures endpoints == arbiter.policies
      ensures code == OK ==>
        && endpointName in endpoints && request.group in st.groups && session.endpoint == endpointName
        && request.kind.IsServo()
        && session ==
           NewSession(st.groups, endpoints[endpointName], request, created).(
           submittedAt := receivedAt, generation := generation)
        && outputEnabled && session.generation == outputGeneration
        && SessionOk(endpoints, st.groups, session.id, session)
        && ValidateClaim(endpoints, ClaimFor(session), true) == OK
        && receivedAt <= now && now - receivedAt < endpoints[endpointName].lease
        && (session.id in sessions ==> sessions[session.id].submittedAt <= receivedAt)
    {
      hide InvX, Inv, ValidStatic, SessionOk, ValidateClaim, CommandPipeline.Sound, CommandPipeline.State;
      Known();
      Shown();
      session := *;
      if !outputEnabled || generation != outputGeneration { return REJECTED, session; }
      if endpointName !in endpoints { return NOT_CONFIGURED, session; }
      RegisteredEndpoint(arbiter.State(), endpointName);
      code, session := ValidateRequest(endpoints[endpointName], request, true);
      if code != OK { return; }
      if receivedAt > now || now - receivedAt >= endpoints[endpointName].lease { return REJECTED, session; }
      session := session.(submittedAt := receivedAt, generation := generation);
      if session.id in sessions && receivedAt < sessions[session.id].submittedAt { return REJECTED, session; }
      SubmittedClaim(st, State(), endpointName, request, receivedAt, generation);
    }

    /** An endpoint whose lease is over is acquired anew. */
    method EndExpired(id: Id, lease: Time, now: Time)
      requires Valid()
      modifies this`permits, this`active, this`pending, this`sessions, this`outputs, this`via, this`successes,
        arbiter, monitor, backend
      ensures Valid() && Evolves(old(State()), State()) && State() == Reacquire(old(State()), id, lease, now)
      ensures arbiter.policies == old(arbiter.policies)
      ensures id in sessions ==> id in old(sessions) && sessions[id] == old(sessions)[id]
      ensures sessions - {id} == old(sessions) - {id}
      ensures !LeaseOver(State(), id, lease, now)
    {
      hide InvX, Inv, ValidStatic, GoalMonitor.Valid, SdkMotionBackend.Valid, Evolves, Terminate;
      EvolvesReflexive(State());
      if id in sessions && now - sessions[id].submittedAt >= lease {
        TerminateFrame(State(), id, ABORTED, STALE_FEEDBACK, false);
        End(id, ABORTED, STALE_FEEDBACK, false);
      }
    }

    /** The target is current and its session, if any, is not expired: the arbiter accepts it. */
    method AskServo(session: Session, lease: Time, now: Time, ghost s: State)
      returns (code: Code, ghost report: ArbitrationResult)
      requires Valid() && session.endpoint in endpoints && lease == endpoints[session.endpoint].lease
      requires SessionOk(endpoints, st.groups, session.id, session) && session.request.kind.IsServo()
      requires !session.started && outputEnabled && session.generation == outputGeneration
      requires ValidateClaim(endpoints, ClaimFor(session), true) == OK && session.serial == created
      requires session.submittedAt <= now && now - session.submittedAt < lease
      requires session.id in sessions ==> sessions[session.id].submittedAt <= session.submittedAt
      requires !LeaseOver(State(), session.id, lease, now) && Evolves(s, State())
      modifies this`permits, this`active, this`pending, this`sessions, this`created, this`requests, this`outputs,
        this`via, this`successes, arbiter, monitor, backend
      ensures Valid() && Evolves(s, State()) && code == OK
      ensures ServoSettles(old(State()), State(), session, now, report)
      ensures Targeted(session, old(created), old(sessions).Keys)
    {
      hide InvX, Inv, Evolves, EndAll, SessionOk, Displace, ValidateClaim, ServoAsked, Place, AcceptsServo,
        ServoResult, LeaseOver, SameSession, ClaimAgrees, CommandPipeline.Sound, CommandPipeline.State;
      ghost var current := State();
      Shown();
      var arbitration := UpdateArbiter(session, lease, now);
      report := arbitration;
      ghost var asked := State();
      Shown();
      EvolvesTransitive(s, current, asked);
      // The session itself is not among the expired: its lease was checked above.
      SettleServo(session, arbitration, s);
      ghost var ended := State();
      if arbitration.admitted {
        RevokeOutputs(session.joints, CLOSED);
        EvolvesTransitive(s, ended, State());
      }
      return OK, report;
    }

    /** The arbiter accepts the target of a live, unexpired session, or of a new one. */
    method UpdateArbiter(session: Session, lease: Time, now: Time) returns (report: ArbitrationResult)
      requires Valid() && session.endpoint in endpoints && lease == endpoints[session.endpoint].lease
      requires SessionOk(endpoints, st.groups, session.id, session) && session.request.kind.IsServo()
      requires ValidateClaim(endpoints, ClaimFor(session), true) == OK
      requires session.submittedAt <= now && now - session.submittedAt < lease
      requires session.id in sessions ==> sessions[session.id].submittedAt <= session.submittedAt
      requires !LeaseOver(State(), session.id, lease, now)
      modifies arbiter
      ensures var gone := Members(report.preempted) + Members(report.expired);
              ValidX(Gap(if session.id in sessions then gone + {session.id} else gone, {session.id}, {}))
      ensures Inv(old(arbiter.State()))
      ensures AcceptsServo(old(arbiter.State()), ClaimFor(session), session.submittedAt, now)
      ensures ServoResult(old(arbiter.State()), ClaimFor(session), session.submittedAt, now, report)
      ensures State() == ServoAsked(old(State()), session, now) && Evolves(old(State()), State()) && report.code == OK
      ensures session.id !in report.preempted && session.id !in report.expired && endpoints == arbiter.policies
      ensures ClaimAgrees(arbiter.claims, session.id, session)
      ensures session.id in sessions ==>
        sessions[session.id].request.kind == session.request.kind && SameSession(sessions[session.id], session)
    {
      hide InvX, Inv, ValidStatic, GoalMonitor.Valid, SdkMotionBackend.Valid, Evolves, IsWinnerSet, Ranked, Held,
        SessionOk, ValidateClaim;
      ghost var current := State();
      ArbiterHolds(st, current, CLOSED);
      ServoClaimAccepted(st, current, session, now);
      var claim := Claim(session.id, session.endpoint, session.group, session.request.kind, session.joints);
      report := arbiter.UpdateServoClaim(claim, session.submittedAt, now);
      ServoGap(st, current, session, now, report);
      ArbiterEvolves(current, arbiter.State());
      EnteredClaim(current.arbiter, claim, session.submittedAt, now);
    }

    /** Place the session, then end those it displaced. */
    method SettleServo(session: Session, report: ArbitrationResult, ghost s: State)
      requires var gone := Members(report.preempted) + Members(report.expired);
               ValidX(Gap(if session.id in sessions then gone + {session.id} else gone, {session.id}, {}))
      requires session.id !in report.preempted && session.id !in report.expired && Evolves(s, State())
      requires SessionOk(endpoints, st.groups, session.id, session) && session.serial == created && !session.started
      requires ClaimAgrees(arbiter.claims, session.id, session)
      requires session.id in sessions ==>
        && sessions[session.id].request.kind == session.request.kind && session.request.kind.IsServo()
        && SameSession(sessions[session.id], session)
      requires outputEnabled && session.generation == outputGeneration
      modifies this`permits, this`active, this`pending, this`sessions, this`created, this`requests, this`outputs,
        this`via, this`successes, arbiter, monitor, backend
      ensures Valid() && Evolves(s, State())
      ensures State() == Displace(Place(old(State()), session), report.preempted, report.expired)
      ensures Targeted(session, old(created), old(sessions).Keys)
    {
      hide InvX, Evolves, SessionOk, Displace, Place, ClaimAgrees, SameSession, CommandPipeline.Sound,
        CommandPipeline.State;
      ghost var asked := State();
      PlaceServo(session, Members(report.preempted) + Members(report.expired));
      EvolvesTransitive(s, asked, State());
      ghost var placed := State();
      EndDisplaced(report.preempted, report.expired, {});
      EvolvesTransitive(s, placed, State());
    }

    // ---- Publication ----

    /** A command may be published only while every one of its joints still carries its own permit. */
    method ValidatePublication(command: JointCommand, now: Time) returns (ok: bool)
      requires Valid()
      modifies this`permits, this`active, this`pending, this`sessions, this`outputs, this`via, this`successes,
        arbiter, monitor, backend
      ensures Valid() && Evolves(old(State()), State())
      ensures ok <==>
        old(outputEnabled) && Holds(old(permits), command) && command.validUntil.Some? && now < command.validUntil.value
      ensures ok <==>
        && old(outputEnabled) && command.token != 0 && command.joints != []
        && (forall k :: 0 <= k < |command.joints| ==>
              && command.joints[k] in old(permits)
              && old(permits)[command.joints[k]].session == command.session
              && old(permits)[command.joints[k]].token == command.token)
        && command.validUntil.Some? && now < command.validUntil.value
      ensures State() ==
        if ok || !old(outputEnabled) || !Holds(old(permits), command) then old(State())
        else Terminate(old(State()), command.session, ABORTED, TIMEOUT, false)
      ensures ok ==> FreshFor(old(State()), command, st.config, now)
    {
      hide InvX, Inv, ValidStatic, GoalMonitor.Valid, SdkMotionBackend.Valid, Evolves, Terminate;
      EvolvesReflexive(State());
      if !outputEnabled || command.token == 0 || command.joints == [] { return false; }
      for k := 0 to |command.joints|
        invariant forall i :: 0 <= i < k ==>
          command.joints[i] in permits && permits[command.joints[i]] == Permit(command.session, command.token)
      {
        var joint := command.joints[k];
        if joint !in permits || permits[joint] != Permit(command.session, command.token) { return false; }
      }
      if command.validUntil.Some? && now < command.validUntil.value {
        UnexpiredIsFresh(st, State(), CLOSED, command, now);
        return true;
      }
      End(command.session, ABORTED, TIMEOUT, false);
      return false;
    }

    method ValidateCommandForPublication(command: JointCommand, now: Time) returns (ok: bool)
      requires Valid()
      modifies this`permits, this`active, this`pending, this`sessions, this`outputs, this`via, this`successes,
        arbiter, monitor, backend
      ensures Valid() && Evolves(old(State()), State())
      ensures ok <==>
        old(outputEnabled) && Holds(old(permits), command) && command.validUntil.Some? && now < command.validUntil.value
      ensures ok ==> State() == old(State())
    {
      ok := ValidatePublication(command, now);
    }

    method RecordPublication(approved: seq<JointCommand>, ghost times: seq<Time>)
      requires Valid() && BatchOk(approved, permits, published, nextToken) && |times| == |approved|
      requires forall k :: 0 <= k < |approved| ==> FreshFor(State(), approved[k], st.config, times[k])
      modifies this`permits, this`published
      ensures Valid() && State() == Publish(old(State()), approved, times) && Evolves(old(State()), State())
    {
      hide InvX, Inv, ValidStatic, GoalMonitor.Valid, SdkMotionBackend.Valid, Evolves, Published, JointsOf;
      PublishKeeps(st, State(), CLOSED, approved, times);
      published := published + Published(approved, times, |published|);
      WithdrawPermits(approved);
    }

    /** A published joint needs a new permit. */
    method WithdrawPermits(approved: seq<JointCommand>)
      modifies this`permits
      ensures permits == old(permits) - JointsOf(approved)
    {
      hide JointsOf;
      JointsOfMore([], []);
      for k := 0 to |approved|
        invariant permits == old(permits) - JointsOf(approved[..k])
      {
        assert approved[..k + 1][..k] == approved[..k];
        JointsOfMore(approved[..k], approved[..k + 1]);
        permits := permits - Members(approved[k].joints);
      }
      assert approved[..|approved|] == approved;
    }

    static lemma JointsOfMore(fewer: seq<JointCommand>, more: seq<JointCommand>)
      requires fewer <= more && |more| <= |fewer| + 1
      ensures JointsOf([]) == {}
      ensures |more| > |fewer| ==> JointsOf(more) == JointsOf(fewer) + Members(more[|fewer|].joints)
    {
      assert |more| > |fewer| ==> more[..|more| - 1] == fewer;
    }

    /** One command, published under the lock; at that instant its inputs are current. */
    method PublishCommand(command: JointCommand, now: Time) returns (ok: bool, ghost at: Time)
      requires Valid()
      modifies this`permits, this`active, this`pending, this`sessions, this`outputs, this`via, this`successes,
        this`published, arbiter, monitor, backend, clock
      ensures Valid() && Evolves(old(State()), State()) && at >= now
      ensures ok <==>
        && old(outputEnabled) && command.token != 0 && command.joints != []
        && (forall k :: 0 <= k < |command.joints| ==>
              && command.joints[k] in old(permits)
              && old(permits)[command.joints[k]].session == command.session
              && old(permits)[command.joints[k]].token == command.token)
        && command.validUntil.Some? && at < command.validUntil.value
      ensures ok ==> State() == Publish(old(State()), [command], [at])
      ensures ok ==> FreshFor(old(State()), command, st.config, at)
      ensures !ok ==> published == old(published)
    {
      hide InvX, Inv, ValidStatic, GoalMonitor.Valid, SdkMotionBackend.Valid, Terminate;
      ghost var s := State();
      var entered := clock.Read();
      var read := clock.Read();
      at := now + (read - entered);
      ok := ValidatePublication(command, now + (read - entered));
      if !ok { return; }
      SingleBatch(st, s, command);
      RecordPublication([command], [at]);
    }

    /** A batch: each command is checked in turn, and those approved are published together. */
    method PublishCommands(batch: seq<JointCommand>, now: Time)
      returns (ok: bool, approved: seq<JointCommand>, ghost times: seq<Time>, ghost approvedAt: seq<Time>)
      requires Valid()
      modifies this`permits, this`active, this`pending, this`sessions, this`outputs, this`via, this`successes,
        this`published, arbiter, monitor, backend, clock
      ensures Valid() && Evolves(old(State()), State())
      ensures |times| == |batch| && NotBefore(times, now)
      ensures approved == Screened(old(State()), batch, times).1 && (ok <==> approved != [])
      ensures AllFresh(old(State()), approved, approvedAt, st.config, now)
      ensures var screened := Screened(old(State()), batch, times).0;
              State() == if ok then Publish(screened, approved, approvedAt) else screened
    {
      hide InvX, Evolves, FreshFor, BatchOk, Screened, NotBefore, Published, JointsOf, CommandPipeline.Sound,
        CommandPipeline.State;
      ghost var s := State();
      EvolvesReflexive(s);
      approved, times, approvedAt := ScreenBatch(batch, now);
      ok := approved != [];
      if !ok { return; }
      ghost var screened := State();
      ScreenedIssued(s, batch, times);
      SameIssuedFresh(s, screened, approved, approvedAt, st.config, now);
      RecordPublication(approved, approvedAt);
      EvolvesTransitive(s, screened, State());
    }

    lemma BatchGrowsHere(approved: seq<JointCommand>, command: JointCommand)
      requires Valid() && Holds(permits, command) && BatchOk(approved, permits, published, nextToken)
      ensures BatchOk(approved + [command], permits, published, nextToken)
    {
      hide InvX, BatchOk, Holds;
      BatchGrowsX(st, State(), approved, command);
    }

    /** One command of a batch; those already approved stay publishable. */
    method ScreenOne(command: JointCommand, now: Time, entered: Time, ghost approved: seq<JointCommand>, ghost s: State)
      returns (approve: bool, ghost at: Time)
      requires Valid() && Evolves(s, State()) && clock.now >= entered
      requires BatchOk(approved, permits, published, nextToken)
      modifies this`permits, this`active, this`pending, this`sessions, this`outputs, this`via, this`successes,
        arbiter, monitor, backend, clock
      ensures Valid() && Evolves(s, State()) && at >= now && clock.now >= entered
      ensures approve <==>
        old(outputEnabled) && Holds(old(permits), command) && command.validUntil.Some? && at < command.validUntil.value
      ensures State() ==
        if approve || !old(outputEnabled) || !Holds(old(permits), command) then old(State())
        else Terminate(old(State()), command.session, ABORTED, TIMEOUT, false)
      ensures approve ==> FreshFor(s, command, st.config, at)
      ensures BatchOk(if approve then approved + [command] else approved, permits, published, nextToken)
    {
      hide InvX, Inv, Terminate, Evolves, FreshFor, Holds, BatchOk, CommandPipeline.ValidX, CommandPipeline.State;
      ghost var before := State();
      Shown();
      var read := clock.Read();
      at := now + (read - entered);
      approve := ValidatePublication(command, now + (read - entered));
      EvolvesTransitive(s, before, State());
      Shown();
      if approve {
        BatchGrowsHere(approved, command);
        FreshEarlier(s, before, command, st.config, at);
      } else {
        TerminateKeepsBatch(before, command.session, approved);
      }
    }

    method ScreenBatch(batch: seq<JointCommand>, now: Time)
      returns (approved: seq<JointCommand>, ghost times: seq<Time>, ghost approvedAt: seq<Time>)
      requires Valid()
      modifies this`permits, this`active, this`pending, this`sessions, this`outputs, this`via, this`successes,
        arbiter, monitor, backend, clock
      ensures Valid() && Evolves(old(State()), State())
      ensures |times| == |batch| && NotBefore(times, now)
      ensures State() == Screened(old(State()), batch, times).0 && approved == Screened(old(State()), batch, times).1
      ensures BatchOk(approved, permits, published, nextToken)
      ensures AllFresh(old(State()), approved, approvedAt, st.config, now)
    {
      hide InvX, Evolves, BatchOk, Screened, AllFresh, NotBefore, CommandPipeline.ValidX, CommandPipeline.State;
      ghost var s := State();
      Shown();
      EvolvesReflexive(s);
      EmptyBatch(s);
      ScreenedNothing(s);
      NothingScreened(s, now);
      var entered := clock.Read();
      approved, times, approvedAt := [], [], [];
      for k := 0 to |batch|
        invariant Valid() && Evolves(s, State()) && |times| == k && clock.now >= entered
        invariant State() == Screened(s, batch[..k], times).0 && approved == Screened(s, batch[..k], times).1
        invariant BatchOk(approved, permits, published, nextToken)
        invariant AllFresh(s, approved, approvedAt, st.config, now) && NotBefore(times, now)
      {
        approved, times, approvedAt := ScreenNext(batch, k, now, entered, approved, times, approvedAt, s);
      }
      assert batch[..|batch|] == batch;
    }

    /** The next command of a batch. */
    method ScreenNext(
      batch: seq<JointCommand>, k: nat, now: Time, entered: Time, before: seq<JointCommand>, ghost earlier: seq<Time>,
      ghost earlierAt: seq<Time>, ghost s: State)
      returns (approved: seq<JointCommand>, ghost times: seq<Time>, ghost approvedAt: seq<Time>)
      requires Valid() && Evolves(s, State()) && k < |batch| && |earlier| == k && clock.now >= entered
      requires State() == Screened(s, batch[..k], earlier).0 && before == Screened(s, batch[..k], earlier).1
      requires BatchOk(before, permits, published, nextToken)
      requires AllFresh(s, before, earlierAt, st.config, now) && NotBefore(earlier, now)
      modifies this`permits, this`active, this`pending, this`sessions, this`outputs, this`via, this`successes,
        arbiter, monitor, backend, clock
      ensures Valid() && Evolves(s, State()) && |times| == k + 1 && clock.now >= entered
      ensures State() == Screened(s, batch[..k + 1], times).0 && approved == Screened(s, batch[..k + 1], times).1
      ensures BatchOk(approved, permits, published, nextToken)
      ensures AllFresh(s, approved, approvedAt, st.config, now) && NotBefore(times, now)
    {
      hide InvX, Evolves, Terminate, FreshFor, Holds, BatchOk, Screened, AllFresh, NotBefore, CommandPipeline.ValidX,
        CommandPipeline.State;
      Shown();
      var approve, at := ScreenOne(batch[k], now, entered, before, s);
      ScreenedStep(s, batch, earlier, k, at);
      NotBeforeMore(earlier, now, at);
      Shown();
      times := earlier + [at];
      if approve {
        AllFreshMore(s, before, earlierAt, st.config, now, batch[k], at);
        return before + [batch[k]], times, earlierAt + [at];
      }
      return before, times, earlierAt;
    }

    lemma NothingScreened(s: State, now: Time)
      ensures AllFresh(s, [], [], st.config, now) && NotBefore([], now)
    {
    }

    // ---- Permission and cancellation ----

    /** Revoking the permission, or moving to another generation, ends every session and every permit. */
    method SetOutputPermit(enabled: bool, generation: nat) returns (ghost ended: seq<Id>)
      requires Valid()
      modifies this`permits, this`active, this`pending, this`sessions, this`outputs, this`via, this`successes,
        this`outputEnabled, this`outputGeneration, arbiter, monitor, backend
      ensures Valid() && Evolves(old(State()), State())
      ensures outputEnabled == enabled && outputGeneration == generation
      ensures !enabled || generation != old(outputGeneration) ==>
        && sessions == map[] && permits == map[] && Members(ended) == old(sessions).Keys
        && State() == EndAll(old(State()), ended, SessionState.CANCELED, Code.CANCELED).(
             permits := map[], enabled := enabled, generation := generation)
      ensures enabled && generation == old(outputGeneration) ==> State() == old(State()).(enabled := true)
    {
      hide InvX, Inv, EndAll, Evolves, CommandPipeline.ValidX, CommandPipeline.State;
      ghost var s := State();
      EvolvesReflexive(s);
      Shown();
      ended := [];
      if !enabled || generation != outputGeneration {
        ended := EndEvery();
        ghost var before := State();
        ClearPermits();
        EvolvesTransitive(s, before, State());
      }
      ghost var before := State();
      SetPermission(enabled, generation);
      EvolvesTransitive(s, before, State());
      Shown();
    }

    method ClearPermits()
      requires Valid()
      modifies this`permits
      ensures Valid() && Evolves(old(State()), State()) && State() == old(State()).(permits := map[])
      ensures permits == map[]
    {
      hide InvX, Inv, ValidStatic, GoalMonitor.Valid, SdkMotionBackend.Valid, Evolves;
      PermitsCleared(st, State());
      permits := map[];
    }

    method SetPermission(enabled: bool, generation: nat)
      requires Valid() && (sessions == map[] || (enabled && generation == outputGeneration))
      modifies this`outputEnabled, this`outputGeneration
      ensures Valid() && Evolves(old(State()), State())
      ensures State() == old(State()).(enabled := enabled, generation := generation)
    {
      hide InvX, Inv, ValidStatic, GoalMonitor.Valid, SdkMotionBackend.Valid, Evolves;
      PermissionKeeps(st, State(), enabled, generation);
      outputEnabled := enabled;
      outputGeneration := generation;
    }

    method EndEvery() returns (ghost ended: seq<Id>)
      requires Valid()
      modifies this`permits, this`active, this`pending, this`sessions, this`outputs, this`via, this`successes,
        arbiter, monitor, backend
      ensures Valid() && Evolves(old(State()), State())
      ensures sessions == map[] && Members(ended) == old(sessions).Keys
      ensures State() == EndAll(old(State()), ended, SessionState.CANCELED, Code.CANCELED)
    {
      hide InvX, Inv, ValidStatic, GoalMonitor.Valid, SdkMotionBackend.Valid, Terminate, Evolves;
      ghost var s := State();
      EvolvesReflexive(s);
      ended := [];
      while sessions != map[]
        invariant Valid() && Evolves(s, State())
        invariant State() == EndAll(s, ended, SessionState.CANCELED, Code.CANCELED)
        invariant Members(ended) + sessions.Keys == old(sessions).Keys
        decreases sessions.Keys
      {
        var id :| id in sessions;
        ghost var before := State();
        TerminateFrame(before, id, SessionState.CANCELED, Code.CANCELED, false);
        End(id, SessionState.CANCELED, Code.CANCELED, false);
        EvolvesTransitive(s, before, State());
        assert (ended + [id])[..|ended|] == ended;
        ended := ended + [id];
      }
    }

    /** Cancelling ends the session, if there is one, and in any case its publishable output. */
    method Cancel(id: Id) returns (code: Code)
      requires Valid()
      modifies this`permits, this`active, this`pending, this`sessions, this`outputs, this`via, this`successes,
        arbiter, monitor, backend
      ensures Valid() && Evolves(old(State()), State()) && code == OK
      ensures State() == Terminate(old(State()), id, SessionState.CANCELED, Code.CANCELED, false)
      ensures id !in sessions && forall joint :: joint in permits ==> permits[joint].session != id
    {
      hide InvX, Inv, ValidStatic, GoalMonitor.Valid, SdkMotionBackend.Valid, Evolves;
      var known := id in sessions;
      End(id, SessionState.CANCELED, Code.CANCELED, false);
      if !known { StopUnknown(id); }
      return OK;
    }

    /** The backend may know a session the pipeline does not. */
    method StopUnknown(id: Id)
      requires Valid() && id !in sessions
      modifies backend
      ensures Valid() && State() == old(State())
    {
      hide InvX, Inv, ValidStatic, GoalMonitor.Valid;
      NewHasNoBackend(st, State(), CLOSED, id);
      backend.StopSession(id);
      assert backend.current == old(backend.current);
    }

    // ---- One winner's part of a control tick ----

    method CurrentTime(cycle: Cycle) returns (t: Time)
      modifies clock
      ensures clock.now >= old(clock.now) && t == cycle.now + (clock.now - cycle.enteredAt)
    {
      var read := clock.Read();
      t := cycle.now + (read - cycle.enteredAt);
    }

    /** What the SDK has answered so far. */
    ghost function Answers(): seq<Answer>
      reads backend.sdk
    {
      backend.sdk.answers
    }

    /** The lease of the session's endpoint. */
    ghost function LeaseOf(session: Session): Time
      reads this`endpoints
    {
      if session.endpoint in endpoints then endpoints[session.endpoint].lease else 0
    }

    /** The tick's time at the last reading of the clock. */
    ghost function At(cycle: Cycle): Time
      reads clock
    {
      cycle.now + (clock.now - cycle.enteredAt)
    }

    /** The failure has its reason in what the turn was given since the answer at `from`. */
    ghost predicate Blamed(session: Session, cycle: Cycle, from: nat, failure: Failure, stopped: bool)
      reads this`endpoints, clock, backend.sdk
    {
      session.endpoint in endpoints &&
      Founded(st, session, endpoints[session.endpoint].lease, cycle, At(cycle), Answers(), from, failure, stopped)
    }

    /** Since `s` the session was aborted for this failure, which has its reason since the answer at `from`. */
    ghost predicate Fails(s: State, id: Id, cycle: Cycle, from: nat, failure: Failure)
      reads this`outputEnabled, this`outputGeneration, this`sessions, this`active, this`pending, this`permits,
        this`nextToken,
        this`created, this`commands, this`delivered, this`requests, this`issued, this`published, this`outputs, this`via,
        this`successes, this`endpoints, arbiter, monitor, backend, backend.sdk, clock
    {
      && id in s.sessions && FailedAs(s, State(), id, cycle, failure)
      && Blamed(s.sessions[id], cycle, from, failure, |commands| > |s.commands|)
    }

    /** It stopped at the answer at `k`. */
    lemma FailsAt(s: State, id: Id, cycle: Cycle, from: nat, k: nat, code: Code)
      requires id in s.sessions && Aborted(s, State(), id, cycle) && EndedAs(s, State(), id, ABORTED, code)
      requires s.sessions[id].endpoint in endpoints
      requires s.sessions[id].group in st.groups && ValidGroup(st.groups[s.sessions[id].group])
      requires from <= k < |Answers()| && StopsAt(st.groups[s.sessions[id].group], Answers()[k], code)
      requires forall j | from <= j < k :: Passes(st.groups[s.sessions[id].group], Answers()[j])
      requires |commands| > |s.commands| || SomeBad(st.groups[s.sessions[id].group], Answers(), k + 1)
      ensures Fails(s, id, cycle, from, Refused(k, code))
    {
      hide Aborted, EndedAs, StopsAt, Passes, ValidGroup, SomeBad, CommandPipeline.Blamed, CommandPipeline.State;
      BlameAnswer(s.sessions[id], cycle, from, k, code, |commands| > |s.commands|);
    }

    /** It failed after it went on so far. */
    lemma FailsSince(s: State, t: State, id: Id, cycle: Cycle, from: nat, mid: nat, failure: Failure)
      requires GoesOn(s, t, id) && Fails(t, id, cycle, mid, failure) && from <= mid <= |Answers()|
      requires s.sessions[id].started ==> t.sessions[id].started
      requires t.sessions[id].group in st.groups && ValidGroup(st.groups[t.sessions[id].group])
      requires forall j | from <= j < mid :: Passes(st.groups[t.sessions[id].group], Answers()[j])
      ensures Fails(s, id, cycle, from, failure)
    {
      hide FailedAs, Passes, ValidGroup, CommandPipeline.Blamed, CommandPipeline.State;
      SteadyThenFailed(s, t, State(), id, cycle, failure);
      LocalKeepsSession(s, t, id);
      BlameSince(s.sessions[id], t.sessions[id], cycle, from, mid, failure, |commands| > |s.commands|);
    }

    /** It failed after its backend was started. */
    lemma FailsStarted(s: State, id: Id, cycle: Cycle, from: nat, mid: nat, failure: Failure)
      requires id in s.sessions && Fails(BackendStarted(s, id), id, cycle, mid, failure)
      requires from <= mid <= |Answers()|
      requires s.sessions[id].group in st.groups && ValidGroup(st.groups[s.sessions[id].group])
      requires forall j | from <= j < mid :: Passes(st.groups[s.sessions[id].group], Answers()[j])
      ensures Fails(s, id, cycle, from, failure)
    {
      hide FailedAs, Passes, ValidGroup, CommandPipeline.Blamed, CommandPipeline.State;
      StartedThenFailed(s, State(), id, cycle, failure);
      BlameSince(s.sessions[id], s.sessions[id], cycle, from, mid, failure, |commands| > |s.commands|);
    }

    /** The turn stops at the answer at `k`, those before it let it go on. */
    lemma BlameAnswer(session: Session, cycle: Cycle, from: nat, k: nat, code: Code, stopped: bool)
      requires session.endpoint in endpoints && session.group in st.groups && ValidGroup(st.groups[session.group])
      requires from <= k < |Answers()| && StopsAt(st.groups[session.group], Answers()[k], code)
      requires forall j | from <= j < k :: Passes(st.groups[session.group], Answers()[j])
      requires stopped || SomeBad(st.groups[session.group], Answers(), k + 1)
      ensures Blamed(session, cycle, from, Refused(k, code), stopped)
    {
      hide Founded, StopsAt, Passes, ValidGroup, SomeBad;
      RefusalIsFounded(
        st, session, endpoints[session.endpoint].lease, cycle, At(cycle), Answers(), from, k, code, stopped);
    }

    /** What a later part of the turn fails for, the whole turn fails for. */
    lemma BlameSince(
      before: Session, session: Session, cycle: Cycle, from: nat, mid: nat, failure: Failure, stopped: bool)
      requires Blamed(session, cycle, mid, failure, stopped) && from <= mid <= |Answers()|
      requires Continues(before, session) && (before.started ==> session.started)
      requires session.group in st.groups && ValidGroup(st.groups[session.group])
      requires forall j | from <= j < mid :: Passes(st.groups[session.group], Answers()[j])
      ensures Blamed(before, cycle, from, failure, stopped)
    {
      hide Founded, Passes, ValidGroup;
      FoundedSince(
        st, before, session, endpoints[session.endpoint].lease, cycle, At(cycle), Answers(), from, mid, failure,
        stopped);
    }

    /**
      Bring the joints to rest at their measured positions through the final RTC; it is only the
      SDK's doing if there is no stop.
    */
    method ControlledStop(id: Id, selected: Feedback, ghost gap: Gap) returns (stop: Option<JointCommand>)
      requires ValidX(gap) && id in sessions
      modifies backend.sdk
      ensures stop.Some? ==> Strict(st, sessions[id], stop.value)
      ensures old(Answers()) <= Answers() && sessions[id].group in st.groups
      ensures ValidGroup(st.groups[sessions[id].group])
      ensures stop == None ==> SomeBad(st.groups[sessions[id].group], Answers(), |old(Answers())|)
      ensures stop.Some? ==>
        var n := |old(Answers())|;
        && |Answers()| == n + 2 && Answers()[n] == ToReset(sessions[id].group, OK) && Answers()[n + 1].ToShape?
        && Answers()[n + 1].code == OK && Answers()[n + 1].output == stop.value
        && var hold := Answers()[n + 1].asked;
           hold.positions == selected.positions && forall v | v in hold.velocities :: v == 0.0
    {
      hide InvX, Inv, GoalMonitor.Valid, SdkMotionBackend.Valid, ValidGroup, WithinLimits;
      ArbiterHolds(st, State(), gap);
      var session := sessions[id];
      var group := st.groups[session.group];
      ghost var from := |Answers()|;
      var reset := backend.ResetFinalJointTarget(session.group);
      if reset != OK {
        OneIsBad(group, Answers(), from, from);
        return None;
      }
      var rest := seq(|session.joints|, i => 0.0);
      var hold := JointCommand(session.group, session.joints, selected.positions, rest, rest, true, false, "", None, 0);
      var code, shaped := backend.UpdateFinalJointTarget(session.group, hold, Seconds(currentPeriod));
      if code == OK && shaped.passedRtc {
        var valid := ValidateFinalCommand(shaped, group, NoReference);
        if valid == OK {
          CheckedIsStrict(st, session, shaped);
          return Some(shaped);
        }
      }
      OneIsBad(group, Answers(), from, from + 1);
      return None;
    }

    /** Stamp the command with its session, deadline and token, and permit it once. */
    method AppendCommand(id: Id, command: JointCommand, cycle: Cycle, ghost source: Source)
      requires id in sessions && sessions[id].endpoint in endpoints
      modifies this`permits, this`nextToken, this`commands, this`issued
      ensures State() == Append(old(State()), IssueFor(
        st.config, sessions[id], endpoints[sessions[id].endpoint].lease, command, old(nextToken),
        cycle.feedback.receivedAt, cycle.startedAt, source))
      ensures |commands| > |old(commands)|
      ensures Stamped(st.config, sessions[id], LeaseOf(sessions[id]), cycle, commands[|old(commands)|])
    {
      hide DeadlineOf, IssueFor, CommandPipeline.State;
      Shown();
      var session := sessions[id];
      var lease := endpoints[session.endpoint].lease;
      ghost var issue := IssueFor(
        st.config, session, lease, command, nextToken, cycle.feedback.receivedAt, cycle.startedAt, source);
      var until := DeadlineOf(st.config, session, lease, cycle.feedback.receivedAt, cycle.startedAt);
      var stamped := command.(session := session.id, validUntil := Some(until), token := nextToken);
      IssuedCommand(st.config, session, lease, command, nextToken, cycle, source);
      ReturnCommand(stamped, issue);
      GrantPermits(stamped.joints, stamped.session);
    }

    method ReturnCommand(command: JointCommand, ghost issue: Issue)
      modifies this`commands, this`issued
      ensures commands == old(commands) + [command]
      ensures var s := old(State());
              State() == s.(commands := s.commands + [command], issued := s.issued[s.nextToken := issue])
    {
      commands := commands + [command];
      issued := issued[nextToken := issue];
    }

    /** The next token goes to each joint. */
    method GrantPermits(joints: seq<Joint>, session: Id)
      modifies this`permits, this`nextToken
      ensures var s := old(State());
              State() == s.(
                permits := s.permits + Each(joints, Permit(session, s.nextToken)),
                nextToken := s.nextToken + 1)
    {
      permits := permits + Each(joints, Permit(session, nextToken));
      nextToken := nextToken + 1;
    }

    method AppendStopCommand(id: Id, command: JointCommand, cycle: Cycle, ghost gap: Gap)
      requires ValidX(gap) && id in sessions && Strict(st, sessions[id], command)
      modifies this`permits, this`nextToken, this`commands, this`issued
      ensures ValidX(gap) && Evolves(old(State()), State())
      ensures Local(old(State()), State(), id) && Stopped(old(State()), State(), id, cycle)
      ensures |commands| > |old(commands)|
    {
      hide InvX, Inv, ValidStatic, GoalMonitor.Valid, SdkMotionBackend.Valid, Evolves, Strict, Local, Stopped, Append;
      ArbiterHolds(st, State(), gap);
      ghost var lease := endpoints[sessions[id].endpoint].lease;
      AppendStop(st, State(), gap, id, lease, command, cycle);
      AppendCommand(id, command, cycle, Source.Stop);
    }

    /** A computation that ran past the session's deadline ends it. */
    method CheckTime(id: Id, cycle: Cycle, ghost gap: Gap) returns (ok: bool)
      requires ValidX(gap) && id in sessions && id !in gap.entering
      modifies this`permits, this`active, this`pending, this`sessions, this`outputs, this`via, this`successes,
        arbiter, monitor, backend, clock
      ensures ok ==> ValidX(gap) && State() == old(State())
      ensures !ok ==> ValidX(gap.Without(id)) && State() == Terminate(old(State()), id, ABORTED, TIMEOUT, false)
      ensures Evolves(old(State()), State()) && clock.now >= old(clock.now)
      ensures !ok <==> PastDeadline(old(sessions[id]), cycle, At(cycle))
      ensures !ok ==> forall from: nat, stopped :: Blamed(old(sessions[id]), cycle, from, Late, stopped)
    {
      hide InvX, Inv, ValidStatic, GoalMonitor.Valid, SdkMotionBackend.Valid, Evolves, Terminate, DeadlineOf, Founded,
        CommandPipeline.Blamed;
      EvolvesReflexive(State());
      ArbiterHolds(st, State(), gap);
      HeldSession(id, gap);
      var session := sessions[id];
      var at := CurrentTime(cycle);
      var lease := endpoints[session.endpoint].lease;
      if at >= DeadlineOf(st.config, session, lease, cycle.feedback.receivedAt, cycle.startedAt) {
        TerminateSession(id, ABORTED, TIMEOUT, false, gap);
        LateIsBlamed(session, cycle);
        return false;
      }
      return true;
    }

    lemma LateIsBlamed(session: Session, cycle: Cycle)
      requires PastDeadline(session, cycle, At(cycle))
      requires session.group in st.groups && ValidGroup(st.groups[session.group])
      ensures forall from: nat, stopped :: Blamed(session, cycle, from, Late, stopped)
    {
      hide DeadlineOf, Founded, ValidGroup;
      forall from: nat, stopped ensures Blamed(session, cycle, from, Late, stopped) {
        LateIsFounded(st, session, endpoints[session.endpoint].lease, cycle, At(cycle), Answers(), from);
      }
    }

    ghost predicate PastDeadline(session: Session, cycle: Cycle, at: Time)
      reads this`endpoints
    {
      && session.endpoint in endpoints
      && at >=
         DeadlineOf(st.config, session, endpoints[session.endpoint].lease, cycle.feedback.receivedAt, cycle.startedAt)
    }

    /** A failed session stops and ends, keeping the stop command; a failed Servo may be retried after a while. */
    method StopAndAbort(id: Id, selected: Feedback, code: Code, retry: bool, cycle: Cycle, ghost gap: Gap)
      requires ValidX(gap) && id in sessions && id !in gap.entering
      modifies this`permits, this`active, this`pending, this`sessions, this`outputs, this`via, this`successes,
        this`nextToken, this`commands, this`issued, this`retryAfter, arbiter, monitor, backend, backend.sdk, clock
      ensures ValidX(gap.Without(id)) && Evolves(old(State()), State()) && Aborted(old(State()), State(), id, cycle)
      ensures clock.now >= old(clock.now) && backend.starts == old(backend.starts)
      ensures RetrySet(
        old(sessions[id]), retry, old(retryAfter),
        old(At(cycle)) + st.config.servoRetry, At(cycle) + st.config.servoRetry)
      ensures EndedAs(old(State()), State(), id, ABORTED, code)
      ensures old(Answers()) <= Answers() && old(sessions[id]).group in st.groups
      ensures ValidGroup(st.groups[old(sessions[id]).group])
      ensures |commands| > |old(commands)| || SomeBad(st.groups[old(sessions[id]).group], Answers(), |old(Answers())|)
    {
      hide InvX, Evolves, Terminate, Aborted, EndedAs, CommandPipeline.State, CommandPipeline.ValidX, SomeBad,
        CommandPipeline.RetrySet;
      ghost var s := State();
      Shown();
      ReturnStop(id, selected, code, cycle, gap);
      ghost var stopped := State();
      Shown();
      TerminateEnds(stopped, id, ABORTED, code, true);
      EndRetried(id, code, retry, cycle, gap);
      EndedThrough(s, stopped, State(), id, code);
      EvolvesTransitive(s, stopped, State());
    }

    /** The turn stops at the last answer: the session stops and ends for it. */
    method StopHere(id: Id, selected: Feedback, code: Code, cycle: Cycle, ghost gap: Gap, ghost from: nat)
      returns (ghost failure: Failure)
      requires ValidX(gap) && id in sessions && id !in gap.entering && from < |Answers()|
      requires sessions[id].group in st.groups && ValidGroup(st.groups[sessions[id].group])
      requires StopsAt(st.groups[sessions[id].group], Answers()[|Answers()| - 1], code)
      requires forall j | from <= j < |Answers()| - 1 :: Passes(st.groups[sessions[id].group], Answers()[j])
      modifies this`permits, this`active, this`pending, this`sessions, this`outputs, this`via, this`successes,
        this`nextToken, this`commands, this`issued, this`retryAfter, arbiter, monitor, backend, backend.sdk, clock
      ensures ValidX(gap.Without(id)) && Evolves(old(State()), State()) && clock.now >= old(clock.now)
      ensures Fails(old(State()), id, cycle, from, failure) && old(Answers()) <= Answers()
      ensures Retries(old(sessions[id]), cycle, failure, old(retryAfter), old(At(cycle)))
      ensures backend.starts == old(backend.starts)
    {
      hide InvX, Evolves, Aborted, EndedAs, FailedAs, ValidGroup, SomeBad, Passes, StopsAt, CommandPipeline.ValidX,
        CommandPipeline.State, CommandPipeline.RetrySet, CommandPipeline.Retries, CommandPipeline.Fails;
      ghost var s, k := State(), |Answers()| - 1;
      Shown();
      HeldSession(id, gap);
      StopAndAbort(id, selected, code, true, cycle, gap);
      FailsAt(s, id, cycle, from, k, code);
      failure := Refused(k, code);
      RetriesAfter(s.sessions[id], cycle, k, code, old(retryAfter), old(At(cycle)));
    }

    lemma RetriesAfter(session: Session, cycle: Cycle, k: nat, code: Code, before: map<string, Time>, since: Time)
      requires RetrySet(session, true, before, since + st.config.servoRetry, At(cycle) + st.config.servoRetry)
      ensures Retries(session, cycle, Refused(k, code), before, since)
    {
    }

    lemma RetriesEarlier(
      session: Session, cycle: Cycle, failure: Failure, before: map<string, Time>, since: Time, later: Time)
      requires Retries(session, cycle, failure, before, later) && since <= later
      ensures Retries(session, cycle, failure, before, since)
    {
    }

    lemma RetriesUnchanged(session: Session, cycle: Cycle, failure: Failure, since: Time)
      requires !failure.Refused?
      ensures Retries(session, cycle, failure, retryAfter, since)
    {
    }

    /** End the session, keeping its stop command; a Servo may be told to wait before it is retried. */
    method EndRetried(id: Id, code: Code, retry: bool, cycle: Cycle, ghost gap: Gap)
      requires ValidX(gap) && id in sessions && id !in gap.entering
      modifies this`permits, this`active, this`pending, this`sessions, this`outputs, this`via, this`successes,
        this`retryAfter, arbiter, monitor, backend, clock
      ensures ValidX(gap.Without(id)) && Evolves(old(State()), State())
      ensures State() == Terminate(old(State()), id, ABORTED, code, true)
      ensures clock.now >= old(clock.now) && backend.starts == old(backend.starts)
      ensures RetrySet(
        old(sessions[id]), retry, old(retryAfter),
        old(At(cycle)) + st.config.servoRetry, At(cycle) + st.config.servoRetry)
    {
      hide InvX, Evolves, Terminate, CommandPipeline.State, CommandPipeline.ValidX, CommandPipeline.RetrySet;
      Shown();
      RetryLater(id, retry, cycle);
      TerminateFrame(State(), id, ABORTED, code, true);
      TerminateSession(id, ABORTED, code, true, gap);
      Shown();
    }

    /** Only a failed Servo that may be retried is told to wait, until a time between these. */
    ghost predicate RetrySet(session: Session, retry: bool, before: map<string, Time>, earliest: Time, latest: Time)
      reads this`retryAfter
    {
      if retry && session.request.kind.IsServo()
      then session.endpoint in retryAfter && earliest <= retryAfter[session.endpoint] <= latest
           && retryAfter == before[session.endpoint := retryAfter[session.endpoint]]
      else retryAfter == before
    }

    /** Only a Servo stopped at an answer waits before it is tried again, from the failure on and no longer. */
    ghost predicate Retries(session: Session, cycle: Cycle, failure: Failure, before: map<string, Time>, since: Time)
      reads this`retryAfter, clock
    {
      if failure.Refused? && (session.request.kind == ServoJ || session.request.kind == ServoP) then
        && session.endpoint in retryAfter && retryAfter == before[session.endpoint := retryAfter[session.endpoint]]
        && since + st.config.servoRetry <= retryAfter[session.endpoint] <= At(cycle) + st.config.servoRetry
      else retryAfter == before
    }

    /** The stop command, if the final RTC gave one. */
    method ReturnStop(id: Id, selected: Feedback, ghost code: Code, cycle: Cycle, ghost gap: Gap)
      requires ValidX(gap) && id in sessions && id !in gap.entering
      modifies this`permits, this`nextToken, this`commands, this`issued, backend.sdk
      ensures ValidX(gap) && Evolves(old(State()), State())
      ensures Aborted(old(State()), Terminate(State(), id, ABORTED, code, true), id, cycle)
      ensures old(Answers()) <= Answers() && sessions[id].group in st.groups
      ensures ValidGroup(st.groups[sessions[id].group])
      ensures |commands| > |old(commands)| || SomeBad(st.groups[sessions[id].group], Answers(), |old(Answers())|)
    {
      hide InvX, Inv, Evolves, Strict, Local, Terminate, Aborted, Stopped, CommandPipeline.State,
        CommandPipeline.ValidX;
      ghost var s := State();
      Shown();
      EvolvesReflexive(s);
      EndAborts(s, id, code, true, cycle);
      var stop := ControlledStop(id, selected, gap);
      if stop.Some? {
        AppendStopCommand(id, stop.value, cycle, gap);
        Shown();
        StopAborts(s, State(), id, code, cycle);
      }
    }

    /** A failed Servo that may be retried is not started again before the retry interval has passed. */
    method RetryLater(id: Id, retry: bool, cycle: Cycle)
      requires id in sessions
      modifies this`retryAfter, clock
      ensures clock.now >= old(clock.now)
      ensures RetrySet(
        sessions[id], retry, old(retryAfter), old(At(cycle)) + st.config.servoRetry,
        At(cycle) + st.config.servoRetry)
    {
      if retry && sessions[id].request.kind.IsServo() {
        var at := CurrentTime(cycle);
        retryAfter := retryAfter[sessions[id].endpoint := at + st.config.servoRetry];
      }
    }

    static ghost predicate BeyondLimits(selected: Feedback, group: Group)
      requires ValidGroup(group) && |selected.positions| == |group.joints|
    {
      exists i | 0 <= i < |group.joints| ::
        selected.positions[i] < group.lower[i] || selected.positions[i] > group.upper[i]
    }

    /** Measured positions beyond the model limits begin a limit recovery. */
    static method NeedsRecovery(selected: Feedback, group: Group) returns (recovering: bool)
      requires ValidGroup(group) && |selected.positions| == |group.joints|
      ensures recovering <==> BeyondLimits(selected, group)
    {
      recovering := false;
      for i := 0 to |group.joints|
        invariant recovering <==> exists k | 0 <= k < i ::
          selected.positions[k] < group.lower[k] || selected.positions[k] > group.upper[k]
      {
        recovering := recovering || selected.positions[i] < group.lower[i] || selected.positions[i] > group.upper[i];
      }
    }

    method AskBackend(id: Id) returns (code: Code)
      requires Valid() && id in sessions && !sessions[id].started
      modifies backend, backend.sdk
      ensures Evolves(old(State()), State())
      ensures code == OK ==> ValidX(Gap({}, {}, {id})) && State() == BackendStarted(old(State()), id)
      ensures code != OK ==> Valid() && State() == old(State())
      ensures Answers() == old(Answers()) + [ToStart(id, code)]
    {
      hide InvX, Inv, ValidStatic, GoalMonitor.Valid, SdkMotionBackend.Valid, Evolves;
      var session := sessions[id];
      NotRunning(id);
      BackendStartedKeeps(st, State(), id);
      EvolvesReflexive(State());
      code := backend.StartSession(
        id, session.request.kind, session.request.waypoints, Seconds(currentPeriod), session.serial, session.group);
    }

    lemma NotRunning(id: Id)
      requires Valid() && id in sessions && !sessions[id].started
      ensures id != "" && id !in backend.sessions
    {
      hide InvX, ValidStatic;
      ArbiterHolds(st, State(), CLOSED);
      assert SessionOk(endpoints, st.groups, id, sessions[id]);
      assert backend.current.Keys == backend.sessions.Keys;
    }

    /** Ask the backend to start; on failure the session ends. */
    method StartBackend(id: Id, selected: Feedback, cycle: Cycle) returns (alive: bool, ghost failure: Failure)
      requires Valid() && id in sessions && !sessions[id].started
      modifies this`permits, this`active, this`pending, this`sessions, this`outputs, this`via, this`successes,
        this`nextToken, this`commands, this`issued, this`retryAfter, arbiter, monitor, backend, backend.sdk, clock
      ensures Evolves(old(State()), State()) && clock.now >= old(clock.now)
      ensures alive ==> ValidX(Gap({}, {}, {id})) && State() == BackendStarted(old(State()), id)
      ensures alive ==> Answers() == old(Answers()) + [ToStart(id, OK)]
      ensures !alive ==> Valid() && Fails(old(State()), id, cycle, |old(Answers())|, failure)
      ensures old(Answers()) <= Answers()
      ensures if alive then retryAfter == old(retryAfter)
              else Retries(old(sessions[id]), cycle, failure, old(retryAfter), old(At(cycle)))
    {
      hide InvX, Inv, Evolves, Terminate, Aborted, CommandPipeline.ValidX, CommandPipeline.State,
        CommandPipeline.Fails;
      ghost var s := State();
      Shown();
      var code := AskBackend(id);
      ghost var gap := if code == OK then Gap({}, {}, {id}) else CLOSED;
      assert gap.Without(id) == CLOSED;
      alive, failure := FinishStart(id, selected, code, cycle, gap, s);
    }

    method FinishStart(id: Id, selected: Feedback, code: Code, cycle: Cycle, ghost gap: Gap, ghost s: State)
      returns (alive: bool, ghost failure: Failure)
      requires ValidX(gap) && id in sessions && gap == if code == OK then Gap({}, {}, {id}) else CLOSED
      requires id in s.sessions && State() == if code == OK then BackendStarted(s, id) else s
      requires Evolves(s, State()) && gap.Without(id) == CLOSED
      requires |Answers()| > 0 && Answers()[|Answers()| - 1] == ToStart(id, code)
      modifies this`permits, this`active, this`pending, this`sessions, this`outputs, this`via, this`successes,
        this`nextToken, this`commands, this`issued, this`retryAfter, arbiter, monitor, backend, backend.sdk, clock
      ensures Evolves(s, State()) && clock.now >= old(clock.now)
      ensures alive ==> ValidX(Gap({}, {}, {id})) && State() == BackendStarted(s, id) && Answers() == old(Answers())
      ensures !alive ==> Valid() && Fails(s, id, cycle, |old(Answers())| - 1, failure)
      ensures old(Answers()) <= Answers() && (alive ==> code == OK)
      ensures if alive then retryAfter == old(retryAfter)
              else Retries(old(sessions[id]), cycle, failure, old(retryAfter), old(At(cycle)))
    {
      hide InvX, Inv, Evolves, Terminate, FailedAs, CommandPipeline.ValidX, CommandPipeline.State,
        CommandPipeline.Blamed, CommandPipeline.Retries, CommandPipeline.Fails, CommandPipeline.PastDeadline,
        ValidGroup;
      ghost var asked, from := State(), |Answers()| - 1;
      Shown();
      HeldSession(id, gap);
      EndFails(asked, id, Failure.Late, false, cycle);
      failure := Failure.Late;
      alive := CheckTime(id, cycle, gap);
      Shown();
      if !alive {
        FailsLate(asked, id, cycle, from);
        RetriesUnchanged(asked.sessions[id], cycle, failure, old(At(cycle)));
      } else if code == OK {
        return;
      } else {
        ghost var later := At(cycle);
        failure := StopHere(id, selected, code, cycle, CLOSED, from);
        RetriesEarlier(asked.sessions[id], cycle, failure, old(retryAfter), old(At(cycle)), later);
      }
      alive := false;
      EvolvesTransitive(s, asked, State());
      if code == OK { FailsStarted(s, id, cycle, from, from, failure); }
    }

    /** A session's endpoint and group. */
    lemma HeldSession(id: Id, gap: Gap)
      requires ValidX(gap) && id in sessions
      ensures sessions[id].endpoint in endpoints && sessions[id].group in st.groups
      ensures ValidGroup(st.groups[sessions[id].group]) && id != "" && sessions[id].id == id
    {
      hide InvX, ValidGroup;
      ArbiterHolds(st, State(), gap);
      assert SessionOk(endpoints, st.groups, id, sessions[id]);
    }

    /** A limit recovery is on exactly if a measured joint is beyond its limits. */
    ghost predicate RecoversFrom(session: Session, selected: Feedback, recovering: bool) {
      && session.group in st.groups && ValidGroup(st.groups[session.group])
      && |selected.positions| == |st.groups[session.group].joints|
      && (recovering <==> BeyondLimits(selected, st.groups[session.group]))
    }

    /** The session rests at its measured joints. */
    ghost predicate Resting(id: Id, selected: Feedback)
      reads this`sessions, this`outputs
    {
      && id in sessions && sessions[id].started && sessions[id].last == Seeded(selected)
      && sessions[id].last.positions == selected.positions && sessions[id].last.velocities == selected.velocities
      && id in outputs && outputs[id] == [selected.positions]
      && RecoversFrom(sessions[id], selected, sessions[id].recovering)
    }

    /** Count the started session as active, resting at its measured joints; a MoveJ is watched from here on. */
    method ActivateSession(id: Id, selected: Feedback, cycle: Cycle, ghost s: State) returns (alive: bool)
      requires ValidX(Gap({}, {}, {id})) && id in s.sessions && State() == BackendStarted(s, id)
      requires Usable(st, s.sessions[id], selected) && Apart(s, id)
      modifies this`permits, this`active, this`pending, this`sessions, this`outputs, this`via, this`successes,
        this`delivered, this`events, arbiter, monitor, backend
      ensures Valid() && Evolves(old(State()), State()) && backend.starts == old(backend.starts)
      ensures if alive then Steady(s, State(), id) else FailedAs(s, State(), id, cycle, Unwatchable)
      ensures !alive ==> s.sessions[id].request.kind == MoveJ && !WatchableGoal(s.sessions[id].request.goal)
      ensures alive ==> Resting(id, selected) && GoalKnown(s, State(), id)
    {
      hide InvX, Inv, Evolves, Usable, Apart, Steady, FailedAs, GoalKnown, BeyondLimits, ValidGroup,
        CommandPipeline.State, CommandPipeline.ValidX, CommandPipeline.Resting;
      Shown();
      GroupOf(st, s.sessions[id], selected);
      var recovering := NeedsRecovery(selected, st.groups[sessions[id].group]);
      if sessions[id].request.kind == MoveJ {
        alive := ActivateJoints(id, selected, recovering, cycle, s);
      } else {
        ActivateOther(id, selected, recovering, s);
        alive := true;
      }
    }

    method ActivateOther(id: Id, selected: Feedback, recovering: bool, ghost s: State)
      requires ValidX(Gap({}, {}, {id})) && id in s.sessions && State() == BackendStarted(s, id)
      requires Usable(st, s.sessions[id], selected) && Apart(s, id)
      requires RecoversFrom(s.sessions[id], selected, recovering) && s.sessions[id].request.kind != MoveJ
      modifies this`sessions, this`active, this`outputs, this`delivered, this`events
      ensures Valid() && Evolves(old(State()), State()) && Steady(s, State(), id)
      ensures Resting(id, selected) && GoalKnown(s, State(), id)
    {
      hide InvX, Inv, ValidStatic, GoalMonitor.Valid, SdkMotionBackend.Valid, Evolves, Usable, Steady, GoalKnown,
        BeyondLimits, ValidGroup, LastOk, SessionOutputs;
      ghost var x := State();
      BeforeActive(st, s, x, id, selected);
      hide Apart;
      ActivateKeeps(st, x, id, Seeded(selected), recovering);
      ActivateLocal(s, Activate(x, id, Seeded(selected), recovering), id, Seeded(selected), recovering);
      EnterActive(id, Seeded(selected), recovering);
      KnownAsBefore(st, s, x, State(), Gap({}, {}, {id}), id);
    }

    /** A MoveJ whose goal the monitor refuses ends at once. */
    method ActivateJoints(id: Id, selected: Feedback, recovering: bool, cycle: Cycle, ghost s: State)
      returns (alive: bool)
      requires ValidX(Gap({}, {}, {id})) && id in s.sessions && State() == BackendStarted(s, id)
      requires Usable(st, s.sessions[id], selected) && Apart(s, id)
      requires RecoversFrom(s.sessions[id], selected, recovering) && s.sessions[id].request.kind == MoveJ
      modifies this`permits, this`active, this`pending, this`sessions, this`outputs, this`via, this`successes,
        this`delivered, this`events, arbiter, monitor, backend
      ensures Valid() && Evolves(old(State()), State()) && backend.starts == old(backend.starts)
      ensures if alive then Steady(s, State(), id) else FailedAs(s, State(), id, cycle, Unwatchable)
      ensures !alive ==> !WatchableGoal(s.sessions[id].request.goal)
      ensures alive ==> Resting(id, selected) && GoalKnown(s, State(), id)
    {
      hide InvX, Inv, ValidStatic, GoalMonitor.Valid, SdkMotionBackend.Valid, Evolves, Usable, Steady, Aborted,
        EndedAs, WatchableGoal,
        GoalKnown, BeyondLimits, ValidGroup, LastOk, SessionOutputs, Terminate, Activate, CommandPipeline.State;
      ghost var x := State();
      Shown();
      BeforeActive(st, s, x, id, selected);
      hide Apart;
      ArbiterHolds(st, x, Gap({}, {}, {id}));
      HeldSession(id, Gap({}, {}, {id}));
      ActivateWatched(st, x, id, Seeded(selected), recovering, JointGoal(sessions[id]));
      ActivateAborted(st, x, id, Seeded(selected), recovering, INVALID_ARGUMENT, cycle);
      alive := EnterJoints(id, Seeded(selected), recovering);
      Shown();
      if alive {
        JointsEntered(s, x, State(), id, Seeded(selected), recovering);
      } else {
        StartedThenFailed(s, State(), id, cycle, Unwatchable);
      }
    }

    /** Count the session as active and let the monitor begin its goal, or else drop it with its permits. */
    method EnterJoints(id: Id, last: JointTarget, recovering: bool) returns (entered: bool)
      requires id in sessions && Sound() && id != ""
      modifies this`permits, this`active, this`pending, this`sessions, this`outputs, this`via, this`successes,
        this`delivered, this`events, arbiter, monitor, backend
      ensures Sound() && (entered <==> WatchableGoal(old(sessions[id]).request.goal))
      ensures State() ==
        var active := Activate(old(State()), id, last, recovering);
        if entered then PipelineModel.Watch(active, id, JointGoal(old(sessions[id])), [])
        else Terminate(active, id, ABORTED, INVALID_ARGUMENT, false)
    {
      hide Terminate, Activate, WatchableGoal, CommandPipeline.Sound, CommandPipeline.State;
      Shown();
      ActivateShows(State(), id, last, recovering);
      EnterActive(id, last, recovering);
      Shown();
      var code := BeginJoints(id);
      Shown();
      if code != OK { Discard(id, ABORTED, code); }
      entered := code == OK;
    }

    method BeginJoints(id: Id) returns (code: Code)
      requires id in sessions && Sound() && id != ""
      modifies monitor
      ensures Sound() && (code == OK || code == INVALID_ARGUMENT)
      ensures code == OK <==> WatchableGoal(sessions[id].request.goal)
      ensures State() ==
        if code == OK then PipelineModel.Watch(old(State()), id, JointGoal(sessions[id]), []) else old(State())
    {
      hide ValidStatic, ControlArbiter.Valid, GoalMonitor.Valid, SdkMotionBackend.Valid;
      var goal := sessions[id].request.goal;
      code := monitor.Begin(id, goal.joints, goal.positions, true, None, sessions[id].submittedAt);
    }

    /** End a session together with its permits. */
    method Discard(id: Id, state: SessionState, code: Code)
      requires id in sessions && Sound()
      modifies this`permits, this`active, this`pending, this`sessions, this`outputs, this`via, this`successes,
        arbiter, monitor, backend
      ensures Sound() && State() == Terminate(old(State()), id, state, code, false)
    {
      hide Terminate, WithoutSession, CommandPipeline.Sound, CommandPipeline.State;
      Shown();
      TerminateParts(State(), id, state, code, false);
      DropPermits(id);
      DropSession(id, state, code);
    }

    method EnterActive(id: Id, last: JointTarget, recovering: bool)
      requires id in sessions && Sound()
      modifies this`sessions, this`active, this`outputs, this`delivered, this`events
      ensures Sound() && State() == Activate(old(State()), id, last, recovering)
    {
      hide CommandPipeline.Sound, CommandPipeline.State;
      Shown();
      MarkActive(id, last, recovering);
      Shown();
      Announce(Event(id, SessionState.RUNNING, OK, sessions[id].serial));
    }

    method MarkActive(id: Id, last: JointTarget, recovering: bool)
      requires id in sessions
      modifies this`sessions, this`active, this`outputs
      ensures var s := old(State());
              id in s.sessions && State() == s.(
                sessions := s.sessions[id := s.sessions[id].(started := true, last := last, recovering := recovering)],
                active := s.active + {id}, outputs := s.outputs[id := [last.positions]])
    {
      sessions := sessions[id := sessions[id].(started := true, last := last, recovering := recovering)];
      active := active + {id};
      outputs := outputs[id := [last.positions]];
    }

    /** Events of running sessions are handed over at once. */
    method Announce(event: Event)
      requires Sound()
      modifies this`delivered, this`events
      ensures Sound() && State() == old(State()).(delivered := old(State()).delivered + [event])
      ensures delivered == old(delivered) + [event]
    {
      hide ValidStatic, ControlArbiter.Valid, GoalMonitor.Valid, SdkMotionBackend.Valid;
      delivered := delivered + [event];
      events := events + [event];
    }

    method ResetAndActivate(id: Id, selected: Feedback, cycle: Cycle, ghost s: State)
      returns (alive: bool, ghost failure: Failure)
      requires ValidX(Gap({}, {}, {id})) && id in s.sessions && State() == BackendStarted(s, id)
      requires Usable(st, s.sessions[id], selected) && Apart(s, id) && |Answers()| > 0
      requires Answers()[|Answers()| - 1] == ToStart(id, OK)
      modifies this`permits, this`active, this`pending, this`sessions, this`outputs, this`via, this`successes,
        this`nextToken, this`commands, this`issued, this`retryAfter, this`delivered, this`events, arbiter, monitor,
        backend, backend.sdk, clock
      ensures Valid() && Evolves(old(State()), State()) && clock.now >= old(clock.now)
      ensures alive ==> Steady(s, State(), id) && Answers() == old(Answers()) + [ToReset(s.sessions[id].group, OK)]
      ensures !alive ==> Fails(s, id, cycle, |old(Answers())| - 1, failure)
      ensures alive ==> Resting(id, selected) && GoalKnown(s, State(), id) && backend.starts == old(backend.starts)
      ensures old(Answers()) <= Answers()
      ensures if alive then retryAfter == old(retryAfter)
              else Retries(old(sessions[id]), cycle, failure, old(retryAfter), old(At(cycle)))
    {
      hide InvX, Inv, Evolves, Terminate, FailedAs, Steady, Usable, Apart, GoalKnown, WatchableGoal, ValidGroup,
        CommandPipeline.ValidX, CommandPipeline.State, CommandPipeline.Resting, CommandPipeline.Retries,
        CommandPipeline.Blamed, CommandPipeline.Fails, CommandPipeline.PastDeadline;
      ghost var started, from := State(), |Answers()| - 1;
      Shown();
      HeldSession(id, Gap({}, {}, {id}));
      StartingIsInactive(id);
      EndFails(started, id, Failure.Late, false, cycle);
      assert Gap({}, {}, {id}).Without(id) == CLOSED;
      failure := Failure.Late;
      var reset := backend.ResetFinalJointTarget(sessions[id].group);
      alive := CheckTime(id, cycle, Gap({}, {}, {id}));
      Shown();
      ghost var later := At(cycle);
      if !alive {
        FailsLate(started, id, cycle, from);
        RetriesUnchanged(s.sessions[id], cycle, failure, old(At(cycle)));
      } else if reset == OK {
        alive := ActivateSession(id, selected, cycle, s);
        if alive { return; }
        failure := Unwatchable;
        FailsUnwatchable(s, id, cycle, from);
        RetriesUnchanged(s.sessions[id], cycle, failure, old(At(cycle)));
        return;
      } else {
        failure := StopHere(id, selected, reset, cycle, Gap({}, {}, {id}), from);
        RetriesEarlier(s.sessions[id], cycle, failure, old(retryAfter), old(At(cycle)), later);
        alive := false;
      }
      FailsStarted(s, id, cycle, from, from, failure);
    }

    lemma StartingIsInactive(id: Id)
      requires ValidX(Gap({}, {}, {id})) && id in sessions
      ensures !sessions[id].started
    {
      hide Agree, StartsOk, RequestsOk, ActiveDisjoint, WatchOk, PermitsOk, LogOk, FreshLog, EventsOk, SuccessListed,
        SuccessesOk, RecoveryOk, IssuedOk, TrailsOk, OnlyPermitted, ValidStatic, GoalMonitor.Valid,
        SdkMotionBackend.Valid, ControlArbiter.Valid;
      assert id in Gap({}, {}, {id}).starting;
    }

    lemma FailsLate(s: State, id: Id, cycle: Cycle, from: nat)
      requires id in s.sessions && FailedAs(s, State(), id, cycle, Failure.Late)
      requires Blamed(s.sessions[id], cycle, from, Failure.Late, |commands| > |s.commands|)
      ensures Fails(s, id, cycle, from, Failure.Late)
    {
      hide FailedAs, CommandPipeline.Blamed, CommandPipeline.State;
    }

    /** The monitor does not take the goal of a MoveJ that was only now started. */
    lemma FailsUnwatchable(s: State, id: Id, cycle: Cycle, from: nat)
      requires id in s.sessions && FailedAs(s, State(), id, cycle, Unwatchable)
      requires s.sessions[id].endpoint in endpoints && !s.sessions[id].started
      requires s.sessions[id].group in st.groups && ValidGroup(st.groups[s.sessions[id].group])
      requires s.sessions[id].request.kind == MoveJ && !WatchableGoal(s.sessions[id].request.goal)
      ensures Fails(s, id, cycle, from, Unwatchable)
    {
      hide FailedAs, ValidGroup, WatchableGoal, CommandPipeline.State;
    }

    method StartAnew(id: Id, selected: Feedback, cycle: Cycle) returns (alive: bool, ghost failure: Failure)
      requires Valid() && id in sessions && !sessions[id].started && Usable(st, sessions[id], selected)
      requires Apart(State(), id)
      modifies this`permits, this`active, this`pending, this`sessions, this`outputs, this`via, this`successes,
        this`nextToken, this`commands, this`issued, this`retryAfter, this`delivered, this`events, arbiter, monitor,
        backend, backend.sdk, clock
      ensures Valid() && Evolves(old(State()), State()) && clock.now >= old(clock.now)
      ensures alive ==> Steady(old(State()), State(), id)
      ensures !alive ==> Fails(old(State()), id, cycle, |old(Answers())|, failure)
      ensures alive ==> Resting(id, selected) && GoalKnown(old(State()), State(), id)
      ensures alive ==> backend.starts == old(backend.starts) + [StartOf(old(sessions[id]))]
      ensures old(Answers()) <= Answers()
      ensures alive ==> Answers() == old(Answers()) + [ToStart(id, OK), ToReset(old(sessions[id]).group, OK)]
      ensures if alive then retryAfter == old(retryAfter)
              else Retries(old(sessions[id]), cycle, failure, old(retryAfter), old(At(cycle)))
    {
      hide InvX, Inv, Evolves, Terminate, Steady, Usable, Apart, StartOf, GoalKnown, CommandPipeline.State,
        CommandPipeline.ValidX, CommandPipeline.Resting, CommandPipeline.Fails, CommandPipeline.Retries;
      ghost var s := State();
      Shown();
      alive, failure := StartBackend(id, selected, cycle);
      if !alive { return; }
      Shown();
      ghost var started, later := State(), At(cycle);
      alive, failure := ResetAndActivate(id, selected, cycle, s);
      if !alive { RetriesEarlier(s.sessions[id], cycle, failure, old(retryAfter), old(At(cycle)), later); }
      EvolvesTransitive(s, started, State());
    }

    /** Start the backend of a winner that is not running yet. */
    method EnsureStarted(id: Id, selected: Feedback, cycle: Cycle) returns (alive: bool, ghost failure: Failure)
      requires Valid() && id in sessions && Usable(st, sessions[id], selected) && Apart(State(), id)
      modifies this`permits, this`active, this`pending, this`sessions, this`outputs, this`via, this`successes,
        this`nextToken, this`commands, this`issued, this`retryAfter, this`delivered, this`events, arbiter, monitor,
        backend, backend.sdk, clock
      ensures Valid() && Evolves(old(State()), State()) && clock.now >= old(clock.now)
      ensures alive ==> Steady(old(State()), State(), id) && GoalKnown(old(State()), State(), id)
      ensures !alive ==> Fails(old(State()), id, cycle, |old(Answers())|, failure)
      ensures alive ==>
        if old(sessions[id]).started then State() == old(State())
        else Resting(id, selected) && backend.starts == old(backend.starts) + [StartOf(old(sessions[id]))]
      ensures old(Answers()) <= Answers()
      ensures alive ==>
        var asked := if old(sessions[id]).started then [] else [ToStart(id, OK), ToReset(old(sessions[id]).group, OK)];
        Answers() == old(Answers()) + asked
      ensures if alive then retryAfter == old(retryAfter)
              else Retries(old(sessions[id]), cycle, failure, old(retryAfter), old(At(cycle)))
    {
      hide InvX, Inv, Evolves, Terminate, Steady, Usable, Apart, StartOf, GoalKnown, CommandPipeline.State,
        CommandPipeline.Resting, CommandPipeline.Fails;
      Shown();
      EvolvesReflexive(State());
      failure := Failure.Late;
      if sessions[id].started {
        AlreadySteady(st, State(), id);
        KnownAsBefore(st, State(), State(), State(), CLOSED, id);
        return true, failure;
      }
      alive, failure := StartAnew(id, selected, cycle);
    }

    lemma RunningSteady(id: Id)
      requires Valid() && id in active
      ensures Steady(State(), State(), id)
    {
      hide InvX, Steady;
      RunningGroup(id);
      ArbiterHolds(st, State(), CLOSED);
      AlreadySteady(st, State(), id);
    }

    /**
      The backend's candidate for this tick; it must obey the model limits strictly and must not
      have passed the RTC.
    */
    method Pursue(id: Id, selected: Feedback, cycle: Cycle)
      returns (alive: bool, candidate: JointCommand, pathReached: bool, ghost failure: Failure)
      requires Valid() && id in active && id in sessions && Usable(st, sessions[id], selected)
      modifies this`permits, this`active, this`pending, this`sessions, this`outputs, this`via, this`successes,
        this`nextToken, this`commands, this`issued, this`retryAfter, arbiter, monitor, backend, backend.sdk, clock
      ensures Valid() && Evolves(old(State()), State()) && clock.now >= old(clock.now)
      ensures alive ==> State() == old(State()).(starts := State().starts) && Steady(old(State()), State(), id)
      ensures alive ==> CandidateOk(st, sessions[id], candidate)
      ensures alive ==> (pathReached <==> NewlyReached(old(State()), State(), id))
      ensures alive ==> Answers() == old(Answers()) + [ToTick(id, OK, candidate)]
      ensures !alive ==> Fails(old(State()), id, cycle, |old(Answers())|, failure)
      ensures old(Answers()) <= Answers()
      ensures if alive then retryAfter == old(retryAfter)
              else Retries(old(sessions[id]), cycle, failure, old(retryAfter), old(At(cycle)))
    {
      hide InvX, Evolves, Usable, Steady, NewlyReached, ValidGroup, LastOk, OwnStart, FinalCode,
        CommandPipeline.ValidX, CommandPipeline.State, CommandPipeline.Retries, CommandPipeline.Fails;
      ghost var s, from := State(), |Answers()|;
      Shown();
      var code: Code;
      alive, code, candidate, pathReached, failure := AskInTime(id, cycle);
      ghost var asked := State();
      if !alive { return; }
      Shown();
      RunningGroup(id);
      if code == OK {
        code := ValidateCandidate(candidate, st.groups[sessions[id].group]);
        if code == OK { return; }
      }
      ghost var later := At(cycle);
      failure := StopHere(id, selected, code, cycle, CLOSED, from);
      EvolvesTransitive(s, asked, State());
      RetriesEarlier(asked.sessions[id], cycle, failure, old(retryAfter), old(At(cycle)), later);
      SteadySince(s, asked, id, cycle, from, from, failure);
      alive := false;
    }

    /** A running session that only went on fails as itself. */
    lemma SteadySince(s: State, t: State, id: Id, cycle: Cycle, from: nat, mid: nat, failure: Failure)
      requires Steady(s, t, id) && Fails(t, id, cycle, mid, failure) && from <= mid <= |Answers()|
      requires id in t.sessions && t.sessions[id].started
      requires t.sessions[id].group in st.groups && ValidGroup(st.groups[t.sessions[id].group])
      requires forall j | from <= j < mid :: Passes(st.groups[t.sessions[id].group], Answers()[j])
      ensures Fails(s, id, cycle, from, failure)
    {
      hide GoesOn, Grown, Passes, ValidGroup, CommandPipeline.Fails, CommandPipeline.State;
      FailsSince(s, t, id, cycle, from, mid, failure);
    }

    /** The backend's answer, unless it came too late. */
    method AskInTime(id: Id, cycle: Cycle)
      returns (alive: bool, code: Code, candidate: JointCommand, pathReached: bool, ghost failure: Failure)
      requires Valid() && id in active && id in sessions
      modifies this`permits, this`active, this`pending, this`sessions, this`outputs, this`via, this`successes,
        arbiter, monitor, backend, backend.sdk, clock
      ensures Valid() && Evolves(old(State()), State()) && clock.now >= old(clock.now)
      ensures alive ==> State() == old(State()).(starts := State().starts) && Steady(old(State()), State(), id)
      ensures alive && code == OK ==> (pathReached <==> NewlyReached(old(State()), State(), id))
      ensures !alive ==> Fails(old(State()), id, cycle, |old(Answers())|, failure)
      ensures Answers() == old(Answers()) + [ToTick(id, code, candidate)]
      ensures !alive ==> Retries(old(sessions[id]), cycle, failure, old(retryAfter), old(At(cycle)))
    {
      hide InvX, Evolves, Terminate, FailedAs, Steady, NewlyReached, ValidGroup, CommandPipeline.ValidX,
        CommandPipeline.State, CommandPipeline.PastDeadline, CommandPipeline.Blamed, CommandPipeline.Fails,
        CommandPipeline.Retries;
      ghost var s, from := State(), |Answers()|;
      Shown();
      RunningGroup(id);
      RunningSteady(id);
      code, candidate, pathReached := AskTick(id);
      ghost var asked := State();
      Shown();
      HeardIsSteady(s, id, asked.starts);
      EndFails(asked, id, Failure.Late, false, cycle);
      failure := Failure.Late;
      alive := CheckTime(id, cycle, CLOSED);
      EvolvesTransitive(s, asked, State());
      if !alive {
        Shown();
        FailsLate(asked, id, cycle, from);
        SteadySince(s, asked, id, cycle, from, from, failure);
        RetriesUnchanged(s.sessions[id], cycle, failure, old(At(cycle)));
      }
    }

    static method ValidateCandidate(command: JointCommand, group: Group) returns (code: Code)
      requires ValidGroup(group)
      ensures code == if command.passedRtc then INTERNAL_ERROR else FinalCode(command, group, NoReference)
    {
      if command.passedRtc { return INTERNAL_ERROR; }
      code := ValidateFinalCommand(command, group, NoReference);
    }

    lemma RunningGroup(id: Id)
      requires Valid() && id in active
      ensures id in sessions && id in outputs && sessions[id].group in st.groups
      ensures ValidGroup(st.groups[sessions[id].group])
      ensures sessions[id].endpoint in endpoints && CLOSED.Without(id) == CLOSED && id != "" && sessions[id].started
      ensures LastOk(sessions[id], sessions[id].last, st.groups)
      ensures sessions[id].joints == st.groups[sessions[id].group].joints
      ensures var limits := sessions[id].request.velocityLimits;
              limits == [] || |limits| == |st.groups[sessions[id].group].joints|
      ensures id in backend.sessions && id in backend.current && backend.current[id] < |backend.starts|
      ensures OwnStart(sessions[id], backend.starts[backend.current[id]])
    {
      hide InvX, ValidStatic, LastOk, ValidGroup, OwnStart;
      RunningInputs(st, State(), CLOSED, id);
      ArbiterHolds(st, State(), CLOSED);
    }

    /** A running MoveP has waypoints to pursue. */
    lemma RunningPath(id: Id)
      requires Valid() && id in active
      ensures id in backend.sessions && (backend.sessions[id].kind == MoveP ==> backend.sessions[id].waypoints > 0)
    {
      hide InvX, ValidStatic, GoalMonitor.Valid, ControlArbiter.Valid, Progress;
      RunningGroup(id);
      ArbiterHolds(st, State(), CLOSED);
      assert SessionOk(endpoints, st.groups, id, sessions[id]);
      assert backend.Runs(id);
    }

    method AskTick(id: Id) returns (code: Code, candidate: JointCommand, pathReached: bool)
      requires Valid() && id in active && id in sessions
      modifies backend, backend.sdk
      ensures Valid() && Evolves(old(State()), State()) && State() == old(State()).(starts := State().starts)
      ensures code == OK ==> (pathReached <==> NewlyReached(old(State()), State(), id))
      ensures Answers() == old(Answers()) + [ToTick(id, code, candidate)]
    {
      hide InvX, Inv, ValidStatic, GoalMonitor.Valid, SdkMotionBackend.Valid, Evolves, Heard, PathReached, OwnStart;
      RunningGroup(id);
      RunningPath(id);
      ghost var s := State();
      code, candidate, pathReached := backend.TickSession(id, Seconds(currentPeriod));
      HeardKeeps(st, s, CLOSED, s.current[id], backend.starts);
      HeardGrows(s.starts, backend.starts, s.current[id]);
    }

    /** Check an RTC output; when the measured joints are ahead of a refused one, rebase and ask exactly once more. */
    method Settle(session: Session, first: JointCommand, candidate: JointCommand, selected: Feedback)
      returns (code: Code, output: JointCommand)
      requires session.group in st.groups && ValidGroup(st.groups[session.group])
      requires LastOk(session, session.last, st.groups)
      requires |selected.positions| == |selected.velocities| == |st.groups[session.group].joints|
      requires session.request.velocityLimits == []
        || |session.request.velocityLimits| == |st.groups[session.group].joints|
      requires |Answers()| > 0 && Answers()[|Answers()| - 1] == ToShape(session.group, candidate, OK, first)
      modifies backend.sdk
      ensures old(Answers()) <= Answers()
      ensures LastDecides(
        st.groups[session.group], Answers(), |old(Answers())| - 1, candidate, code, output)
      ensures code == OK ==> Accepted(
        output, st.groups[session.group], session.last, session.recovering, selected, session.request.velocityLimits,
        st.config.recovery, Seconds(currentPeriod))
      ensures var outright :=
        FinalCode(first, st.groups[session.group], Reference(session.last.positions, selected.positions));
              outright != LIMIT_VIOLATION ==> code == outright && output == first
    {
      hide NextPositions, IsSeed, WithinLimits, MayRebase, ValidGroup, LastDecides, Ahead, Kept, FinalCode;
      var group := st.groups[session.group];
      ghost var from := |Answers()| - 1;
      output := first;
      code := ValidateFinalCommand(output, group, Reference(session.last.positions, selected.positions));
      CheckDecides(
        group, Answers(), from, session.group, candidate, first,
        Reference(session.last.positions, selected.positions));
      if code == LIMIT_VIOLATION {
        var limits := session.request.velocityLimits;
        var seed := LimitRecoverySeed(
          session.last, session.recovering, first, group, selected, limits, st.config.recovery, Seconds(currentPeriod));
        if seed.Some? {
          code, output := AskAgain(session, seed.value, first, candidate, selected);
          assert code == OK ==> AcceptedVia(
            first, seed.value, output, group, session.last, session.recovering, selected, limits,
            st.config.recovery, Seconds(currentPeriod));
        }
      }
    }

    /** Rebase the final RTC and ask it once more; nothing but an accepted output is taken. */
    method AskAgain(
      session: Session, seed: JointTarget, first: JointCommand, candidate: JointCommand, selected: Feedback)
      returns (code: Code, output: JointCommand)
      requires session.group in st.groups && ValidGroup(st.groups[session.group])
      requires |Answers()| > 0 && Answers()[|Answers()| - 1] == ToShape(session.group, candidate, OK, first)
      requires !Good(st.groups[session.group], Answers()[|Answers()| - 1])
      modifies backend.sdk
      ensures old(Answers()) <= Answers()
      ensures LastDecides(st.groups[session.group], Answers(), |old(Answers())| - 1, candidate, code, output)
      ensures code == OK ==>
        FinalCode(output, st.groups[session.group], Reference(seed.positions, selected.positions)) == OK
    {
      hide ValidGroup, FinalCode, Good;
      var group := st.groups[session.group];
      ghost var from := |Answers()| - 1;
      output := first;
      code := backend.RebaseFinalJointTarget(session.group, seed);
      if code != OK { return; }
      code, output := backend.UpdateFinalJointTarget(session.group, candidate, Seconds(currentPeriod));
      if code != OK { return; }
      CheckDecides(
        group, Answers(), from, session.group, candidate, output, Reference(seed.positions, selected.positions));
      code := ValidateFinalCommand(output, group, Reference(seed.positions, selected.positions));
    }

    /**
      Check the first output, or the one after a rebase; what goes on passed the RTC and may
      follow the last output.
    */
    method Shape(session: Session, first: JointCommand, candidate: JointCommand, selected: Feedback)
      returns (code: Code, output: JointCommand)
      requires session.group in st.groups && ValidGroup(st.groups[session.group])
      requires LastOk(session, session.last, st.groups)
      requires |selected.positions| == |selected.velocities| == |st.groups[session.group].joints|
      requires session.request.velocityLimits == []
        || |session.request.velocityLimits| == |st.groups[session.group].joints|
      requires |Answers()| > 0 && Answers()[|Answers()| - 1] == ToShape(session.group, candidate, OK, first)
      modifies backend.sdk
      ensures code == OK ==> Follows(st, session, output)
      ensures old(Answers()) <= Answers()
      ensures LastDecides(st.groups[session.group], Answers(), |old(Answers())| - 1, candidate, code, output)
    {
      hide Accepted, Shaped, NextPositions, ValidGroup, LastOk, LastDecides, FinalCode;
      code, output := Settle(session, first, candidate, selected);
      if code == OK && !output.passedRtc {
        UnmarkedDecides(st.groups[session.group], Answers(), |old(Answers())| - 1, candidate, output);
        code := INTERNAL_ERROR;
      }
      if code == OK {
        LastShape(st, session);
        AcceptedFollows(
          output, st.groups[session.group], session.last, session.recovering, selected, session.request.velocityLimits,
          st.config.recovery, Seconds(currentPeriod));
      }
    }

    /** The final output of this tick, or the end of the session. */
    method FinalOutput(id: Id, candidate: JointCommand, selected: Feedback, cycle: Cycle)
      returns (alive: bool, output: JointCommand, ghost failure: Failure)
      requires Valid() && id in active && id in sessions && Usable(st, sessions[id], selected)
      modifies this`permits, this`active, this`pending, this`sessions, this`outputs, this`via, this`successes,
        this`nextToken, this`commands, this`issued, this`retryAfter, arbiter, monitor, backend, backend.sdk, clock
      ensures Valid() && Evolves(old(State()), State()) && clock.now >= old(clock.now)
      ensures alive ==> State() == old(State()) && Follows(st, sessions[id], output)
      ensures old(sessions[id]).group in st.groups && ValidGroup(st.groups[old(sessions[id]).group])
      ensures alive ==>
        LastDecides(st.groups[sessions[id].group], Answers(), |old(Answers())|, candidate, OK, output)
      ensures !alive ==> Fails(old(State()), id, cycle, |old(Answers())|, failure)
      ensures old(Answers()) <= Answers()
      ensures if alive then retryAfter == old(retryAfter)
              else Retries(old(sessions[id]), cycle, failure, old(retryAfter), old(At(cycle)))
    {
      hide InvX, Inv, Evolves, Terminate, FailedAs, Usable, LastOk, ValidGroup, Follows, LastDecides, FinalCode,
        OwnStart, Passes, Good, StopsAt, CommandPipeline.ValidX, CommandPipeline.State, CommandPipeline.PastDeadline,
        CommandPipeline.Blamed, CommandPipeline.Fails, CommandPipeline.Retries;
      ghost var s, from := State(), |Answers()|;
      Shown();
      RunningGroup(id);
      var code: Code;
      alive, code, output := ShapeInTime(id, candidate, selected, cycle);
      Shown();
      failure := Failure.Late;
      if !alive {
        FailsLate(s, id, cycle, from);
        RetriesUnchanged(s.sessions[id], cycle, failure, old(At(cycle)));
        return;
      }
      EvolvesReflexive(s);
      if code == OK { return; }
      ghost var later := At(cycle);
      failure := StopAtLast(id, selected, code, cycle, from, candidate, output);
      RetriesEarlier(s.sessions[id], cycle, failure, old(retryAfter), old(At(cycle)), later);
      alive := false;
    }

    method StopAtLast(
      id: Id, selected: Feedback, code: Code, cycle: Cycle, ghost from: nat, ghost candidate: JointCommand,
      ghost output: JointCommand)
      returns (ghost failure: Failure)
      requires Valid() && id in sessions && code != OK
      requires sessions[id].group in st.groups && ValidGroup(st.groups[sessions[id].group])
      requires LastDecides(st.groups[sessions[id].group], Answers(), from, candidate, code, output)
      modifies this`permits, this`active, this`pending, this`sessions, this`outputs, this`via, this`successes,
        this`nextToken, this`commands, this`issued, this`retryAfter, arbiter, monitor, backend, backend.sdk, clock
      ensures Valid() && Evolves(old(State()), State()) && clock.now >= old(clock.now)
      ensures Fails(old(State()), id, cycle, from, failure) && old(Answers()) <= Answers()
      ensures Retries(old(sessions[id]), cycle, failure, old(retryAfter), old(At(cycle)))
    {
      hide InvX, Evolves, ValidGroup, Passes, StopsAt, LastDecides, CommandPipeline.Sound, CommandPipeline.State,
        CommandPipeline.Retries, CommandPipeline.Fails;
      LastStops(st.groups[sessions[id].group], Answers(), from, candidate, code, output);
      assert CLOSED.Without(id) == CLOSED;
      failure := StopHere(id, selected, code, cycle, CLOSED, from);
    }

    /** The final RTC's answers, unless the first came too late. */
    method ShapeInTime(id: Id, candidate: JointCommand, selected: Feedback, cycle: Cycle)
      returns (alive: bool, code: Code, output: JointCommand)
      requires Valid() && id in active && id in sessions && Usable(st, sessions[id], selected)
      modifies this`permits, this`active, this`pending, this`sessions, this`outputs, this`via, this`successes,
        arbiter, monitor, backend, backend.sdk, clock
      ensures Valid() && Evolves(old(State()), State()) && clock.now >= old(clock.now)
      ensures old(sessions[id]).group in st.groups && ValidGroup(st.groups[old(sessions[id]).group])
      ensures old(Answers()) <= Answers()
      ensures alive ==>
        && State() == old(State()) && (code == OK ==> Follows(st, old(sessions[id]), output))
        && LastDecides(st.groups[old(sessions[id]).group], Answers(), |old(Answers())|, candidate, code, output)
      ensures !alive ==>
        && FailedAs(old(State()), State(), id, cycle, Failure.Late)
        && forall stopped :: Blamed(old(sessions[id]), cycle, |old(Answers())|, Failure.Late, stopped)
    {
      hide InvX, Inv, Evolves, Terminate, FailedAs, Usable, LastOk, ValidGroup, Follows, LastDecides, FinalCode,
        OwnStart, CommandPipeline.ValidX, CommandPipeline.State, CommandPipeline.PastDeadline, CommandPipeline.Blamed;
      ghost var from := |Answers()|;
      Shown();
      RunningGroup(id);
      GroupOf(st, sessions[id], selected);
      EndFails(State(), id, Failure.Late, false, cycle);
      var session := sessions[id];
      code, output := backend.UpdateFinalJointTarget(session.group, candidate, Seconds(currentPeriod));
      alive := CheckTime(id, cycle, CLOSED);
      if !alive { return; }
      if code == OK {
        code, output := Shape(session, output, candidate, selected);
      } else {
        SdkDecides(st.groups[session.group], Answers(), from, candidate, code, output);
      }
    }

    method SetLast(id: Id, last: JointTarget)
      requires id in sessions && id in outputs
      modifies this`sessions, this`outputs
      ensures State() == Output(old(State()), id, last)
      ensures sessions == old(sessions)[id := old(sessions)[id].(last := last)]
      ensures outputs == old(outputs)[id := old(outputs)[id] + [last.positions]]
    {
      sessions := sessions[id := sessions[id].(last := last)];
      outputs := outputs[id := outputs[id] + [last.positions]];
    }

    method SetRecovered(id: Id)
      requires id in sessions && Sound()
      modifies this`sessions, this`delivered, this`events
      ensures Sound() && State() == Recovered(old(State()), id)
      ensures sessions == old(sessions)[id := old(sessions)[id].(recovering := false)]
      ensures delivered == old(delivered) + [Event(id, SessionState.RUNNING, OK, old(sessions)[id].serial)]
    {
      hide CommandPipeline.Sound, CommandPipeline.State;
      Shown();
      Announce(Event(id, SessionState.RUNNING, OK, sessions[id].serial));
      EndRecovery(id);
    }

    method EndRecovery(id: Id)
      requires id in sessions
      modifies this`sessions
      ensures sessions == old(sessions)[id := old(sessions)[id].(recovering := false)]
      ensures State() == old(State()).(sessions := sessions)
    {
      sessions := sessions[id := sessions[id].(recovering := false)];
    }

    /** Only a recovery that the output ends is over, and that is reported. */
    ghost predicate RecoveryJudged(id: Id, before: Session, output: JointCommand, reported: seq<Event>)
      requires before.group in st.groups && ValidGroup(st.groups[before.group])
      reads this`sessions, this`delivered
    {
      var over := before.recovering && FinalCode(output, st.groups[before.group], NoReference) == OK;
      && id in sessions && sessions[id] == before.(recovering := before.recovering && !over)
      && delivered == reported + if over then [Event(id, SessionState.RUNNING, OK, before.serial)] else []
    }

    /** An output within the model limits ends the session's limit recovery. */
    method RememberRecovery(id: Id, output: JointCommand, ghost s: State, cycle: Cycle)
      requires Valid() && id in active && id in sessions
      requires Produced(s, State(), id, cycle) && Evolves(s, State())
      requires sessions[id].group in st.groups && ValidGroup(st.groups[sessions[id].group])
      modifies this`sessions, this`delivered, this`events
      ensures Valid() && Evolves(s, State()) && Produced(s, State(), id, cycle)
      ensures RecoveryJudged(id, old(sessions[id]), output, old(delivered))
    {
      hide InvX, Inv, ValidStatic, GoalMonitor.Valid, SdkMotionBackend.Valid, Evolves, Produced;
      RunningGroup(id);
      if !sessions[id].recovering { return; }
      var within := ValidateFinalCommand(output, st.groups[sessions[id].group], NoReference);
      if within != OK { return; }
      ghost var before := State();
      RecoveredKeeps(st, before, CLOSED, id);
      ProducedThenRecovered(s, before, id, cycle);
      SetRecovered(id);
      EvolvesTransitive(s, before, State());
    }

    lemma MayReturn(id: Id, output: JointCommand, cycle: Cycle)
      requires Valid() && id in active && id in sessions && Follows(st, sessions[id], output)
      ensures sessions[id].endpoint in endpoints && id in outputs && id in backend.current
      ensures var issue := IssueFor(
                st.config, sessions[id], endpoints[sessions[id].endpoint].lease, output, nextToken,
                cycle.feedback.receivedAt, cycle.startedAt,
                Along(backend.current[id], outputs[id] + [output.positions]));
              var t := Output(Append(State(), issue), id, TargetOf(output));
              && InvX(st, t, CLOSED) && Evolves(State(), t) && Produced(State(), t, id, cycle)
              && Carries(t.commands, commands, output)
    {
      hide InvX, Inv, ValidStatic, Evolves, Follows, Produced, Carries, OwnStart, LastOk, Append, IssueFor, DeadlineOf,
        SessionOutputs, ValidGroup, CommandPipeline.Sound, CommandPipeline.State;
      var s := State();
      Shown();
      Known();
      RunningInputs(st, s, CLOSED, id);
      var lease := endpoints[sessions[id].endpoint].lease;
      EmittedProduces(st, s, CLOSED, id, lease, output, cycle);
      EmittedEitherWay(s, id, TargetOf(output), EmittedIssue(st, s, id, lease, output, cycle));
    }

    /** The output becomes a command, permitted once, and the session's last output. */
    method ReturnOutput(id: Id, output: JointCommand, cycle: Cycle)
      requires Valid() && id in active && id in sessions && Follows(st, sessions[id], output)
      modifies this`permits, this`sessions, this`outputs, this`nextToken, this`commands, this`issued
      ensures Valid() && Evolves(old(State()), State()) && Produced(old(State()), State(), id, cycle)
      ensures Carries(commands, old(commands), output) && id in old(sessions)
      ensures Stamped(st.config, old(sessions)[id], LeaseOf(old(sessions)[id]), cycle, commands[|old(commands)|])
      ensures sessions == old(sessions)[id := old(sessions[id]).(last := TargetOf(output))] && id in old(outputs)
      ensures outputs == old(outputs)[id := old(outputs[id]) + [output.positions]]
    {
      hide InvX, Inv, ValidStatic, Evolves, Follows, Produced, Carries, Append, IssueFor, Stamped, DeadlineOf,
        CommandPipeline.Sound, CommandPipeline.State;
      Shown();
      MayReturn(id, output, cycle);
      AppendCommand(id, output, cycle, Along(backend.current[id], outputs[id] + [output.positions]));
      SetLast(id, TargetOf(output));
      Shown();
    }

    /** Return the output, remember it, and report the end of a limit recovery. */
    method Emit(id: Id, output: JointCommand, cycle: Cycle)
      requires Valid() && id in active && id in sessions && Follows(st, sessions[id], output)
      modifies this`permits, this`sessions, this`outputs, this`nextToken, this`commands, this`issued, this`retryAfter,
        this`delivered, this`events
      ensures Valid() && Evolves(old(State()), State()) && Produced(old(State()), State(), id, cycle)
      ensures retryAfter == old(retryAfter) - {old(sessions[id]).endpoint} && Carries(commands, old(commands), output)
      ensures Stamped(st.config, old(sessions[id]), LeaseOf(old(sessions[id])), cycle, commands[|old(commands)|])
      ensures id in old(outputs) && outputs == old(outputs)[id := old(outputs[id]) + [output.positions]]
      ensures old(sessions[id]).group in st.groups && ValidGroup(st.groups[old(sessions[id]).group])
      ensures RecoveryJudged(id, old(sessions[id]).(last := TargetOf(output)), output, old(delivered))
    {
      hide InvX, Inv, Evolves, Shaped, NextPositions, Produced, Carries, TargetOf, ValidGroup, DeadlineOf,
        CommandPipeline.State, CommandPipeline.ValidX, CommandPipeline.RecoveryJudged;
      ghost var s := State();
      ReturnOutput(id, output, cycle);
      retryAfter := retryAfter - {sessions[id].endpoint};
      RememberRecovery(id, output, s, cycle);
    }

    /** Tick the backend and shape its candidate by the final RTC. */
    method NextOutput(id: Id, selected: Feedback, cycle: Cycle)
      returns (alive: bool, candidate: JointCommand, pathReached: bool, output: JointCommand, ghost failure: Failure)
      requires Valid() && id in active && id in sessions && Usable(st, sessions[id], selected)
      modifies this`permits, this`active, this`pending, this`sessions, this`outputs, this`via, this`successes,
        this`nextToken, this`commands, this`issued, this`retryAfter, arbiter, monitor, backend, backend.sdk, clock
      ensures Valid() && Evolves(old(State()), State()) && clock.now >= old(clock.now)
      ensures alive ==> State() == old(State()).(starts := State().starts) && Steady(old(State()), State(), id)
      ensures alive ==> id in active && id in sessions
      ensures alive ==> CandidateOk(st, sessions[id], candidate) && Follows(st, sessions[id], output)
      ensures alive ==> (pathReached <==> NewlyReached(old(State()), State(), id))
      ensures old(sessions[id]).group in st.groups && ValidGroup(st.groups[old(sessions[id]).group])
      ensures old(Answers()) <= Answers()
      ensures alive ==> Answered(old(sessions[id]).group, id, |old(Answers())|, output)
      ensures !alive ==> Fails(old(State()), id, cycle, |old(Answers())|, failure)
      ensures if alive then retryAfter == old(retryAfter)
              else Retries(old(sessions[id]), cycle, failure, old(retryAfter), old(At(cycle)))
    {
      hide InvX, Inv, Evolves, Usable, Follows, Steady, NewlyReached, ValidGroup, CandidateOk, Returned, LastOk,
        OwnStart, LastDecides, CommandPipeline.State, CommandPipeline.ValidX, CommandPipeline.Fails,
        CommandPipeline.Retries, CommandPipeline.Answered;
      ghost var s, from := State(), |Answers()|;
      Shown();
      RunningGroup(id);
      alive, candidate, pathReached, failure := Pursue(id, selected, cycle);
      output := *;
      if !alive { return; }
      Shown();
      RunningGroup(id);
      ghost var pursued := State();
      ghost var later := At(cycle);
      alive, output, failure := FinalOutput(id, candidate, selected, cycle);
      EvolvesTransitive(s, pursued, State());
      Shown();
      if alive {
        OutputSettles(s, id, from, candidate, output);
      } else {
        OutputFails(s, pursued, id, cycle, from, candidate, failure);
        RetriesEarlier(s.sessions[id], cycle, failure, old(retryAfter), old(At(cycle)), later);
      }
    }

    /** The newest answer is the one the session's turn returns. */
    ghost predicate Answered(group: string, id: Id, from: nat, output: JointCommand)
      reads backend.sdk
    {
      && group in st.groups && ValidGroup(st.groups[group]) && |Answers()| > from
      && Returned(st.groups[group], id, Answers(), from, |Answers()| - 1, output)
    }

    lemma OutputSettles(s: State, id: Id, from: nat, candidate: JointCommand, output: JointCommand)
      requires id in s.sessions && CandidateOk(st, s.sessions[id], candidate) && from < |Answers()|
      requires Answers()[from] == ToTick(id, OK, candidate)
      requires LastDecides(st.groups[s.sessions[id].group], Answers(), from + 1, candidate, OK, output)
      ensures Answered(s.sessions[id].group, id, from, output)
    {
      hide ValidGroup, FinalCode, LastDecides, Returned, Passes;
      CandidatePasses(st.groups[s.sessions[id].group], Answers(), from, id, candidate);
      LastIsReturned(st.groups[s.sessions[id].group], id, Answers(), from, candidate, output);
    }

    lemma OutputFails(
      s: State, pursued: State, id: Id, cycle: Cycle, from: nat, candidate: JointCommand, failure: Failure)
      requires Steady(s, pursued, id) && id in pursued.sessions && pursued.sessions[id].started
      requires CandidateOk(st, pursued.sessions[id], candidate) && from < |Answers()|
      requires Answers()[from] == ToTick(id, OK, candidate) && Fails(pursued, id, cycle, from + 1, failure)
      ensures Fails(s, id, cycle, from, failure)
    {
      hide ValidGroup, FinalCode, Steady, Passes, CommandPipeline.Fails, CommandPipeline.State;
      CandidatePasses(st.groups[pursued.sessions[id].group], Answers(), from, id, candidate);
      SteadySince(s, pursued, id, cycle, from, from + 1, failure);
    }

    /** The shaped output is returned. */
    method ComputeOutput(id: Id, selected: Feedback, cycle: Cycle)
      returns (alive: bool, candidate: JointCommand, pathReached: bool, ghost failure: Failure)
      requires Valid() && id in active && id in sessions && Usable(st, sessions[id], selected)
      modifies this`permits, this`active, this`pending, this`sessions, this`outputs, this`via, this`successes,
        this`nextToken, this`commands, this`issued, this`retryAfter, this`delivered, this`events, arbiter, monitor,
        backend, backend.sdk, clock
      ensures Valid() && Evolves(old(State()), State()) && clock.now >= old(clock.now)
      ensures alive ==> Produced(old(State()), State(), id, cycle) && id in sessions && id in backend.current
      ensures alive ==> monitor.goals == old(monitor.goals) && monitor.history == old(monitor.history)
      ensures alive ==> backend.current == old(backend.current)
      ensures alive ==> CandidateOk(st, sessions[id], candidate)
      ensures alive ==> (pathReached <==> NewlyReached(old(State()), State(), id))
      ensures old(sessions[id]).group in st.groups && ValidGroup(st.groups[old(sessions[id]).group])
      ensures old(Answers()) <= Answers()
      ensures alive ==>
        Turned(
          st, old(sessions[id]), LeaseOf(old(sessions[id])), cycle, Answers(), |old(Answers())|, |Answers()| - 1, false,
          old(commands), commands)
      ensures if alive then retryAfter == old(retryAfter) - {old(sessions[id]).endpoint}
              else Retries(old(sessions[id]), cycle, failure, old(retryAfter), old(At(cycle)))
      ensures !alive ==> Fails(old(State()), id, cycle, |old(Answers())|, failure)
    {
      hide InvX, Inv, Evolves, Usable, Follows, Produced, Steady, NewlyReached, CandidateOk, Carries, Returned,
        TargetOf, ValidGroup, CommandPipeline.State, CommandPipeline.ValidX, CommandPipeline.RecoveryJudged,
        CommandPipeline.Fails, Stamped;
      ghost var s := State();
      Shown();
      HeldSession(id, CLOSED);
      var output: JointCommand;
      alive, candidate, pathReached, output, failure := NextOutput(id, selected, cycle);
      if !alive { return; }
      Shown();
      ghost var settled := State();
      Emit(id, output, cycle);
      EvolvesTransitive(s, settled, State());
      SteadyThenProduced(s, settled, State(), id, cycle);
      ProducedShows(s, State(), id, cycle);
      ProducedShows(settled, State(), id, cycle);
      Shown();
      SameReached(s, settled, State(), id);
      CandidateStays(st, settled.sessions[id], sessions[id], candidate);
      ReturnedShows(st.groups[s.sessions[id].group], id, Answers(), |old(Answers())|, |Answers()| - 1, output);
    }

    // ---- Watching a winner's goal ----

    /** A reached path is monitored from then on; its goal, the accepted candidate, is always well formed. */
    method MonitorPath(id: Id, candidate: JointCommand, ghost s: State, cycle: Cycle)
      requires Valid() && Evolves(s, State()) && Produced(s, State(), id, cycle) && id in active && id in sessions
      requires sessions[id].request.kind.IsMove() && CandidateOk(st, sessions[id], candidate)
      requires id !in monitor.goals && GoalKnown(s, State(), id) && NewlyReached(s, State(), id)
      requires RunsOn(s, State(), id)
      modifies this`via, monitor
      ensures Valid() && Evolves(s, State()) && Produced(s, State(), id, cycle)
      ensures id in monitor.history && monitor.history[id] == []
      ensures monitor.goals == old(monitor.goals)[id := PathGoal(sessions[id], candidate)]
      ensures GoalFrom(s, State(), id, PathGoal(sessions[id], candidate), []) && sessions[id].request.kind != MoveJ
    {
      hide InvX, Inv, Evolves, Produced, NewlyReached, CandidateOk, CommandPipeline.ValidX, CommandPipeline.State;
      ghost var before := State();
      Shown();
      Invariant();
      ghost var goal := PathGoal(sessions[id], candidate);
      PathKnown(st, s, before, id, cycle);
      BeginPath(id, candidate, goal);
      PathChanges(before, id, goal);
      ProducedThenWatched(s, before, State(), id, cycle);
      EvolvesTransitive(s, before, State());
      Shown();
      SameReached(s, before, State(), id);
      PathIsNew(s, before, State(), id, candidate, cycle);
    }

    method BeginPath(id: Id, candidate: JointCommand, ghost goal: Goal)
      requires Valid() && id in active && id in sessions && CandidateOk(st, sessions[id], candidate)
      requires goal == PathGoal(sessions[id], candidate)
      requires sessions[id].request.kind.IsMove() && sessions[id].request.kind != MoveJ
      requires id in backend.current && backend.current[id] < |backend.starts|
      requires PathReached(backend.starts[backend.current[id]])
      modifies this`via, monitor
      ensures Valid() && Evolves(old(State()), State())
      ensures id in old(backend.current) && State() == WatchPath(old(State()), id, goal)
    {
      hide InvX, Inv, ValidStatic, GoalMonitor.Valid, SdkMotionBackend.Valid, Evolves, WithinLimits, PathReached;
      RunningGroup(id);
      var session := sessions[id];
      WatchPathKeeps(st, State(), CLOSED, id, goal);
      var code := monitor.Begin(
        id, candidate.joints, candidate.positions, candidate.finite, Some(true), session.submittedAt);
      if code != OK {
        assert false;
      }
      via := via[id := backend.current[id]];
    }

    /** Stop in place of the command just produced, and end the session. */
    method StopInstead(id: Id, selected: Feedback, code: Code, ghost s: State, cycle: Cycle)
      requires Valid() && Evolves(s, State()) && Produced(s, State(), id, cycle)
      modifies this`permits, this`active, this`pending, this`sessions, this`outputs, this`via, this`successes,
        this`nextToken, this`commands, this`issued, this`retryAfter, arbiter, monitor, backend, backend.sdk, clock
      ensures Valid() && Evolves(s, State()) && Aborted(s, State(), id, cycle) && clock.now >= old(clock.now)
      ensures EndedAs(s, State(), id, ABORTED, code) && backend.starts == old(backend.starts)
      ensures old(Answers()) <= Answers() && retryAfter == old(retryAfter)
      ensures id in old(sessions)
      ensures Braked(st, old(sessions)[id], Answers(), |old(Answers())|, |old(commands)| - 1, commands)
    {
      hide InvX, Inv, Evolves, Produced, Aborted, SomeBad, ValidGroup, CommandPipeline.ValidX, CommandPipeline.State;
      ghost var produced := State();
      Shown();
      ProducedShows(s, produced, id, cycle);
      PopCommand();
      EvolvesTransitive(s, produced, State());
      ghost var popped := State();
      assert CLOSED.Without(id) == CLOSED;
      StopAndAbort(id, selected, code, false, cycle, CLOSED);
      EvolvesTransitive(s, popped, State());
      PoppedThenAborted(s, produced, State(), id, cycle);
      ProducedThenEnded(s, produced, State(), id, ABORTED, code, cycle);
    }

    method PopCommand()
      requires Valid() && |commands| > 0
      modifies this`commands
      ensures Valid() && Evolves(old(State()), State())
      ensures State() == old(State()).(commands := old(commands)[..|old(commands)| - 1])
      ensures commands == old(commands)[..|old(commands)| - 1]
    {
      hide InvX, Inv, ValidStatic, GoalMonitor.Valid, SdkMotionBackend.Valid, Evolves;
      PopKeeps(st, State(), CLOSED, commands[..|commands| - 1]);
      commands := commands[..|commands| - 1];
    }

    /** What the monitor makes of this cycle's observation, told from the goal and all its observations before. */
    ghost function Outcome(id: Id, pose: Option<PoseReport>, cycle: Cycle): GoalObservation
      requires id in monitor.goals && monitor.Valid()
      reads monitor
    {
      OutcomeOf(monitor.goals[id], monitor.history[id], cycle.feedback, pose, cycle.now, monitor.config)
    }

    /** This cycle's observation. */
    ghost function Seen(id: Id, pose: Option<PoseReport>, cycle: Cycle): Observation
      requires id in monitor.goals && monitor.Valid()
      reads monitor
    {
      Observation(cycle.now, VerdictOf(monitor.goals[id], cycle.feedback, pose, monitor.config))
    }

    /** One observation of a watched goal; it is added to those before unless the goal is late. */
    method ObserveGoal(id: Id, pose: Option<PoseReport>, cycle: Cycle) returns (result: GoalObservation)
      requires Valid() && id in monitor.goals
      modifies monitor
      ensures Valid() && Evolves(old(State()), State()) && monitor.goals.Keys == old(monitor.goals).Keys
      ensures result == old(Outcome(id, pose, cycle)) && id in old(monitor.history)
      ensures monitor.goals - {id} == old(monitor.goals) - {id}
      ensures monitor.history ==
        if result == TIMED_OUT then old(monitor.history)
        else old(monitor.history)[id := old(monitor.history)[id] + [old(Seen(id, pose, cycle))]]
      ensures result == REACHED ==> MaySucceed(State(), id, st.config.stableDuration)
    {
      hide InvX, Inv, ValidStatic, SdkMotionBackend.Valid, Evolves, Tracks, Settled, VerdictOf, OutcomeOf, Observed;
      ghost var s := State();
      ghost var goal, seen := monitor.goals[id], Seen(id, pose, cycle);
      EvolvesReflexive(s);
      ObservedKeeps(goal, cycle.now, seen.verdict, monitor.config);
      GoalHolds(st, s, CLOSED, id);
      WatchAgain(
        st, s, CLOSED, id, Observed(goal, cycle.now, seen.verdict, monitor.config).0.stableSince,
        s.histories[id] + [seen]);
      result := monitor.Observe(id, cycle.feedback, pose, cycle.now);
    }

    /** Watch a Move's goal: success ends it keeping its output, a timeout or unusable feedback stops it. */
    method MonitorProgress(
      id: Id, candidate: JointCommand, pathReached: bool, selected: Feedback, ghost s: State, cycle: Cycle)
      returns (ghost judgement: Judgement)
      requires Valid() && Evolves(s, State()) && Produced(s, State(), id, cycle) && id in active && id in sessions
      requires CandidateOk(st, sessions[id], candidate) && GoalKnown(s, State(), id)
      requires (pathReached <==> NewlyReached(s, State(), id)) && RunsOn(s, State(), id)
      modifies this`permits, this`active, this`pending, this`sessions, this`outputs, this`via, this`successes,
        this`nextToken, this`commands, this`issued, this`retryAfter, arbiter, monitor, backend, backend.sdk, clock
      ensures Valid() && Evolves(s, State()) && clock.now >= old(clock.now)
      ensures Concluded(s, State(), id, cycle, monitor.config, judgement)
      ensures !judgement.Failed? && !judgement.Waiting?
      ensures old(Answers()) <= Answers() && retryAfter == old(retryAfter)
      ensures if Replaced(cycle, monitor.config, judgement)
              then Braked(st, old(sessions[id]), Answers(), |old(Answers())|, |old(commands)| - 1, commands)
              else commands == old(commands)
    {
      hide InvX, Inv, Evolves, Produced, CandidateOk, GoalKnown, NewlyReached, RunsOn, Concluded, OutcomeOf,
        CommandPipeline.ValidX, CommandPipeline.State, Braked;
      Shown();
      if sessions[id].request.kind.IsServo() {
        UnwatchedConcludes(s, State(), id, cycle, monitor.config);
        return Unwatched;
      }
      if id !in monitor.goals {
        if !pathReached {
          UnwatchedConcludes(s, State(), id, cycle, monitor.config);
          return Unwatched;
        }
        MonitorPath(id, candidate, s, cycle);
        Shown();
      } else {
        KnownGoal(s, State(), id);
      }
      judgement := JudgeGoal(id, selected, s, cycle);
    }

    /** A watched goal is judged, a cartesian one by the pose of the measured joints. */
    method JudgeGoal(id: Id, selected: Feedback, ghost s: State, cycle: Cycle) returns (ghost judgement: Judgement)
      requires Valid() && Evolves(s, State()) && Produced(s, State(), id, cycle) && id in active && id in sessions
      requires sessions[id].request.kind.IsMove() && id in monitor.goals && id in monitor.history
      requires GoalFrom(s, State(), id, monitor.goals[id], monitor.history[id])
      modifies this`permits, this`active, this`pending, this`sessions, this`outputs, this`via, this`successes,
        this`nextToken, this`commands, this`issued, this`retryAfter, arbiter, monitor, backend, backend.sdk, clock
      ensures Valid() && Evolves(s, State()) && clock.now >= old(clock.now)
      ensures Concluded(s, State(), id, cycle, monitor.config, judgement)
      ensures judgement.Unsolved? || judgement.Judged?
      ensures old(Answers()) <= Answers() && retryAfter == old(retryAfter)
      ensures if Replaced(cycle, monitor.config, judgement)
              then Braked(st, old(sessions[id]), Answers(), |old(Answers())|, |old(commands)| - 1, commands)
              else commands == old(commands)
    {
      hide InvX, Inv, Evolves, Produced, GoalFrom, Concluded, JudgedAs, Aborted, EndedAs, OutcomeOf,
        CommandPipeline.ValidX, CommandPipeline.State, Braked;
      ghost var produced := State();
      Shown();
      ProducedShows(s, produced, id, cycle);
      var kind := sessions[id].request.kind;
      var pose: Option<PoseReport> := None;
      if kind == MoveL || kind == MoveP {
        var solved: Code := *;
        if solved != OK {
          StopInstead(id, selected, solved, s, cycle);
          Shown();
          UnsolvedConcludes(s, produced, State(), id, cycle, monitor.config, solved);
          return Unsolved(solved);
        }
        var report: PoseReport := *;
        pose := Some(report);
      }
      ghost var goal, history := monitor.goals[id], monitor.history[id];
      JudgeProgress(id, pose, selected, s, cycle);
      Shown();
      JudgedConcludes(s, produced, State(), id, cycle, monitor.config, goal, history, pose);
      judgement := Judged(goal, history, pose);
    }

    method JudgeProgress(id: Id, pose: Option<PoseReport>, selected: Feedback, ghost s: State, cycle: Cycle)
      requires Valid() && Evolves(s, State()) && Produced(s, State(), id, cycle) && id in monitor.goals
      modifies this`permits, this`active, this`pending, this`sessions, this`outputs, this`via, this`successes,
        this`nextToken, this`commands, this`issued, this`retryAfter, arbiter, monitor, backend, backend.sdk, clock
      ensures Valid() && Evolves(s, State()) && clock.now >= old(clock.now) && backend.starts == old(backend.starts)
      ensures id in old(monitor.history) && |old(monitor.goals)[id].joints| == |old(monitor.goals)[id].positions|
      ensures JudgedAs(
        s, State(), id, cycle, old(monitor.goals)[id], old(monitor.history)[id], pose, monitor.config)
      ensures old(Answers()) <= Answers() && retryAfter == old(retryAfter)
      ensures var outcome :=
          OutcomeOf(old(monitor.goals)[id], old(monitor.history)[id], cycle.feedback, pose, cycle.now, monitor.config);
        if outcome == TIMED_OUT || outcome == INVALID_FEEDBACK
        then
          && id in old(sessions)
          && Braked(st, old(sessions)[id], Answers(), |old(Answers())|, |old(commands)| - 1, commands)
        else commands == old(commands)
    {
      hide InvX, Inv, Evolves, Produced, Aborted, Succeeded, CommandPipeline.ValidX, CommandPipeline.State, OutcomeOf,
        Braked, VerdictOf, Settled, Terminate, EndedAs;
      ghost var before := State();
      Shown();
      GoalShape(id);
      var result := ObserveGoal(id, pose, cycle);
      ghost var observed := State();
      Shown();
      ProducedThenWatched(s, before, observed, id, cycle);
      EvolvesTransitive(s, before, observed);
      if result == REACHED {
        EndReached(id, s, cycle);
      } else if result == TIMED_OUT || result == INVALID_FEEDBACK {
        StopInstead(id, selected, UnreachedCode(result, pose), s, cycle);
      }
    }

    /** A goal that is reached ends its session, and keeps the command just produced. */
    method EndReached(id: Id, ghost s: State, cycle: Cycle)
      requires Valid() && Evolves(s, State()) && Produced(s, State(), id, cycle)
      requires id in monitor.history && MaySucceed(State(), id, st.config.stableDuration)
      modifies this`permits, this`active, this`pending, this`sessions, this`outputs, this`via, this`successes,
        arbiter, monitor, backend
      ensures Valid() && Evolves(s, State()) && Succeeded(s, State(), id, cycle)
      ensures EndedAs(s, State(), id, SUCCEEDED, OK)
      ensures backend.starts == old(backend.starts) && commands == old(commands)
    {
      hide InvX, Inv, Evolves, Produced, Succeeded, MaySucceed, CommandPipeline.ValidX, CommandPipeline.State,
        Terminate, EndedAs;
      ghost var reached := State();
      Shown();
      EndSucceeds(s, reached, id, cycle);
      SuccessEnds(s, reached, id, cycle);
      TerminateFrame(reached, id, SUCCEEDED, OK, true);
      End(id, SUCCEEDED, OK, true);
      Shown();
      EvolvesTransitive(s, reached, State());
    }

    lemma GoalShape(id: Id)
      requires Valid() && id in monitor.goals
      ensures monitor.Valid() && id in monitor.history && |monitor.goals[id].joints| == |monitor.goals[id].positions|
    {
      hide InvX, Tracks;
    }

    // ---- A whole winner ----

    lemma SessionGroup(id: Id)
      requires Valid() && id in sessions
      ensures sessions[id].group in st.groups && ValidGroup(st.groups[sessions[id].group])
      ensures sessions[id].joints == st.groups[sessions[id].group].joints && CLOSED.Without(id) == CLOSED
    {
      hide InvX, ValidGroup;
      ArbiterHolds(st, State(), CLOSED);
    }

    /** Unusable feedback ends the session, and cannot seed a stop command either. */
    method CheckFeedback(id: Id, cycle: Cycle) returns (ok: bool, ghost at: Time, ghost failure: Failure)
      requires Valid() && id in sessions && cycle.enteredAt <= clock.now
      modifies this`permits, this`active, this`pending, this`sessions, this`outputs, this`via, this`successes,
        arbiter, monitor, backend, clock
      ensures Valid() && Evolves(old(State()), State()) && clock.now >= old(clock.now)
      ensures ok ==> State() == old(State())
      ensures ok <==> Measures(st, old(sessions[id]), cycle.feedback, at)
      ensures old(At(cycle)) <= at <= At(cycle)
      ensures !ok ==> commands == old(commands)
      ensures !ok ==> forall from: nat :: Fails(old(State()), id, cycle, from, failure) && !failure.Refused?
    {
      hide InvX, Inv, Evolves, Terminate, Aborted, FailedAs, CommandPipeline.ValidX, CommandPipeline.State, ValidGroup,
        WellFormedFeedback, Covers, InRecoveryRange, Fresh, CommandPipeline.Fails;
      EvolvesReflexive(State());
      Shown();
      SessionGroup(id);
      var read := CurrentTime(cycle);
      at := read;
      failure := Failure.Late;
      HeldSession(id, CLOSED);
      ghost var s := State();
      var code := ValidateFeedback(
        cycle.feedback, st.groups[sessions[id].group], read, st.config.feedbackMaxAge, st.config.recovery.margin);
      if code != OK {
        failure := Unmeasured(code, at);
        EndFails(State(), id, failure, false, cycle);
        End(id, ABORTED, code, false);
        Shown();
        forall from: nat ensures Fails(s, id, cycle, from, failure) { FailsUnmeasured(s, id, cycle, from, code, at); }
        return false, at, failure;
      }
      return true, at, failure;
    }

    lemma FailsUnmeasured(s: State, id: Id, cycle: Cycle, from: nat, code: Code, read: Time)
      requires id in s.sessions && FailedAs(s, State(), id, cycle, Unmeasured(code, read))
      requires s.sessions[id].endpoint in endpoints && code != OK && cycle.now <= read <= At(cycle)
      requires s.sessions[id].group in st.groups && ValidGroup(st.groups[s.sessions[id].group])
      requires !Measures(st, s.sessions[id], cycle.feedback, read)
      requires code == STALE_FEEDBACK <==>
        WellFormedFeedback(cycle.feedback) && !Fresh(cycle.feedback, read, st.config.feedbackMaxAge)
      ensures Fails(s, id, cycle, from, Unmeasured(code, read))
    {
      hide FailedAs, ValidGroup, Measures, WellFormedFeedback, Fresh, CommandPipeline.State;
    }

    /** A Servo whose backend failed waits before it is started again. */
    method MustWait(id: Id, cycle: Cycle) returns (wait: bool)
      requires id in sessions
      modifies clock
      ensures clock.now >= old(clock.now)
      ensures wait <==>
        && sessions[id].request.kind.IsServo() && !sessions[id].started && sessions[id].endpoint in retryAfter
        && cycle.now + (clock.now - cycle.enteredAt) < retryAfter[sessions[id].endpoint]
    {
      wait := false;
      if sessions[id].request.kind.IsServo() && !sessions[id].started && sessions[id].endpoint in retryAfter {
        var at := CurrentTime(cycle);
        wait := at < retryAfter[sessions[id].endpoint];
      }
    }

    /** The session's endpoint is still to wait. */
    ghost predicate Waits(id: Id, cycle: Cycle)
      reads this`sessions, this`retryAfter, clock
    {
      && id in sessions && sessions[id].endpoint in retryAfter
      && cycle.now + (clock.now - cycle.enteredAt) < retryAfter[sessions[id].endpoint]
    }

    /**
      One winner's turn: what became of its session and of its goal. It fails only for what it was
      given, and with that code; otherwise its command carries the final RTC's answer, unless the
      goal's judgement puts a stop in its place.
    */
    method ProcessWinner(id: Id, cycle: Cycle) returns (ghost judgement: Judgement, ghost at: Time, ghost shaped: int)
      requires Valid() && id in sessions && Apart(State(), id) && cycle.enteredAt <= clock.now
      modifies this`permits, this`active, this`pending, this`sessions, this`outputs, this`via, this`successes,
        this`nextToken, this`commands, this`issued, this`retryAfter, this`delivered, this`events, arbiter, monitor,
        backend, backend.sdk, clock
      ensures Valid() && Evolves(old(State()), State()) && clock.now >= old(clock.now)
      ensures Concluded(old(State()), State(), id, cycle, monitor.config, judgement)
      ensures Watched(State(), id, cycle.now, st.config)
      ensures commands != old(commands) ==> Measures(st, old(sessions)[id], cycle.feedback, at)
      ensures judgement.Waiting? ==> old(Waits(id, cycle))
      ensures old(Answers()) <= Answers()
      ensures RetryKept(old(sessions[id]), cycle, judgement, old(retryAfter), old(At(cycle)))
      ensures judgement.Failed? ==> Fails(old(State()), id, cycle, |old(Answers())|, judgement.failure)
      ensures !judgement.Failed? && !judgement.Waiting? ==>
        Turned(
          st, old(sessions[id]), LeaseOf(old(sessions[id])), cycle, Answers(), |old(Answers())|, shaped,
          Replaced(cycle, monitor.config, judgement), old(commands), commands)
    {
      hide InvX, Inv, Evolves, Terminate, FailedAs, Concluded, Apart, Measures, Watched, Replaced,
        CommandPipeline.ValidX, CommandPipeline.State, CommandPipeline.Fails, CommandPipeline.Blamed,
        Turned, CommandPipeline.PastDeadline;
      ghost var s, from := State(), |Answers()|;
      Shown();
      SessionGroup(id);
      EndFails(s, id, Failure.Late, false, cycle);
      var ok: bool;
      ghost var failure: Failure;
      shaped := 0;
      ok, at, failure := CheckFeedback(id, cycle);
      if ok {
        Shown();
        ok := CheckTime(id, cycle, CLOSED);
        if !ok {
          Shown();
          failure := Failure.Late;
          FailsLate(s, id, cycle, from);
        }
      }
      Shown();
      if !ok {
        FailsShows(s, id, cycle, from, failure);
        FailedConcludes(s, State(), id, cycle, monitor.config, failure);
        FailedWatched(s, State(), id, cycle, st.config, failure);
        return Failed(failure), at, shaped;
      }
      judgement, shaped := AdvanceWinner(id, cycle, at);
    }

    lemma FailsShows(s: State, id: Id, cycle: Cycle, from: nat, failure: Failure)
      requires Fails(s, id, cycle, from, failure)
      ensures FailedAs(s, State(), id, cycle, failure)
    {
      hide FailedAs, CommandPipeline.Blamed, CommandPipeline.State;
    }

    /** What the turn made of the times endpoints are to wait for: only its own is changed. */
    ghost predicate RetryKept(
      session: Session, cycle: Cycle, judgement: Judgement, before: map<string, Time>, since: Time)
      reads this`retryAfter, clock
    {
      match judgement
      case Waiting => retryAfter == before
      case Failed(failure) => Retries(session, cycle, failure, before, since)
      case _ => retryAfter == before - {session.endpoint}
    }

    /** The winner's feedback and time are in order. */
    method AdvanceWinner(id: Id, cycle: Cycle, ghost at: Time) returns (ghost judgement: Judgement, ghost shaped: int)
      requires Valid() && id in sessions && Apart(State(), id) && Measures(st, sessions[id], cycle.feedback, at)
      modifies this`permits, this`active, this`pending, this`sessions, this`outputs, this`via, this`successes,
        this`nextToken, this`commands, this`issued, this`retryAfter, this`delivered, this`events, arbiter, monitor,
        backend, backend.sdk, clock
      ensures Valid() && Evolves(old(State()), State()) && clock.now >= old(clock.now)
      ensures Concluded(old(State()), State(), id, cycle, monitor.config, judgement)
      ensures Watched(State(), id, cycle.now, st.config)
      ensures judgement.Waiting? ==> old(Waits(id, cycle))
      ensures TooOld(old(sessions[id]), cycle.now) ==> EndedAs(old(State()), State(), id, ABORTED, TIMEOUT)
      ensures old(Answers()) <= Answers()
      ensures RetryKept(old(sessions[id]), cycle, judgement, old(retryAfter), old(At(cycle)))
      ensures judgement.Failed? ==> Fails(old(State()), id, cycle, |old(Answers())|, judgement.failure)
      ensures !judgement.Failed? && !judgement.Waiting? ==>
        Turned(
          st, old(sessions[id]), LeaseOf(old(sessions[id])), cycle, Answers(), |old(Answers())|, shaped,
          Replaced(cycle, monitor.config, judgement), old(commands), commands)
    {
      hide InvX, Inv, Evolves, Terminate, Aborted, Concluded, EndedAs, FailedAs, Watched, Apart, CommandPipeline.ValidX,
        CommandPipeline.State, ValidGroup, InRecoveryRange, WellFormedFeedback, Covers, Usable, IsSelection, SomeBad,
        Replaced, CommandPipeline.Fails, Turned;
      ghost var s, from := State(), |Answers()|;
      Shown();
      SessionGroup(id);
      HeldSession(id, CLOSED);
      var selected := SelectFeedback(cycle.feedback, sessions[id].joints);
      SelectionIsUsable(st, sessions[id], cycle.feedback, selected);
      shaped := 0;
      var wait := MustWait(id, cycle);
      if wait {
        EvolvesReflexive(s);
        WaitingConcludes(s, id, cycle, monitor.config, st.config);
        return Waiting, shaped;
      }
      if sessions[id].request.kind.IsMove() && cycle.now - sessions[id].submittedAt > st.config.moveTimeout {
        StopAndAbort(id, selected, TIMEOUT, false, cycle, CLOSED);
        Shown();
        FailsOverdue(s, id, cycle, from);
        FailsShows(s, id, cycle, from, Failure.Overdue);
        FailedConcludes(s, State(), id, cycle, monitor.config, Failure.Overdue);
        FailedWatched(s, State(), id, cycle, st.config, Failure.Overdue);
        return Failed(Failure.Overdue), shaped;
      }
      judgement, shaped := RunWinner(id, selected, cycle);
      Invariant();
      ConcludedIsWatched(st, s, State(), id, cycle, monitor.config, judgement);
    }

    lemma FailsOverdue(s: State, id: Id, cycle: Cycle, from: nat)
      requires id in s.sessions && Aborted(s, State(), id, cycle) && EndedAs(s, State(), id, ABORTED, TIMEOUT)
      requires s.sessions[id].endpoint in endpoints
      requires s.sessions[id].group in st.groups && ValidGroup(st.groups[s.sessions[id].group])
      requires s.sessions[id].request.kind.IsMove() && cycle.now - s.sessions[id].submittedAt > st.config.moveTimeout
      requires |commands| > |s.commands| || SomeBad(st.groups[s.sessions[id].group], Answers(), from)
      ensures Fails(s, id, cycle, from, Failure.Overdue)
    {
      hide Aborted, EndedAs, ValidGroup, SomeBad, CommandPipeline.State;
    }

    /** A Move past its timeout. */
    ghost predicate TooOld(session: Session, now: Time) {
      session.request.kind.IsMove() && now - session.submittedAt > st.config.moveTimeout
    }

    method RunWinner(id: Id, selected: Feedback, cycle: Cycle) returns (ghost judgement: Judgement, ghost shaped: int)
      requires Valid() && id in sessions && Apart(State(), id) && Usable(st, sessions[id], selected)
      modifies this`permits, this`active, this`pending, this`sessions, this`outputs, this`via, this`successes,
        this`nextToken, this`commands, this`issued, this`retryAfter, this`delivered, this`events, arbiter, monitor,
        backend, backend.sdk, clock
      ensures Valid() && Evolves(old(State()), State()) && clock.now >= old(clock.now)
      ensures Concluded(old(State()), State(), id, cycle, monitor.config, judgement) && !judgement.Waiting?
      ensures old(Answers()) <= Answers()
      ensures RetryKept(old(sessions[id]), cycle, judgement, old(retryAfter), old(At(cycle)))
      ensures judgement.Failed? ==> Fails(old(State()), id, cycle, |old(Answers())|, judgement.failure)
      ensures !judgement.Failed? ==>
        Turned(
          st, old(sessions[id]), LeaseOf(old(sessions[id])), cycle, Answers(), |old(Answers())|, shaped,
          Replaced(cycle, monitor.config, judgement), old(commands), commands)
    {
      hide InvX, Inv, Evolves, FailedAs, Concluded, Steady, Apart, Usable, GoalKnown, StartOf, Replaced, ValidGroup,
        CommandPipeline.ValidX, CommandPipeline.State, CommandPipeline.Resting, CommandPipeline.Fails,
        Turned;
      ghost var s, from := State(), |Answers()|;
      Shown();
      Invariant();
      HeldSession(id, CLOSED);
      shaped := 0;
      var alive: bool;
      ghost var failure: Failure;
      alive, failure := EnsureStarted(id, selected, cycle);
      if !alive {
        Shown();
        FailsShows(s, id, cycle, from, failure);
        FailedConcludes(s, State(), id, cycle, monitor.config, failure);
        return Failed(failure), shaped;
      }
      Shown();
      ghost var started := State();
      SteadyShows(st, s, started, id, selected);
      Invariant();
      StartsAnew(st, s, started, id);
      StartPasses(s, id, from);
      judgement, shaped := RunStarted(id, selected, cycle, s, from);
    }

    lemma StartPasses(s: State, id: Id, from: nat)
      requires id in s.sessions && s.sessions[id].group in st.groups && ValidGroup(st.groups[s.sessions[id].group])
      requires from <= |Answers()|
      requires Answers()[from..] == [] || Answers()[from..] == [ToStart(id, OK), ToReset(s.sessions[id].group, OK)]
      ensures Passing(st.groups[s.sessions[id].group], Answers(), from)
    {
      hide ValidGroup;
      assert forall j | from <= j < |Answers()| :: Answers()[j] == Answers()[from..][j - from];
    }

    /** The session is running: its output, then its goal. */
    method RunStarted(id: Id, selected: Feedback, cycle: Cycle, ghost s: State, ghost from: nat)
      returns (ghost judgement: Judgement, ghost shaped: int)
      requires Valid() && id in active && id in sessions && Usable(st, sessions[id], selected)
      requires Steady(s, State(), id) && Evolves(s, State()) && GoalKnown(s, State(), id)
      requires s == State() || BegunSince(s, State(), id)
      requires id in s.sessions && s.sessions[id].group in st.groups && ValidGroup(st.groups[s.sessions[id].group])
      requires Passing(st.groups[s.sessions[id].group], Answers(), from)
      modifies this`permits, this`active, this`pending, this`sessions, this`outputs, this`via, this`successes,
        this`nextToken, this`commands, this`issued, this`retryAfter, this`delivered, this`events, arbiter, monitor,
        backend, backend.sdk, clock
      ensures Valid() && Evolves(s, State()) && clock.now >= old(clock.now)
      ensures Concluded(s, State(), id, cycle, monitor.config, judgement) && !judgement.Waiting?
      ensures old(Answers()) <= Answers()
      ensures RetryKept(s.sessions[id], cycle, judgement, old(retryAfter), old(At(cycle)))
      ensures judgement.Failed? ==> Fails(s, id, cycle, from, judgement.failure)
      ensures !judgement.Failed? ==>
        Turned(
          st, s.sessions[id], LeaseOf(s.sessions[id]), cycle, Answers(), from, shaped,
          Replaced(cycle, monitor.config, judgement), s.commands, commands)
    {
      hide InvX, Inv, Evolves, FailedAs, Concluded, Produced, Steady, Usable, CandidateOk, GoalKnown, NewlyReached,
        BegunSince, Replaced, ValidGroup, Passes, CommandPipeline.ValidX, CommandPipeline.State, CommandPipeline.Fails,
        Turned, Given, Braked, CommandPipeline.Retries;
      ghost var started, early, mid := State(), Answers(), |Answers()|;
      Shown();
      SteadySession(s, started, id);
      RunningGroup(id);
      var alive, candidate, pathReached;
      ghost var failure: Failure;
      alive, candidate, pathReached, failure := ComputeOutput(id, selected, cycle);
      EvolvesTransitive(s, started, State());
      shaped := |Answers()| - 1;
      if !alive {
        SteadySince(s, started, id, cycle, from, mid, failure);
        FailsShows(s, id, cycle, from, failure);
        FailedConcludes(s, State(), id, cycle, monitor.config, failure);
        RetriesAlike(s.sessions[id], started.sessions[id], cycle, failure, old(retryAfter), old(At(cycle)));
        return Failed(failure), shaped;
      }
      SteadyThenProduced(s, started, State(), id, cycle);
      ProducedShows(s, State(), id, cycle);
      Shown();
      ReachedSince(s, started, State(), id);
      SameKnown(s, started, State(), id);
      ghost var answers, commanded, lease := Answers(), commands, LeaseOf(s.sessions[id]);
      TurnsSince(
        st, s.sessions[id], started.sessions[id], lease, cycle, early, answers, from, shaped, s.commands, commanded);
      ghost var produced := sessions[id];
      judgement := MonitorProgress(id, candidate, pathReached, selected, s, cycle);
      TurnsFinally(
        st, s.sessions[id], produced, lease, cycle, answers, Answers(), from, shaped,
        Replaced(cycle, monitor.config, judgement), s.commands, commanded, commands);
    }

    lemma SteadySession(s: State, t: State, id: Id)
      requires Steady(s, t, id)
      ensures id in s.sessions && id in t.sessions && Continues(s.sessions[id], t.sessions[id])
      ensures t.commands == s.commands
    {
      hide SameBut, Grown;
    }

    /** The wait of a Servo does not depend on how far its session has come. */
    lemma RetriesAlike(
      before: Session, session: Session, cycle: Cycle, failure: Failure, retries: map<string, Time>, since: Time)
      requires Retries(session, cycle, failure, retries, since) && Continues(before, session)
      ensures Retries(before, cycle, failure, retries, since)
    {
    }

    // ---- The control tick ----

    /** Too long a pause between two ticks. */
    static predicate Paused(lastTick: Option<Time>, now: Time, maxPeriod: Time) {
      lastTick.Some? && now - lastTick.value > maxPeriod
    }

    /** Start a result with the events pending since the last tick. */
    method BeginTick(feedback: Feedback, now: Time) returns (cycle: Cycle, paused: bool)
      requires Valid()
      modifies this`lastTick, this`currentPeriod, this`commands, this`events, this`handed, this`pending,
        this`delivered, clock
      ensures Valid() && Evolves(old(State()), State())
      ensures State() == Deliver(old(State()).(commands := [])) && handed == old(delivered) && events == old(pending)
      ensures cycle.feedback == feedback && cycle.now == now && cycle.startedAt == now + (clock.now - cycle.enteredAt)
      ensures cycle.startedAt >= now && clock.now >= cycle.enteredAt
      ensures paused <==> Paused(old(lastTick), now, st.config.MaxPeriod())
      ensures lastTick == Some(now)
      ensures currentPeriod ==
        if old(lastTick).Some? && now > old(lastTick).value && !paused then now - old(lastTick).value
        else st.config.period
    {
      hide InvX, Inv, Evolves, CommandPipeline.ValidX, CommandPipeline.State;
      Shown();
      var entered := clock.Read();
      var read := clock.Read();
      cycle := Cycle(feedback, now, entered, now + (read - entered));
      paused := SetPeriod(now);
      StartResult();
    }

    /** The backend computes with the real period, unless the pause was too long. */
    method SetPeriod(now: Time) returns (paused: bool)
      requires Valid()
      modifies this`lastTick, this`currentPeriod
      ensures Valid() && lastTick == Some(now) && (paused <==> Paused(old(lastTick), now, st.config.MaxPeriod()))
      ensures currentPeriod ==
        if old(lastTick).Some? && now > old(lastTick).value && !paused then now - old(lastTick).value
        else st.config.period
    {
      hide InvX, Inv, GoalMonitor.Valid, SdkMotionBackend.Valid;
      currentPeriod, paused := st.config.period, false;
      if lastTick.Some? && now > lastTick.value {
        var elapsed := now - lastTick.value;
        paused := elapsed > st.config.MaxPeriod();
        currentPeriod := if paused then st.config.period else elapsed;
      }
      lastTick := Some(now);
    }

    method StartResult()
      requires Valid()
      modifies this`commands, this`events, this`handed, this`pending, this`delivered
      ensures Valid() && Evolves(old(State()), State())
      ensures State() == Deliver(old(State()).(commands := [])) && handed == old(delivered) && events == old(pending)
    {
      hide InvX, Evolves, Deliver, CommandPipeline.Sound, CommandPipeline.State;
      ghost var s := State();
      PopKeeps(st, s, CLOSED, []);
      DeliverKeeps(st, s.(commands := []), CLOSED);
      EvolvesTransitive(s, s.(commands := []), Deliver(s.(commands := [])));
      ClearCommands();
      HandOver();
    }

    method ClearCommands()
      modifies this`commands
      ensures State() == old(State()).(commands := [])
    {
      commands := [];
    }

    method HandOver()
      requires Sound()
      modifies this`events, this`handed, this`pending, this`delivered
      ensures Sound() && State() == Deliver(old(State())) && handed == old(delivered) && events == old(pending)
    {
      hide Deliver, CommandPipeline.Sound, CommandPipeline.State;
      StartEvents();
      MovePending();
    }

    method StartEvents()
      requires Sound()
      modifies this`events, this`handed
      ensures Sound() && handed == delivered && events == []
    {
      hide ValidStatic, ControlArbiter.Valid, GoalMonitor.Valid, SdkMotionBackend.Valid;
      handed, events := delivered, [];
    }

    /** Let the arbiter forget expired Servos, end their sessions and name the winners. */
    method ExpireServos(cycle: Cycle) returns (winners: seq<Id>)
      requires Valid()
      modifies this`permits, this`active, this`pending, this`sessions, this`outputs, this`via, this`successes,
        arbiter, monitor, backend
      ensures Valid() && Evolves(old(State()), State()) && Shrinks(old(State()), State())
      ensures WinnersInOrder(winners, Live(old(arbiter.claims), cycle.startedAt)) && WinnersApart(sessions, winners)
      ensures Unexpired(sessions, old(arbiter.claims), cycle.startedAt) && SameActivity(old(State()), State())
      ensures OnlyExpiredGone(old(State()), State(), cycle.startedAt)
      ensures AllEnded(old(sessions), sessions, STALE_FEEDBACK, pending)
    {
      hide InvX, Inv, Evolves, EndAll, Shrinks, WinnersInOrder, WinnersApart, Unexpired, CommandPipeline.ValidX;
      ghost var s := State();
      var arbitration := EvaluateArbiter(cycle);
      ghost var evaluated := State();
      EndAllShrinks(evaluated, arbitration.expired, ABORTED, STALE_FEEDBACK);
      EndAllClaims(evaluated, arbitration.expired, ABORTED, STALE_FEEDBACK);
      EndAllActivity(evaluated, arbitration.expired, ABORTED, STALE_FEEDBACK);
      EndAllFrame(evaluated, arbitration.expired, ABORTED, STALE_FEEDBACK);
      EndAllReports(evaluated, arbitration.expired, ABORTED, STALE_FEEDBACK);
      assert Members(arbitration.expired) - Members(arbitration.expired) == {};
      EndSessions(arbitration.expired, ABORTED, STALE_FEEDBACK, Members(arbitration.expired), {});
      EvolvesTransitive(s, evaluated, State());
      ShrinksTransitive(s, evaluated, State());
      WinnersHere(arbitration.winners, s.arbiter.claims, cycle.startedAt);
      return arbitration.winners;
    }

    lemma WinnersHere(winners: seq<Id>, claims: Claims, at: Time)
      requires Valid() && arbiter.claims == Live(claims, at) && WinnersInOrder(winners, arbiter.claims)
      ensures WinnersApart(sessions, winners) && Unexpired(sessions, claims, at)
    {
      hide InvX, WinnersInOrder, WinnersApart, Unexpired;
      WinnersOfSessions(st, State(), winners);
      SessionsUnexpired(st, State(), claims, at);
    }

    method EvaluateArbiter(cycle: Cycle) returns (arbitration: ArbitrationResult)
      requires Valid()
      modifies arbiter
      ensures ValidX(Gap(Members(arbitration.expired), {}, {})) && Evolves(old(State()), State())
      ensures Shrinks(old(State()), State())
      ensures WinnersInOrder(arbitration.winners, arbiter.claims)
      ensures arbiter.claims == Live(old(arbiter.claims), cycle.startedAt)
      ensures forall id :: id in arbitration.expired <==>
        id in old(arbiter.claims) && old(arbiter.claims)[id].Expired(cycle.startedAt)
    {
      hide InvX, Inv, ValidStatic, GoalMonitor.Valid, SdkMotionBackend.Valid, Evolves, WinnersInOrder;
      ghost var s := State();
      ArbiterHolds(st, s, CLOSED);
      arbitration := arbiter.EvaluateClaims(cycle.startedAt);
      ExpiredGap(st, s, cycle.startedAt, arbitration.expired);
    }

    /** Stop the backend of an active session that goes on without it. */
    method StopActive(id: Id)
      requires Valid() && id in active
      modifies this`sessions, this`active, this`outputs, backend
      ensures Valid() && Evolves(old(State()), State()) && State() == Deactivate(old(State()), id)
    {
      hide InvX, Evolves, Deactivate, CommandPipeline.Sound, CommandPipeline.State;
      Shown();
      DeactivateKeeps(st, State(), CLOSED, id);
      ActiveIsSession(st, State(), CLOSED, id);
      DeactivateParts(State(), id);
      StopBackend(id);
      Shown();
      MarkStopped(id);
    }

    method MarkStopped(id: Id)
      requires id in sessions
      modifies this`sessions, this`active, this`outputs
      ensures var s := old(State());
              id in s.sessions && State() == s.(
                active := s.active - {id}, outputs := s.outputs - {id},
                sessions := s.sessions[id := s.sessions[id].(started := false)])
    {
      active := active - {id};
      outputs := outputs - {id};
      sessions := sessions[id := sessions[id].(started := false)];
    }

    /** After too long a pause active Moves end, and active Servos start anew. */
    method StopPaused()
      requires Valid()
      modifies this`permits, this`active, this`pending, this`sessions, this`outputs, this`via, this`successes,
        arbiter, monitor, backend
      ensures Valid() && Evolves(old(State()), State()) && Shrinks(old(State()), State())
      ensures active == {} && NoMovesLeft(old(active), sessions)
      ensures OnlyMovesGone(old(State()), State())
      ensures old(pending) <= pending && AllEnded(old(sessions), sessions, TIMEOUT, pending)
    {
      hide InvX, Evolves, Shrinks, OnlyMovesGone, StoppedAreServos, OneStopped, NoMovesLeft, AllEnded,
        CommandPipeline.ValidX, CommandPipeline.State;
      ghost var s := State();
      Shown();
      EvolvesReflexive(s);
      DeliverShrinks(s);
      NothingStopped(s);
      while active != {}
        invariant Valid() && Evolves(s, State()) && Shrinks(s, State())
        invariant OnlyMovesGone(s, State()) && StoppedAreServos(s, State())
        invariant old(pending) <= pending && AllEnded(old(sessions), sessions, TIMEOUT, pending)
        decreases active
      {
        Shown();
        var id :| id in active;
        ghost var before := State();
        StopOne(id, s);
        StopStep(s, before, State(), id);
        Shown();
      }
      Shown();
      AllStopped(s, State());
    }

    method StopOne(id: Id, ghost s: State)
      requires Valid() && id in active && Evolves(s, State()) && Shrinks(s, State())
      modifies this`permits, this`active, this`pending, this`sessions, this`outputs, this`via, this`successes,
        arbiter, monitor, backend
      ensures Valid() && Evolves(s, State()) && Shrinks(s, State()) && active == old(active) - {id}
      ensures OneStopped(old(State()), State(), id) && old(pending) <= pending
    {
      hide InvX, Evolves, Shrinks, Terminate, Deactivate, OneStopped, CommandPipeline.ValidX, CommandPipeline.State;
      ghost var before := State();
      Shown();
      RunningGroup(id);
      StopEither(before, id);
      if sessions[id].request.kind.IsMove() {
        End(id, ABORTED, TIMEOUT, false);
      } else {
        StopActive(id);
      }
      Shown();
      EvolvesTransitive(s, before, State());
      StoppedShrinks(s, before, State(), id);
    }

    /** Active sessions that do not win are stopped. */
    method StopLosers(winners: seq<Id>)
      requires Valid()
      modifies this`sessions, this`active, this`outputs, backend
      ensures Valid() && Evolves(old(State()), State()) && Shrinks(old(State()), State())
      ensures active == old(active) * Members(winners) && sessions.Keys == old(sessions).Keys
    {
      hide InvX, Inv, Evolves, Shrinks, Deactivate, CommandPipeline.ValidX, CommandPipeline.State;
      ghost var s := State();
      EvolvesReflexive(s);
      DeliverShrinks(s);
      while !(active <= Members(winners))
        invariant Valid() && Evolves(s, State()) && Shrinks(s, State())
        invariant old(active) * Members(winners) <= active <= old(active) && sessions.Keys == old(sessions).Keys
        decreases active
      {
        var id :| id in active && id !in Members(winners);
        ghost var before := State();
        Shown();
        RunningGroup(id);
        DeactivateShrinks(before, id);
        DeactivateActive(before, id);
        StopActive(id);
        Shown();
        EvolvesTransitive(s, before, State());
        ShrinksTransitive(s, before, State());
      }
    }

    /** Hand over the events reported so far. */
    method DeliverPending()
      requires Valid()
      modifies this`events, this`pending, this`delivered
      ensures Valid() && Evolves(old(State()), State()) && State() == Deliver(old(State()))
      ensures events == old(events) + old(pending)
    {
      hide InvX, Evolves, Deliver, CommandPipeline.Sound, CommandPipeline.State;
      DeliverKeeps(st, State(), CLOSED);
      MovePending();
    }

    method MovePending()
      requires Sound()
      modifies this`events, this`pending, this`delivered
      ensures Sound() && State() == Deliver(old(State())) && events == old(events) + old(pending)
    {
      hide ValidStatic, ControlArbiter.Valid, GoalMonitor.Valid, SdkMotionBackend.Valid;
      events := events + pending;
      delivered, pending := delivered + pending, [];
    }

    /** Stop what may not go on: everything after a pause, and whoever does not win. */
    method StopForTick(winners: seq<Id>, paused: bool)
      requires Valid()
      modifies this`permits, this`active, this`pending, this`sessions, this`outputs, this`via, this`successes,
        this`delivered, this`events, arbiter, monitor, backend
      ensures Valid() && Evolves(old(State()), State()) && Shrinks(old(State()), State())
      ensures active <= Members(winners)
      ensures paused ==> active == {} && NoMovesLeft(old(active), sessions)
      ensures OnlyMovesGone(old(State()), State()) && (!paused ==> sessions.Keys == old(sessions).Keys)
      ensures AllEnded(old(sessions), sessions, TIMEOUT, events) && forall e :: e in old(pending) ==> e in events
    {
      hide InvX, Evolves, Shrinks, NoMovesLeft, CommandPipeline.ValidX, CommandPipeline.State;
      ghost var s := State();
      Shown();
      StopAndReport(paused);
      ghost var delivered := State();
      Shown();
      StopLosers(winners);
      EvolvesTransitive(s, delivered, State());
      ShrinksTransitive(s, delivered, State());
      Shown();
      if paused { NoMovesStay(delivered, State(), old(active)); }
    }

    /** After a pause everything stops; what has ended so far is reported. */
    method StopAndReport(paused: bool)
      requires Valid()
      modifies this`permits, this`active, this`pending, this`sessions, this`outputs, this`via, this`successes,
        this`delivered, this`events, arbiter, monitor, backend
      ensures Valid() && Evolves(old(State()), State()) && Shrinks(old(State()), State())
      ensures paused ==> active == {} && NoMovesLeft(old(active), sessions)
      ensures OnlyMovesGone(old(State()), State()) && (!paused ==> sessions.Keys == old(sessions).Keys)
      ensures AllEnded(old(sessions), sessions, TIMEOUT, events) && forall e :: e in old(pending) ==> e in events
    {
      hide InvX, Evolves, Shrinks, NoMovesLeft, CommandPipeline.ValidX, CommandPipeline.State;
      ghost var s := State();
      Shown();
      EvolvesReflexive(s);
      DeliverShrinks(s);
      if paused { StopPaused(); }
      ghost var stopped := State();
      Shown();
      DeliverPending();
      DeliverShrinks(stopped);
      EvolvesTransitive(s, stopped, State());
      ShrinksTransitive(s, stopped, State());
      Shown();
    }

    /** Everything before the winners take their turns. */
    method PrepareTick(feedback: Feedback, now: Time) returns (cycle: Cycle, winners: seq<Id>)
      requires Valid()
      modifies this`permits, this`active, this`pending, this`sessions, this`outputs, this`via, this`successes,
        this`lastTick, this`currentPeriod, this`commands, this`events, this`handed, this`delivered, arbiter, monitor,
        backend, clock
      ensures Valid() && Evolves(old(State()), State()) && Shrinks(old(State()).(commands := []), State())
      ensures handed == old(delivered) && commands == []
      ensures cycle.feedback == feedback && cycle.now == now && cycle.startedAt >= now && lastTick == Some(now)
      ensures cycle.startedAt <= now + (clock.now - cycle.enteredAt)
      ensures WinnersInOrder(winners, Live(old(arbiter.claims), cycle.startedAt)) && WinnersApart(sessions, winners)
      ensures active <= Members(winners) && Unexpired(sessions, old(arbiter.claims), cycle.startedAt)
      ensures Paused(old(lastTick), now, st.config.MaxPeriod()) ==> active == {} && NoMovesLeft(old(active), sessions)
      ensures OnlyLost(
        old(State()), State(), [], cycle.startedAt, Paused(old(lastTick), now, st.config.MaxPeriod()))
      ensures cycle.enteredAt <= clock.now && LostReported(old(sessions), sessions, [], events)
    {
      hide InvX, Inv, Evolves, Shrinks, WinnersInOrder, WinnersApart, Unexpired, NoMovesLeft, SameActivity,
        OnlyExpiredGone, OnlyMovesGone, OnlyLost, AllEnded, LostReported, CommandPipeline.ValidX,
        CommandPipeline.State;
      ghost var s := State();
      Shown();
      var paused: bool;
      cycle, paused := BeginTick(feedback, now);
      ghost var begun := State();
      Shown();
      Invariant();
      DeliverShrinks(s.(commands := []));
      winners := ExpireServos(cycle);
      Shown();
      ghost var expired, reported := State(), pending;
      EvolvesTransitive(s, begun, expired);
      ShrinksTransitive(s.(commands := []), begun, expired);
      StopForTick(winners, paused);
      Shown();
      EvolvesTransitive(s, expired, State());
      ShrinksTransitive(s.(commands := []), expired, State());
      ApartShrinks(expired, State(), winners);
      UnexpiredShrinks(expired, State(), s.arbiter.claims, cycle.startedAt);
      if paused { NoMovesShrinks(begun, expired, State()); }
      LostInStages(begun, expired, State(), [], cycle.startedAt, paused);
      LostAreReported(begun, expired, cycle.startedAt, reported);
      LostFrom(s, begun, State(), [], cycle.startedAt, paused);
    }

    /** The winners take their turns in rank order. */
    method ProcessWinners(winners: seq<Id>, cycle: Cycle) returns (ghost turns: seq<Turn>)
      requires Valid() && WinnersApart(sessions, winners) && active <= Members(winners) && commands == []
      requires cycle.enteredAt <= clock.now
      modifies this`permits, this`active, this`pending, this`sessions, this`outputs, this`via, this`successes,
        this`nextToken, this`commands, this`issued, this`retryAfter, this`delivered, this`events, arbiter, monitor,
        backend, backend.sdk, clock
      ensures Valid() && Evolves(old(State()), State()) && Ticked(old(State()), State(), winners, cycle)
      ensures clock.now >= old(clock.now) && (commands != [] ==> WellFormedFeedback(cycle.feedback))
      ensures AllWatched(State(), winners, cycle.now, st.config)
      ensures old(Answers()) <= Answers() && HandedOut(turns, commands) && FailuresReported(winners, turns, pending)
      ensures TurnsOk(
        st, monitor.config, old(State()), cycle, old(retryAfter), winners, turns, |old(Answers())|, Answers(),
        At(cycle))
    {
      hide InvX, Inv, Evolves, Ticked, WinnersApart, WellFormedFeedback, Watched, TurnOk, RetriesLeft,
        CommandPipeline.ValidX, CommandPipeline.State;
      ghost var s, retries, first := State(), retryAfter, |Answers()|;
      Shown();
      EvolvesReflexive(s);
      Invariant();
      TickBegins(st, s, cycle);
      turns := [];
      RetriesAtStart(s, winners, retryAfter);
      for k := 0 to |winners|
        invariant Valid() && Evolves(s, State()) && Ticked(s, State(), winners[..k], cycle)
        invariant active <= Members(winners) && clock.now >= old(clock.now)
        invariant AllWatched(State(), winners[..k], cycle.now, st.config)
        invariant commands != [] ==> WellFormedFeedback(cycle.feedback)
        invariant old(Answers()) <= Answers() && HandedOut(turns, commands)
        invariant FailuresReported(winners[..k], turns, pending)
        invariant RetriesLeft(s, winners, k, retries, retryAfter)
        invariant TurnsOk(
            st, monitor.config, s, cycle, retries, winners[..k], turns, first, Answers(), At(cycle))
      {
        turns := TakeTurn(winners, k, cycle, s, retries, first, turns);
      }
      assert winners[..|winners|] == winners;
    }

    method TakeTurn(
      winners: seq<Id>, k: nat, cycle: Cycle, ghost s: State, ghost retries: map<string, Time>, ghost first: nat,
      ghost earlier: seq<Turn>)
      returns (ghost turns: seq<Turn>)
      requires Valid() && Evolves(s, State()) && k < |winners| && Ticked(s, State(), winners[..k], cycle)
      requires WinnersApart(s.sessions, winners) && active <= Members(winners) && InvX(st, s, CLOSED)
      requires AllWatched(State(), winners[..k], cycle.now, st.config)
      requires cycle.enteredAt <= clock.now && first <= |Answers()| && HandedOut(earlier, commands)
      requires FailuresReported(winners[..k], earlier, pending)
      requires RetriesLeft(s, winners, k, retries, retryAfter)
      requires TurnsOk(
        st, monitor.config, s, cycle, retries, winners[..k], earlier, first, Answers(), At(cycle))
      modifies this`permits, this`active, this`pending, this`sessions, this`outputs, this`via, this`successes,
        this`nextToken, this`commands, this`issued, this`retryAfter, this`delivered, this`events, arbiter, monitor,
        backend, backend.sdk, clock
      ensures Valid() && Evolves(s, State()) && Ticked(s, State(), winners[..k + 1], cycle)
      ensures active <= Members(winners) && clock.now >= old(clock.now)
      ensures AllWatched(State(), winners[..k + 1], cycle.now, st.config)
      ensures commands != [] ==> old(commands) != [] || WellFormedFeedback(cycle.feedback)
      ensures old(Answers()) <= Answers() && HandedOut(turns, commands)
      ensures FailuresReported(winners[..k + 1], turns, pending)
      ensures RetriesLeft(s, winners, k + 1, retries, retryAfter)
      ensures TurnsOk(
        st, monitor.config, s, cycle, retries, winners[..k + 1], turns, first, Answers(), At(cycle))
    {
      hide InvX, Inv, Evolves, Ticked, WinnersApart, WellFormedFeedback, Concluded, Processed, Watched, AllWatched,
        TurnOk, TurnsOk, RetriesLeft, HandedOut, FailuresReported, Apart, CommandPipeline.ValidX,
        CommandPipeline.State, CommandPipeline.RetryKept;
      ghost var before, answers, commanded, reported, at0 := State(), Answers(), commands, pending, At(cycle);
      ghost var waits := retryAfter;
      Shown();
      Known();
      var id := winners[k];
      assert winners[..k + 1] == winners[..k] + [id];
      if id !in sessions {
        TurnSkipped(s, before, winners[..k], id, cycle);
        SkippedWatched(before, winners[..k], id, cycle.now, st.config);
        SkipsTurn(st, monitor.config, s, before, winners, k, cycle, retries, retryAfter);
        OneMoreTurn(
          st, monitor.config, s, cycle, retries, winners[..k], id, earlier, Skipped, first, answers, at0, answers, at0);
        HandedMore(earlier, Skipped, commands, commands);
        ReportedMore(winners[..k], id, earlier, Skipped, pending, pending);
        return earlier + [Skipped];
      }
      TurnIsApart(s, before, winners, k, cycle);
      Invariant();
      HeldSession(id, CLOSED);
      ghost var judgement, at, shaped := ProcessWinner(id, cycle);
      EvolvesTransitive(s, before, State());
      ConcludedIsProcessed(before, State(), id, cycle, monitor.config, judgement);
      TurnWithin(st, s, before, State(), winners, k, cycle);
      TurnsWatched(before, State(), winners[..k], id, cycle, st.config);
      Shown();
      ghost var turn := Taken(
        before.sessions[id], judgement, Answers(), |answers|, shaped, At(cycle), Added(commanded, commands));
      TurnHappened(s, before, winners, k, cycle, retries, waits, judgement, shaped, |answers|);
      TurnUntouched(s, before, winners, k, cycle);
      RetryElsewhere(before.sessions[id], cycle, judgement, waits, at0);
      RetriesLeftNext(st, s, winners, k, retries, waits, retryAfter);
      OneMoreTurn(
        st, monitor.config, s, cycle, retries, winners[..k], id, earlier, turn, first, answers, at0, Answers(),
        At(cycle));
      TurnAdds(before, State(), id, cycle);
      HandedMore(earlier, turn, commanded, commands);
      ConcludedReports(before, State(), id, cycle, monitor.config, judgement);
      ReportedMore(winners[..k], id, earlier, turn, reported, pending);
      return earlier + [turn];
    }

    /** How the turn at `k` went, seen from the first of the tick's turns. */
    lemma TurnHappened(
      s: State, before: State, winners: seq<Id>, k: nat, cycle: Cycle, retries: map<string, Time>,
      waits: map<string, Time>, judgement: Judgement, shaped: int, from: nat)
      requires k < |winners| && WinnersApart(s.sessions, winners) && Ticked(s, before, winners[..k], cycle)
      requires Concluded(before, State(), winners[k], cycle, monitor.config, judgement)
      requires winners[k] in before.sessions && before.arbiter.policies == endpoints
      requires var session := before.sessions[winners[k]];
        && session.endpoint in endpoints && session.id == winners[k]
        && session.group in st.groups && ValidGroup(st.groups[session.group])
        && (judgement.Waiting? ==> session.endpoint in waits && cycle.now < waits[session.endpoint])
        && (judgement.Failed? ==> Fails(before, winners[k], cycle, from, judgement.failure))
        && (!judgement.Waiting? && !judgement.Failed? ==>
              Turned(
                st, session, LeaseOf(session), cycle, Answers(), from, shaped,
                Replaced(cycle, monitor.config, judgement), before.commands, commands))
      requires RetriesLeft(s, winners, k, retries, waits)
      ensures TurnOk(
        st, monitor.config, s, cycle, retries, winners[k],
        Taken(
          before.sessions[winners[k]], judgement, Answers(), from, shaped, At(cycle), Added(before.commands, commands)))
    {
      hide Concluded, Ticked, WinnersApart, RetriesLeft, FailedAs, Founded, Turned, Replaced, TurnOk, ValidGroup,
        CommandPipeline.State;
      Shown();
      TurnUntouched(s, before, winners, k, cycle);
      WaitsAsBefore(s, winners, k, retries, waits);
      TurnIsOk(
        st, monitor.config, before, State(), winners[k], cycle, retries, judgement, Answers(), from, shaped, At(cycle));
      TurnAmongOthers(
        st, monitor.config, s, before, winners, k, cycle, retries,
        Taken(
          before.sessions[winners[k]], judgement, Answers(), from, shaped, At(cycle),
          Added(before.commands, commands)));
    }

    /** Only the endpoint whose turn it was may have to wait otherwise. */
    lemma RetryElsewhere(
      session: Session, cycle: Cycle, judgement: Judgement, before: map<string, Time>, since: Time)
      requires RetryKept(session, cycle, judgement, before, since)
      ensures forall e :: e != session.endpoint ==> SameWait(before, retryAfter, e)
    {
    }

    lemma Invariant()
      requires Valid()
      ensures InvX(st, State(), CLOSED)
      ensures monitor.config.moveTimeout == st.config.moveTimeout
      ensures monitor.config.stableDuration == st.config.stableDuration
    {
      hide InvX;
    }

    /**
      Before the commands are handed over: a later session's computation may have outlasted an
      earlier one's deadline.
    */
    method Recheck(winners: seq<Id>, cycle: Cycle, ghost s: State) returns (ghost at: Time)
      requires Valid() && Evolves(s, State()) && Ticked(s, State(), winners, cycle)
      requires AllWatched(State(), winners, cycle.now, st.config)
      modifies this`permits, this`active, this`pending, this`sessions, this`outputs, this`via, this`successes,
        this`commands, arbiter, monitor, backend, clock
      ensures Valid() && Evolves(s, State()) && Ticked(s, State(), winners, cycle) && AllValid(commands, |commands|, at)
      ensures AllWatched(State(), winners, cycle.now, st.config)
      ensures at == cycle.now + (clock.now - cycle.enteredAt) && clock.now >= old(clock.now)
      ensures commands != [] ==> old(commands) != []
      ensures forall c :: c in old(commands) && c !in commands ==>
        c.validUntil.Some? && at >= c.validUntil.value && c.session !in sessions
      ensures old(pending) <= pending
    {
      hide InvX, Inv, Evolves, Ticked, AllWatched, CommandPipeline.ValidX, CommandPipeline.State;
      var finishedAt := CurrentTime(cycle);
      at := finishedAt;
      var k := 0;
      while k < |commands|
        invariant Valid() && Evolves(s, State()) && Ticked(s, State(), winners, cycle) && AllValid(commands, k, at)
        invariant AllWatched(State(), winners, cycle.now, st.config) && (commands != [] ==> old(commands) != [])
        invariant forall c :: c in old(commands) && c !in commands ==>
          c.validUntil.Some? && at >= c.validUntil.value && c.session !in sessions
        invariant at == cycle.now + (clock.now - cycle.enteredAt) && clock.now >= old(clock.now)
        invariant old(pending) <= pending
        decreases |commands| - k
      {
        HasDeadline(s, winners, cycle, k);
        if finishedAt >= commands[k].validUntil.value {
          ghost var before := commands;
          DropCommand(k, s, winners, cycle);
          assert before == before[..k] + [before[k]] + before[k + 1..];
        } else {
          k := k + 1;
        }
      }
    }

    lemma HasDeadline(s: State, winners: seq<Id>, cycle: Cycle, k: nat)
      requires Valid() && k < |commands| && Ticked(s, State(), winners, cycle)
      ensures commands[k].validUntil.Some?
    {
      hide InvX, CommandsOk, SessionsLeft, Served;
      IssuedHasDeadline(st, s, State(), winners, cycle, k);
    }

    method DropCommand(k: nat, ghost s: State, winners: seq<Id>, cycle: Cycle)
      requires Valid() && Evolves(s, State()) && Ticked(s, State(), winners, cycle) && k < |commands|
      requires AllWatched(State(), winners, cycle.now, st.config)
      modifies this`permits, this`active, this`pending, this`sessions, this`outputs, this`via, this`successes,
        this`commands, arbiter, monitor, backend
      ensures Valid() && Evolves(s, State()) && Ticked(s, State(), winners, cycle)
      ensures AllWatched(State(), winners, cycle.now, st.config)
      ensures commands == old(commands)[..k] + old(commands)[k + 1..]
      ensures sessions == old(sessions) - {old(commands)[k].session} && old(pending) <= pending
    {
      hide InvX, Inv, Evolves, Ticked, Terminate, AllWatched, GoalMonitor.Valid, SdkMotionBackend.Valid, ValidStatic;
      ghost var before := State();
      DropKeeps(st, s, before, winners, cycle, k);
      DropAllWatched(before, k, winners, cycle.now, st.config);
      TerminateFrame(before, commands[k].session, ABORTED, TIMEOUT, false);
      TerminateAppends(before, commands[k].session, ABORTED, TIMEOUT, false);
      End(commands[k].session, ABORTED, TIMEOUT, false);
      commands := commands[..k] + commands[k + 1..];
      EvolvesTransitive(s, before, State());
    }

    method FinishTick(winners: seq<Id>, cycle: Cycle, ghost paused: bool, ghost s: State, ghost s0: State)
      returns (ghost at: Time)
      requires Valid() && Evolves(s, State()) && Evolves(s0, s) && Ticked(s, State(), winners, cycle)
      requires Shrinks(s0.(commands := []), s) && WinnersApart(s.sessions, winners) && s.active <= Members(winners)
      requires OnlyLost(s0, s, winners, cycle.startedAt, paused) && AllWatched(State(), winners, cycle.now, st.config)
      modifies this`permits, this`active, this`pending, this`sessions, this`outputs, this`via, this`successes,
        this`commands, this`delivered, this`events, arbiter, monitor, backend, clock
      ensures Valid() && Evolves(s0, State())
      ensures TickResult(st.config, s0, State(), winners, cycle, paused, at)
      ensures at == cycle.now + (clock.now - cycle.enteredAt) && clock.now >= old(clock.now)
      ensures commands != [] ==> old(commands) != []
      ensures forall id :: id in sessions ==> id in s.sessions && Continues(s.sessions[id], sessions[id])
      ensures forall c :: c in old(commands) && c !in commands ==>
        c.validUntil.Some? && at >= c.validUntil.value
      ensures forall e :: e in old(pending) ==> e in events
      ensures Evolves(s, State()) && forall id :: id in s.sessions && id !in sessions ==> id in winners
    {
      hide InvX, Inv, Evolves, Shrinks, Ticked, TickResult, WinnersApart, AllValid, AllWatched, OnlyLost,
        CommandPipeline.ValidX, CommandPipeline.State;
      ghost var reported := pending;
      at := Recheck(winners, cycle, s);
      ghost var checked := State();
      Shown();
      forall e | e in reported ensures e in pending { InPrefix(reported, pending, e); }
      DeliverPending();
      EvolvesTransitive(s, checked, State());
      EvolvesTransitive(s0, s, State());
      TickEnds(st.config, s0, s, checked, winners, cycle, paused, at);
      TickedContinues(s, checked, winners, cycle);
      Shown();
    }

    /**
      One control tick. Every command handed over belongs to a winner of the arbitration
      at the tick's start, holds a fresh permit on each of its joints, carries the
      deadline of its inputs and is not past it; no two commands share a joint. Only
      winners, expired Servos and, after a pause, active Moves may end.
    */
    method Tick(feedback: Feedback, now: Time)
      returns (ghost cycle: Cycle, ghost winners: seq<Id>, ghost turns: seq<Turn>, ghost finishedAt: Time)
      requires Valid()
      modifies this`permits, this`active, this`pending, this`sessions, this`outputs, this`via, this`successes,
        this`nextToken, this`commands, this`issued, this`retryAfter, this`delivered, this`events, this`handed,
        this`lastTick, this`currentPeriod, arbiter, monitor, backend, backend.sdk, clock
      ensures Valid() && Evolves(old(State()), State())
      ensures TickResult(
        st.config, old(State()), State(), winners, cycle, Paused(old(lastTick), now, st.config.MaxPeriod()), finishedAt)
      ensures delivered == old(delivered) + events
      ensures cycle.feedback == feedback && cycle.now == now && now <= cycle.startedAt <= finishedAt
      ensures lastTick == Some(now)
      ensures WinnersInOrder(winners, Live(old(arbiter.claims), cycle.startedAt))
      ensures Unexpired(sessions, old(arbiter.claims), cycle.startedAt)
      ensures commands != [] ==> WellFormedFeedback(feedback)
      // After too long a pause no Move that ran goes on.
      ensures
        && old(lastTick).Some? && now > old(lastTick).value + st.config.period
        && now > old(lastTick).value + st.config.maxControlPeriod ==>
        forall id :: id in old(active) && id in sessions ==>
          sessions[id].request.kind == ServoJ || sessions[id].request.kind == ServoP
      // Every live Servo's last target was within its lease when the tick began; whoever was lost without a turn
      // was not, or was a running Move after too long a pause.
      ensures forall id |
          id in sessions && (sessions[id].request.kind == ServoJ || sessions[id].request.kind == ServoP) ::
        && sessions[id].endpoint in endpoints
        && cycle.startedAt < sessions[id].submittedAt + endpoints[sessions[id].endpoint].lease
      ensures forall id | id in old(sessions) && id !in sessions && id !in winners ::
        var session := old(sessions)[id];
        if session.request.kind == ServoJ || session.request.kind == ServoP then
          && session.endpoint in endpoints
          && cycle.startedAt >= session.submittedAt + endpoints[session.endpoint].lease
        else
          && id in old(active) && old(lastTick).Some? && now > old(lastTick).value + st.config.period
          && now > old(lastTick).value + st.config.maxControlPeriod
      ensures forall id | id in old(sessions) && id !in sessions && id !in winners ::
        var session := old(sessions)[id];
        if session.request.kind == ServoJ || session.request.kind == ServoP
        then Event(id, ABORTED, STALE_FEEDBACK, session.serial) in events
        else Event(id, ABORTED, TIMEOUT, session.serial) in events
      // How each winner's turn went.
      ensures old(Answers()) <= Answers()
      ensures TurnsResult(
        st, monitor.config, old(State()), cycle, old(retryAfter), winners, turns, |old(Answers())|, Answers(), commands,
        events, Paused(old(lastTick), now, st.config.MaxPeriod()), finishedAt)
    {
      hide InvX, Inv, Evolves, Shrinks, TickResult, WinnersInOrder, WinnersApart, Unexpired, NoMovesLeft, OnlyLost,
        WellFormedFeedback, Continues, TurnsResult, CommandPipeline.ValidX, CommandPipeline.State,
        CommandPipeline.Paused;
      ghost var s0 := State();
      Shown();
      Known();
      var order: seq<Id>;
      var inputs: Cycle;
      ghost var paused := Paused(lastTick, now, st.config.MaxPeriod());
      inputs, order := PrepareTick(feedback, now);
      cycle, winners := inputs, order;
      Shown();
      PauseIsLong(old(lastTick), now, st.config);
      turns, finishedAt := RunTick(order, inputs, paused, s0);
      if paused { MovesAreGone(s0.active, sessions); }
      HandedOver();
    }

    /** The winners take their turns, and what they came to is handed over. */
    method RunTick(winners: seq<Id>, cycle: Cycle, ghost paused: bool, ghost s0: State)
      returns (ghost turns: seq<Turn>, ghost finishedAt: Time)
      requires Valid() && Evolves(s0, State()) && Shrinks(s0.(commands := []), State()) && InvX(st, s0, CLOSED)
      requires WinnersApart(sessions, winners) && active <= Members(winners) && commands == []
      requires cycle.enteredAt <= clock.now && OnlyLost(s0, State(), [], cycle.startedAt, paused)
      requires LostReported(s0.sessions, sessions, [], events)
      requires WinnersInOrder(winners, Live(s0.arbiter.claims, cycle.startedAt)) && s0.arbiter.policies == endpoints
      requires Unexpired(sessions, s0.arbiter.claims, cycle.startedAt) && (paused ==> NoMovesLeft(s0.active, sessions))
      modifies this`permits, this`active, this`pending, this`sessions, this`outputs, this`via, this`successes,
        this`nextToken, this`commands, this`issued, this`retryAfter, this`delivered, this`events, arbiter, monitor,
        backend, backend.sdk, clock
      ensures Valid() && Evolves(s0, State()) && clock.now >= old(clock.now) && finishedAt == At(cycle)
      ensures TickResult(st.config, s0, State(), winners, cycle, paused, finishedAt)
      ensures commands != [] ==> WellFormedFeedback(cycle.feedback)
      ensures LostReported(s0.sessions, sessions, winners, events)
      ensures Unexpired(sessions, s0.arbiter.claims, cycle.startedAt) && (paused ==> NoMovesLeft(s0.active, sessions))
      ensures forall id |
          id in sessions && (sessions[id].request.kind == ServoJ || sessions[id].request.kind == ServoP) ::
        && sessions[id].endpoint in endpoints
        && cycle.startedAt < sessions[id].submittedAt + endpoints[sessions[id].endpoint].lease
      ensures forall id | id in s0.sessions && id !in sessions && id !in winners ::
        var session := s0.sessions[id];
        if session.request.kind == ServoJ || session.request.kind == ServoP then
          session.endpoint in endpoints && cycle.startedAt >= session.submittedAt + endpoints[session.endpoint].lease
        else paused && id in s0.active
      ensures old(Answers()) <= Answers()
      ensures TurnsResult(
        st, monitor.config, s0, cycle, old(retryAfter), winners, turns, |old(Answers())|, Answers(), commands, events,
        paused, finishedAt)
    {
      hide InvX, Inv, Evolves, Shrinks, Ticked, TickResult, WinnersInOrder, WinnersApart, AllWatched, OnlyLost,
        WellFormedFeedback, Continues, TurnsOk, TurnsResult, HandedOut, FailuresReported, Unexpired, NoMovesLeft,
        LostReported, CommandPipeline.ValidX, CommandPipeline.State;
      ghost var s, prepared := State(), events;
      HandedOver();
      Shown();
      turns := ProcessWinners(winners, cycle);
      ghost var until, added, reported := At(cycle), commands, pending;
      OnlyLostMore(s0, s, winners, cycle.startedAt, paused);
      finishedAt := FinishTick(winners, cycle, paused, s, s0);
      HandedOver();
      Shown();
      EventsGrow(s, State(), handed, prepared, events);
      LostReportedMore(s0.sessions, s.sessions, sessions, winners, prepared, events);
      TurnsEnd(
        st, monitor.config, s0, s, cycle, old(retryAfter), winners, turns, |old(Answers())|, Answers(), until, added,
        commands, reported, events, paused, finishedAt);
      FewerSessions(s.sessions, sessions, s0.arbiter.claims, cycle.startedAt, s0.active);
      WhoIsLeft(s0, winners, paused, finishedAt, cycle);
    }

    /** Whoever is lost before the turns is among the events already handed over. */
    lemma LostAreReported(s: State, expired: State, at: Time, reported: seq<Event>)
      requires InvX(st, s, CLOSED) && OnlyExpiredGone(s, expired, at)
      requires OnlyMovesGone(expired, State()) && Shrinks(s, expired)
      requires AllEnded(s.sessions, expired.sessions, STALE_FEEDBACK, reported)
      requires forall e :: e in reported ==> e in events
      requires AllEnded(expired.sessions, sessions, TIMEOUT, events)
      ensures LostReported(s.sessions, sessions, [], events)
    {
      hide InvX, AllEnded, LostReported;
      LostInTwo(st, s, expired.sessions, sessions, at, reported, events);
    }

    static lemma PauseIsLong(lastTick: Option<Time>, now: Time, config: PipelineModel.Config)
      ensures Paused(lastTick, now, config.MaxPeriod()) <==>
        lastTick.Some? && now > lastTick.value + config.period && now > lastTick.value + config.maxControlPeriod
    {
    }

    /** Who is left of the sessions, and who is lost without a turn. */
    lemma WhoIsLeft(s: State, winners: seq<Id>, paused: bool, finishedAt: Time, cycle: Cycle)
      requires InvX(st, s, CLOSED) && TickResult(st.config, s, State(), winners, cycle, paused, finishedAt)
      requires s.arbiter.policies == endpoints && Unexpired(sessions, s.arbiter.claims, cycle.startedAt)
      ensures forall id |
          id in sessions && (sessions[id].request.kind == ServoJ || sessions[id].request.kind == ServoP) ::
        && sessions[id].endpoint in endpoints
        && cycle.startedAt < sessions[id].submittedAt + endpoints[sessions[id].endpoint].lease
      ensures forall id | id in s.sessions && id !in sessions && id !in winners ::
        var session := s.sessions[id];
        if session.request.kind == ServoJ || session.request.kind == ServoP then
          session.endpoint in endpoints && cycle.startedAt >= session.submittedAt + endpoints[session.endpoint].lease
        else paused && id in s.active
    {
      hide InvX, CommandsOk, Served, AllWatched, OnlyLost, Unexpired, Continues, Overlaps, CommandPipeline.State;
      Shown();
      ServosAreCurrent(st, s, sessions, cycle.startedAt);
      LostWithoutTurn(st, s, State(), winners, cycle.startedAt, paused);
    }

    lemma HandedOver()
      requires Valid()
      ensures delivered == handed + events
    {
      hide InvX;
    }
  }
}
