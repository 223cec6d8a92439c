/**
  The state of the command pipeline as one value, the invariant that ties its
  redundant parts together, and the elementary changes its methods are made of.
*/
module PipelineModel {
  import opened MotionTypes
  import opened Arbitration
  import opened ControlArbiters
  import opened LimitRecovery
  import opened SdkBackend
  import Goals = GoalMonitors

  datatype Config = Config(
    feedbackMaxAge: Time, period: Time, maxControlPeriod: Time, servoRetry: Time, moveTimeout: Time,
    stableDuration: Time,
    recovery: RecoveryConfig)
  {
    function MaxPeriod(): Time { Max(period, maxControlPeriod) }
  }

  datatype Static = Static(config: Config, groups: map<string, Group>)

  ghost predicate ValidStatic(st: Static) {
    && st.config.period > 0 && st.config.feedbackMaxAge > 0 && st.config.recovery.margin >= 0.0
    && forall name :: name in st.groups ==> st.groups[name].name == name && ValidGroup(st.groups[name])
  }

  /** `check` is the outcome of validating the request's limits and target against its group. */
  datatype Request = Request(
    kind: Kind, id: Id, group: string, check: Code, velocityLimits: seq<real>, waypoints: nat, goal: JointTarget)

  /**
    `serial` numbers the sessions in the order they are created, `generation` is the one the
    creating call carried; nothing depends on them.
  */
  datatype Session = Session(
    endpoint: string, id: Id, group: string, joints: seq<Joint>, request: Request, submittedAt: Time,
    started: bool, last: JointTarget, recovering: bool, serial: nat, generation: nat)

  datatype SessionState = RUNNING | SUCCEEDED | PREEMPTED | CANCELED | ABORTED {
    predicate Terminal() { !RUNNING? }
  }

  datatype Event = Event(session: Id, state: SessionState, code: Code, serial: nat)

  datatype Permit = Permit(session: Id, token: nat)

  /**
    Where a command's positions come from: bringing the joints to rest, or following the
    outputs of one backend start, the measured positions it began with first.
  */
  datatype Source = Stop | Along(start: nat, trail: seq<seq<real>>)

  /** A command as it was returned, for whom, and the inputs its deadline was taken from. */
  datatype Issue = Issue(
    command: JointCommand, kind: Kind, serial: nat, feedbackAt: Time, startedAt: Time, submittedAt: Time, lease: Time,
    source: Source)

  /** A published command, when it was approved, and how much had been published before its call. */
  datatype Publication = Publication(command: JointCommand, at: Time, call: nat)

  /** What a success rests on: the observations of its goal and, unless a MoveJ's, the start whose path was reached. */
  datatype Success = Success(history: seq<Goals.Observation>, start: Option<nat>)

  datatype State = State(
    enabled: bool, generation: nat,
    arbiter: Arbiter,
    sessions: map<Id, Session>,
    active: set<Id>,
    starts: seq<Start>,
    current: map<Id, nat>,
    goals: map<Id, Goals.Goal>,
    histories: map<Id, seq<Goals.Observation>>,
    via: map<Id, nat>,
    permits: map<Joint, Permit>,
    nextToken: nat,
    pending: seq<Event>,
    delivered: seq<Event>,
    commands: seq<JointCommand>,
    created: nat,
    requests: seq<Request>,
    issued: map<nat, Issue>,
    published: seq<Publication>,
    outputs: map<Id, seq<seq<real>>>,
    successes: map<nat, Success>)

  function ServoId(endpoint: string): Id { "servo:" + endpoint }

  predicate IsServoId(id: Id) { |id| >= 6 && id[..6] == "servo:" }

  function ClaimFor(session: Session): Claim {
    Claim(session.id, session.endpoint, session.group, session.request.kind, session.joints)
  }

  // ---- The invariant, part by part ----

  /** Where a method may stand between two changes that belong together. */
  datatype Gap = Gap(gone: set<Id>, entering: set<Id>, starting: set<Id>) {
    function Without(id: Id): Gap { Gap(gone - {id}, entering, starting - {id}) }
  }

  const CLOSED := Gap({}, {}, {})

  predicate SessionOk(policies: map<string, Policy>, groups: map<string, Group>, id: Id, session: Session) {
    && session.id == id && id != ""
    && session.endpoint in policies && session.group in groups
    && policies[session.endpoint].group == session.group && policies[session.endpoint].kind == session.request.kind
    && session.joints == groups[session.group].joints
    && (if session.request.kind.IsServo() then id == ServoId(session.endpoint) else !IsServoId(id))
    && (session.request.velocityLimits == [] || |session.request.velocityLimits| == |session.joints|)
    && (session.request.kind == MoveP ==> session.request.waypoints > 0)
  }

  predicate ClaimAgrees(claims: Claims, id: Id, session: Session) {
    id in claims && claims[id].claim == ClaimFor(session) && claims[id].receivedAt == session.submittedAt
  }

  /** Sessions and arbiter claims name the same ids with the same joints and receipt times. */
  ghost predicate Agree(sessions: map<Id, Session>, arbiter: Arbiter, groups: map<string, Group>, gap: Gap) {
    && Inv(arbiter)
    && gap.gone <= sessions.Keys
    && sessions.Keys - gap.gone == arbiter.claims.Keys - gap.entering
    && (forall id :: id in sessions ==> SessionOk(arbiter.policies, groups, id, sessions[id]))
    && (forall id :: id in sessions && id !in gap.gone ==> ClaimAgrees(arbiter.claims, id, sessions[id]))
  }

  /** The backend's live sessions are the active ones, and those marked started. */
  ghost predicate BackendAgrees(sessions: map<Id, Session>, active: set<Id>, live: set<Id>, gap: Gap) {
    && active <= sessions.Keys
    && (forall id :: id in sessions ==> (sessions[id].started <==> id in active))
    && (forall id :: id in live <==> id in active || id in gap.starting)
    && (forall id :: id in gap.starting ==> id in sessions && id !in active)
  }

  ghost predicate ActiveDisjoint(sessions: map<Id, Session>, active: set<Id>) {
    forall a, b :: a in active && b in active && a != b && a in sessions && b in sessions ==>
      !Overlaps(sessions[a].joints, sessions[b].joints)
  }

  /** The start of a live backend session is its session's own. */
  ghost predicate StartsOk(sessions: map<Id, Session>, starts: seq<Start>, current: map<Id, nat>) {
    && (forall id :: id in current ==> current[id] < |starts|)
    && (forall a, b :: a in current && b in current && a != b ==> current[a] != current[b])
    && (forall id :: id in current && id in sessions ==> OwnStart(sessions[id], starts[current[id]]))
  }

  predicate OwnStart(session: Session, start: Start) {
    && start.owner == session.serial && start.group == session.group && start.kind == session.request.kind
    && (start.kind == MoveP ==> start.waypoints == session.request.waypoints)
  }

  /**
    The requests sessions were created with; a Move keeps its own, and commands are returned
    for requests of their kind.
  */
  ghost predicate RequestsOk(
    sessions: map<Id, Session>, requests: seq<Request>, created: nat, issued: map<nat, Issue>)
  {
    && |requests| == created
    && (forall t :: t in issued ==> OfRequest(issued[t], requests))
    && forall id :: id in sessions ==>
         && sessions[id].serial < created && requests[sessions[id].serial].kind == sessions[id].request.kind
         && (sessions[id].request.kind.IsMove() ==> requests[sessions[id].serial] == sessions[id].request)
  }

  predicate OfRequest(issue: Issue, requests: seq<Request>) {
    issue.serial < |requests| && requests[issue.serial].kind == issue.kind
  }

  /**
    Goals of live Moves are watched, a MoveL's or MoveP's because the SDK reported its path
    reached; a MoveJ's as long as it runs.
  */
  ghost predicate WatchOk(
    sessions: map<Id, Session>, goals: map<Id, Goals.Goal>, histories: map<Id, seq<Goals.Observation>>,
    via: map<Id, nat>,
    starts: seq<Start>)
  {
    && histories.Keys == goals.Keys && goals.Keys <= sessions.Keys
    && (forall id :: id in sessions && RunsJoints(sessions[id]) ==> id in goals)
    && forall id :: id in goals ==>
         && GoalOf(sessions[id], goals[id])
         && (goals[id].cartesian ==> id in via && Reached(sessions[id].request, sessions[id].serial, starts, via[id]))
  }

  predicate RunsJoints(session: Session) { session.started && session.request.kind == MoveJ }

  /** A Move's goal runs from its submission; a MoveJ's is the one it asked for. */
  predicate GoalOf(session: Session, goal: Goals.Goal) {
    && session.request.kind.IsMove() && goal.startedAt == session.submittedAt
    && (goal.cartesian <==> session.request.kind != MoveJ)
    && (session.request.kind == MoveJ ==>
          goal.joints == session.request.goal.joints && goal.positions == session.request.goal.positions)
  }

  /** The path of this request was reached on its own start at `k`. */
  ghost predicate Reached(request: Request, serial: nat, starts: seq<Start>, k: nat) {
    && k < |starts| && starts[k].owner == serial && starts[k].kind == request.kind
    && (request.kind == MoveP ==> starts[k].waypoints == request.waypoints)
    && PathReached(starts[k])
  }

  /** Permits name only issued commands and their joints. */
  ghost predicate PermitsOk(permits: map<Joint, Permit>, issued: map<nat, Issue>, nextToken: nat) {
    && nextToken > 0
    && (forall t :: t in issued <==> 1 <= t < nextToken)
    && (forall t :: t in issued ==> issued[t].command.token == t)
    && (forall joint :: joint in permits ==>
          && permits[joint].token in issued
          && joint in issued[permits[joint].token].command.joints
          && issued[permits[joint].token].command.session == permits[joint].session)
  }

  /** Both were approved by one call, and carry one token of one session. */
  predicate Repeats(p: Publication, q: Publication) {
    p.call == q.call && p.command.token == q.command.token && p.command.session == q.command.session
  }

  /**
    On each joint, published tokens strictly increase from call to call and lie below the
    joint's permit; within a call a joint is published again only with the same token.
  */
  ghost predicate LogOk(published: seq<Publication>, permits: map<Joint, Permit>, nextToken: nat) {
    && (forall a :: 0 <= a < |published| ==> published[a].command.token < nextToken && published[a].call <= a)
    && (forall a, b, joint ::
          0 <= a < b < |published| && joint in published[a].command.joints && joint in published[b].command.joints ==>
            published[a].command.token < published[b].command.token || Repeats(published[a], published[b]))
    && (forall a, joint :: 0 <= a < |published| && joint in published[a].command.joints && joint in permits ==>
          published[a].command.token < permits[joint].token)
  }

  /** Whatever a tick returned was published while its inputs were current. */
  ghost predicate FreshLog(published: seq<Publication>, issued: map<nat, Issue>, config: Config) {
    forall a :: 0 <= a < |published| && IsIssued(issued, published[a].command) ==>
      FreshAt(issued[published[a].command.token], config, published[a].at)
  }

  predicate IsIssued(issued: map<nat, Issue>, command: JointCommand) {
    command.token in issued && issued[command.token].command == command
  }

  /** The inputs of a returned command are still current. */
  predicate FreshAt(issue: Issue, config: Config, now: Time) {
    && now - issue.feedbackAt < config.feedbackMaxAge
    && now - issue.startedAt < config.MaxPeriod()
    && (issue.kind.IsServo() ==> now - issue.submittedAt < issue.lease)
  }

  /**
    Every session ever created is either live or has exactly one terminal event, and
    no event of a session follows its terminal event.
  */
  ghost predicate EventsOk(sessions: map<Id, Session>, created: nat, stream: seq<Event>) {
    && (forall id :: id in sessions ==> sessions[id].serial < created)
    && (forall a, b :: a in sessions && b in sessions && a != b ==> sessions[a].serial != sessions[b].serial)
    && (forall i :: 0 <= i < |stream| ==> stream[i].serial < created)
    && (forall i, id :: 0 <= i < |stream| && stream[i].state.Terminal() && id in sessions ==>
          sessions[id].serial != stream[i].serial)
    && (forall i, k :: 0 <= i < k < |stream| && stream[i].state.Terminal() ==> stream[i].serial != stream[k].serial)
    && (forall n :: 0 <= n < created ==> LiveSerial(sessions, n) || EndedSerial(stream, n))
  }

  ghost predicate LiveSerial(sessions: map<Id, Session>, n: nat) {
    exists id :: id in sessions && sessions[id].serial == n
  }

  ghost predicate EndedSerial(stream: seq<Event>, n: nat) {
    exists i :: 0 <= i < |stream| && stream[i].state.Terminal() && stream[i].serial == n
  }

  /** A success is recorded once its session has ended; no other success is reported. */
  ghost predicate SuccessListed(stream: seq<Event>, successes: map<nat, Success>) {
    && (forall i :: 0 <= i < |stream| && stream[i].state == SUCCEEDED ==> stream[i].serial in successes)
    && (forall n :: n in successes ==> EndedSerial(stream, n))
  }

  ghost predicate SuccessesOk(successes: map<nat, Success>, requests: seq<Request>, starts: seq<Start>, stable: Time) {
    forall n :: n in successes ==> n < |requests| && Earned(requests[n], n, successes[n], starts, stable)
  }

  /** The observations had settled, and a MoveL's or MoveP's path had been reached on one of its own starts. */
  ghost predicate Earned(request: Request, serial: nat, success: Success, starts: seq<Start>, stable: Time) {
    && request.kind.IsMove() && Goals.Settled(success.history, stable)
    && (request.kind != MoveJ ==> success.start.Some? && Reached(request, serial, starts, success.start.value))
  }

  /** Whoever is live was submitted under the permission now in force; without a permission nobody is. */
  ghost predicate OnlyPermitted(sessions: map<Id, Session>, enabled: bool, generation: nat) {
    forall id :: id in sessions ==> enabled && sessions[id].generation == generation
  }

  /** The last output of each active session continues the outputs since its backend start. */
  ghost predicate RecoveryOk(
    sessions: map<Id, Session>, active: set<Id>, outputs: map<Id, seq<seq<real>>>, groups: map<string, Group>,
    margin: real)
  {
    && outputs.Keys == active
    && forall id :: id in active && id in sessions ==> RecoveryAt(sessions[id], outputs[id], groups, margin)
  }

  ghost predicate RecoveryAt(session: Session, outputs: seq<seq<real>>, groups: map<string, Group>, margin: real) {
    && session.group in groups && ValidGroup(groups[session.group])
    && |session.last.positions| == |session.last.velocities| == |session.last.accelerations| ==
       |groups[session.group].joints|
    && outputs != [] && outputs[|outputs| - 1] == session.last.positions
    && SessionOutputs(groups[session.group], margin, outputs)
  }

  /** Every command ever returned passed the final RTC, lies in the widened limits and carries its deadline. */
  ghost predicate IssueOk(issue: Issue, st: Static) {
    var c := issue.command;
    && c.passedRtc && c.group in st.groups && c.joints == st.groups[c.group].joints && c.joints != []
    && ValidGroup(st.groups[c.group])
    && |c.positions| == |c.joints|
    && (forall i :: 0 <= i < |c.joints| ==>
          WithinWidened(
            c.positions[i], st.groups[c.group].lower[i], st.groups[c.group].upper[i], st.config.recovery.margin))
    && SourceOk(issue.source, c.positions, st.groups[c.group], st.config.recovery.margin)
    && c.validUntil.Some?
    && c.validUntil.value <= issue.feedbackAt + st.config.feedbackMaxAge
    && c.validUntil.value <= issue.startedAt + st.config.MaxPeriod()
    && (issue.kind.IsServo() ==> c.validUntil.value <= issue.submittedAt + issue.lease)
  }

  /** A stop obeys the limits strictly; anything else ends the outputs of its start so far. */
  ghost predicate SourceOk(source: Source, positions: seq<real>, group: Group, margin: real)
    requires ValidGroup(group) && |positions| == |group.joints|
  {
    match source
    case Stop => forall i :: 0 <= i < |positions| ==> Inside(positions[i], group.lower[i], group.upper[i])
    case Along(_, trail) => |trail| >= 2 && trail[|trail| - 1] == positions && SessionOutputs(group, margin, trail)
  }

  ghost predicate IssuedOk(issued: map<nat, Issue>, st: Static) {
    forall t :: t in issued ==> IssueOk(issued[t], st)
  }

  /**
    Of the commands that follow one start each continues those before it, and a start's
    outputs so far continue them all.
  */
  ghost predicate TrailsOk(
    issued: map<nat, Issue>, outputs: map<Id, seq<seq<real>>>, current: map<Id, nat>, starts: seq<Start>)
  {
    && (forall t :: t in issued && issued[t].source.Along? ==> OnOwnStart(issued[t], starts))
    && (forall t, u :: t in issued && u in issued && t < u && SameStart(issued[t], issued[u]) ==>
          issued[t].source.trail < issued[u].source.trail)
    && (forall t, id ::
          t in issued && id in current && issued[t].source.Along? && issued[t].source.start == current[id] ==>
          id in outputs && issued[t].source.trail <= outputs[id])
  }

  predicate OnOwnStart(issue: Issue, starts: seq<Start>)
    requires issue.source.Along?
  {
    && issue.source.start < |starts| && starts[issue.source.start].owner == issue.serial
    && starts[issue.source.start].group == issue.command.group
  }

  predicate SameStart(one: Issue, two: Issue) {
    one.source.Along? && two.source.Along? && one.source.start == two.source.start
  }

  ghost predicate InvX(st: Static, s: State, gap: Gap) {
    && Agree(s.sessions, s.arbiter, st.groups, gap)
    && BackendAgrees(s.sessions, s.active, s.current.Keys, gap)
    && StartsOk(s.sessions, s.starts, s.current)
    && RequestsOk(s.sessions, s.requests, s.created, s.issued)
    && ActiveDisjoint(s.sessions, s.active)
    && WatchOk(s.sessions, s.goals, s.histories, s.via, s.starts)
    && PermitsOk(s.permits, s.issued, s.nextToken)
    && LogOk(s.published, s.permits, s.nextToken)
    && FreshLog(s.published, s.issued, st.config)
    && EventsOk(s.sessions, s.created, s.delivered + s.pending)
    && SuccessListed(s.delivered + s.pending, s.successes)
    && SuccessesOk(s.successes, s.requests, s.starts, st.config.stableDuration)
    && RecoveryOk(s.sessions, s.active, s.outputs, st.groups, st.config.recovery.margin)
    && IssuedOk(s.issued, st)
    && TrailsOk(s.issued, s.outputs, s.current, s.starts)
    && OnlyPermitted(s.sessions, s.enabled, s.generation)
  }

  function Initial(): State {
    State(
      true, 0, Arbiter(map[], map[], 1), map[], {}, [], map[], map[], map[], map[], map[], 1, [], [], [], 0, [], map[],
      [], map[], map[])
  }

  lemma InitialHolds(st: Static)
    ensures InvX(st, Initial(), CLOSED)
  {
  }

  // ---- What every change respects ----

  ghost predicate PermitsOnlyFresh(before: map<Joint, Permit>, next: nat, after: map<Joint, Permit>) {
    forall joint :: joint in after ==> (joint in before && after[joint] == before[joint]) || after[joint].token >= next
  }

  /** Both stem from one submission. */
  predicate SameOrigin(held: Session, session: Session) {
    session.serial == held.serial && session.generation == held.generation
  }

  /** Permits are only lost or fresh; histories only grow; sessions are only lost or new. */
  ghost predicate Evolves(s: State, t: State) {
    && s.nextToken <= t.nextToken && s.created <= t.created
    && PermitsOnlyFresh(s.permits, s.nextToken, t.permits)
    && (forall n :: n in s.issued ==> n in t.issued && t.issued[n] == s.issued[n])
    && s.published <= t.published && s.delivered <= t.delivered
    && (forall id :: id in t.sessions ==>
          || (id in s.sessions && SameOrigin(s.sessions[id], t.sessions[id]))
          || t.sessions[id].serial >= s.created)
    && StartsGrow(s.starts, t.starts) && s.requests <= t.requests
    && (forall n :: n in s.successes ==> n in t.successes && t.successes[n] == s.successes[n])
  }

  lemma EvolvesTransitive(s: State, t: State, u: State)
    requires Evolves(s, t) && Evolves(t, u)
    ensures Evolves(s, u)
  {
    hide StartsGrow;
    StartsGrowTransitive(s.starts, t.starts, u.starts);
  }

  lemma SessionsAreClaims(st: Static, s: State)
    requires InvX(st, s, CLOSED)
    ensures s.sessions.Keys == s.arbiter.claims.Keys
    ensures forall id :: id in s.sessions ==> ClaimAgrees(s.arbiter.claims, id, s.sessions[id])
  {
    hide BackendAgrees, StartsOk, RequestsOk, ActiveDisjoint, WatchOk, PermitsOk, LogOk, FreshLog, EventsOk,
      SuccessListed, SuccessesOk, RecoveryOk, IssuedOk, TrailsOk, Inv, SessionOk, ClaimAgrees;
    assert s.sessions.Keys - CLOSED.gone == s.sessions.Keys;
    assert s.arbiter.claims.Keys - CLOSED.entering == s.arbiter.claims.Keys;
  }

  lemma NewHasNoBackend(st: Static, s: State, gap: Gap, id: Id)
    requires InvX(st, s, gap) && id !in s.sessions
    ensures id !in s.current && id !in s.goals
  {
    hide Agree, StartsOk, RequestsOk, ActiveDisjoint, PermitsOk, LogOk, FreshLog, EventsOk, SuccessListed,
      SuccessesOk, RecoveryOk, IssuedOk, TrailsOk, GoalOf, Reached;
  }

  lemma ArbiterEvolves(s: State, arbiter: Arbiter)
    ensures Evolves(s, s.(arbiter := arbiter))
  {
  }

  lemma EvolvesReflexive(s: State)
    ensures Evolves(s, s)
  {
  }

  lemma ArbiterHolds(st: Static, s: State, gap: Gap)
    requires InvX(st, s, gap)
    ensures Inv(s.arbiter) && s.active <= s.sessions.Keys && s.goals.Keys <= s.sessions.Keys
    ensures s.current.Keys == s.active + gap.starting
    ensures forall id :: id in s.sessions ==> SessionOk(s.arbiter.policies, st.groups, id, s.sessions[id])
    ensures forall id :: id in s.sessions ==> (s.sessions[id].started <==> id in s.active)
  {
    hide StartsOk, RequestsOk, ActiveDisjoint, PermitsOk, LogOk, FreshLog, EventsOk, SuccessListed, SuccessesOk,
      RecoveryOk, IssuedOk, TrailsOk, Inv, SessionOk, ClaimAgrees, GoalOf, Reached;
  }

  /** A newly registered endpoint changes nothing for the sessions. */
  lemma EndpointRegistered(st: Static, s: State, policy: Policy)
    requires InvX(st, s, CLOSED)
    ensures Inv(s.arbiter)
    ensures RegisterCode(s.arbiter, policy) == OK ==>
      var t := s.(arbiter := s.arbiter.(policies := s.arbiter.policies[policy.endpoint := policy]));
      InvX(st, t, CLOSED) && Evolves(s, t)
  {
    hide StartsOk, RequestsOk, ActiveDisjoint, WatchOk, PermitsOk, LogOk, FreshLog, EventsOk, SuccessListed,
      SuccessesOk, RecoveryOk, IssuedOk, TrailsOk, BackendAgrees, StartsGrow, Ranked;
    EvolvesReflexive(s);
  }

  // ---- Elementary changes ----

  function WithoutSession(permits: map<Joint, Permit>, id: Id): (left: map<Joint, Permit>)
    ensures forall joint :: joint in left <==> joint in permits && permits[joint].session != id
    ensures forall joint :: joint in left ==> left[joint] == permits[joint]
  {
    map joint | joint in permits && permits[joint].session != id :: permits[joint]
  }

  function Terminate(s: State, id: Id, state: SessionState, code: Code, preserve: bool): (t: State) {
    var permits := if preserve then s.permits else WithoutSession(s.permits, id);
    if id !in s.sessions then s.(permits := permits)
    else s.(
      permits := permits, current := s.current - {id}, active := s.active - {id}, arbiter := Release(s.arbiter, id),
      goals := s.goals - {id}, histories := s.histories - {id}, via := s.via - {id},
      pending := s.pending + [Event(id, state, code, s.sessions[id].serial)],
      sessions := s.sessions - {id}, outputs := s.outputs - {id},
      successes := if state == SUCCEEDED && id in s.histories
        then s.successes[s.sessions[id].serial := SuccessOf(s, id)]
                   else s.successes)
  }

  /** First the permits, then the session. */
  lemma TerminateParts(s: State, id: Id, state: SessionState, code: Code, preserve: bool)
    ensures var silenced := if preserve then s else s.(permits := WithoutSession(s.permits, id));
            && (id !in s.sessions ==> Terminate(s, id, state, code, preserve) == silenced)
            && (id in s.sessions ==>
                  Terminate(s, id, state, code, preserve) == Terminate(silenced, id, state, code, true))
  {
    hide WithoutSession, Release;
  }

  /** What an ending session succeeded by is recorded. */
  function Recorded(s: State, id: Id, state: SessionState): State {
    if state == SUCCEEDED && id in s.sessions && id in s.histories
    then s.(successes := s.successes[s.sessions[id].serial := SuccessOf(s, id)])
    else s
  }

  /** The backend, the arbiter and the monitor know the session no more. */
  function DroppedElsewhere(s: State, id: Id): State {
    s.(current := s.current - {id}, arbiter := Release(s.arbiter, id), goals := s.goals - {id},
       histories := s.histories - {id})
  }

  /** A session ends in steps. */
  lemma DropSteps(s: State, id: Id, state: SessionState, code: Code)
    requires id in s.sessions
    ensures var t := DroppedElsewhere(Recorded(s, id, state), id);
            && t.sessions == s.sessions && Recorded(s, id, state).sessions == s.sessions
            && Terminate(s, id, state, code, true) == t.(
                 pending := t.pending + [Event(id, state, code, s.sessions[id].serial)], active := t.active - {id},
                 sessions := t.sessions - {id}, outputs := t.outputs - {id}, via := t.via - {id})
  {
    hide Release, SuccessOf;
  }

  function SuccessOf(s: State, id: Id): Success
    requires id in s.histories
  {
    Success(s.histories[id], if id in s.via then Some(s.via[id]) else None)
  }

  function Revoke(s: State, joints: seq<Joint>): State { s.(permits := s.permits - Members(joints)) }

  function Deactivate(s: State, id: Id): State {
    s.(current := s.current - {id}, active := s.active - {id}, outputs := s.outputs - {id},
       sessions := if id in s.sessions then s.sessions[id := s.sessions[id].(started := false)] else s.sessions)
  }

  function Deliver(s: State): State { s.(delivered := s.delivered + s.pending, pending := []) }

  // ---- Preservation ----

  lemma StreamEnds(sessions: map<Id, Session>, created: nat, stream: seq<Event>, id: Id, e: Event)
    requires EventsOk(sessions, created, stream) && id in sessions
    requires e.serial == sessions[id].serial && e.state.Terminal()
    ensures EventsOk(sessions - {id}, created, stream + [e])
  {
    var rest, longer := sessions - {id}, stream + [e];
    forall n: nat | 0 <= n < created ensures LiveSerial(rest, n) || EndedSerial(longer, n) {
      if n == e.serial {
        assert longer[|stream|] == e;
      } else if LiveSerial(sessions, n) {
        var x :| x in sessions && sessions[x].serial == n;
        assert x in rest && rest[x].serial == n;
      } else {
        var i :| 0 <= i < |stream| && stream[i].state.Terminal() && stream[i].serial == n;
        assert longer[i] == stream[i];
      }
    }
  }

  /** Replacing a session by one with the same serial changes no accounting. */
  lemma StreamKeeps(sessions: map<Id, Session>, created: nat, stream: seq<Event>, id: Id, session: Session)
    requires EventsOk(sessions, created, stream) && id in sessions && session.serial == sessions[id].serial
    ensures EventsOk(sessions[id := session], created, stream)
  {
    var more := sessions[id := session];
    forall n: nat | 0 <= n < created ensures LiveSerial(more, n) || EndedSerial(stream, n) {
      if LiveSerial(sessions, n) {
        var x :| x in sessions && sessions[x].serial == n;
        assert x in more && more[x].serial == n;
      }
    }
  }

  lemma StreamCreates(sessions: map<Id, Session>, created: nat, stream: seq<Event>, id: Id, session: Session)
    requires EventsOk(sessions, created, stream) && id !in sessions && session.serial == created
    ensures EventsOk(sessions[id := session], created + 1, stream)
  {
    var more := sessions[id := session];
    forall n: nat | 0 <= n < created + 1 ensures LiveSerial(more, n) || EndedSerial(stream, n) {
      if n == created {
        assert id in more && more[id].serial == n;
      } else if LiveSerial(sessions, n) {
        var x :| x in sessions && sessions[x].serial == n;
        assert x in more && more[x].serial == n;
      }
    }
  }

  /** A RUNNING event of a live session may be inserted anywhere. */
  lemma StreamRuns(sessions: map<Id, Session>, created: nat, front: seq<Event>, back: seq<Event>, id: Id, e: Event)
    requires EventsOk(sessions, created, front + back) && id in sessions
    requires e.serial == sessions[id].serial && e.state == RUNNING
    ensures EventsOk(sessions, created, front + [e] + back)
  {
    var stream, longer := front + back, front + [e] + back;
    var at := |front|;
    assert forall i :: 0 <= i < at ==> longer[i] == stream[i];
    assert longer[at] == e;
    assert forall i :: at < i < |longer| ==> longer[i] == stream[i - 1];
    assert forall i :: 0 <= i < |longer| && longer[i].state.Terminal() ==> longer[i].serial != e.serial;
    hide LiveSerial, EndedSerial;
    forall n: nat | 0 <= n < created ensures LiveSerial(sessions, n) || EndedSerial(longer, n) {
      if EndedSerial(stream, n) { EndStaysInStream(front, back, e, n); }
    }
  }

  lemma EndStaysInStream(front: seq<Event>, back: seq<Event>, e: Event, n: nat)
    requires EndedSerial(front + back, n)
    ensures EndedSerial(front + [e] + back, n)
  {
    var stream, longer, at := front + back, front + [e] + back, |front|;
    var i :| 0 <= i < |stream| && stream[i].state.Terminal() && stream[i].serial == n;
    assert longer[if i < at then i else i + 1] == stream[i];
  }

  lemma TerminateKeeps(st: Static, s: State, gap: Gap, id: Id, state: SessionState, code: Code, preserve: bool)
    requires InvX(st, s, gap) && id !in gap.entering && state.Terminal()
    requires state == SUCCEEDED ==> MaySucceed(s, id, st.config.stableDuration)
    ensures InvX(st, Terminate(s, id, state, code, preserve), gap.Without(id))
    ensures Evolves(s, Terminate(s, id, state, code, preserve))
  {
    hide InvX, Evolves, WithoutSession, MaySucceed, Release;
    var silenced := if preserve then s else s.(permits := WithoutSession(s.permits, id));
    EvolvesReflexive(s);
    if !preserve { PermitsDropped(st, s, gap, WithoutSession(s.permits, id)); }
    if id in s.sessions {
      assert state == SUCCEEDED ==>
        MaySucceed(silenced, id, st.config.stableDuration) by { SameWatch(s, silenced, id); }
      EndKeeps(st, silenced, gap, id, state, code);
      EvolvesTransitive(s, silenced, Terminate(silenced, id, state, code, true));
    } else {
      GapUnchanged(st, silenced, gap, id);
    }
  }

  lemma SameWatch(s: State, t: State, id: Id)
    requires t == s.(permits := t.permits)
    ensures forall stable :: MaySucceed(s, id, stable) <==> MaySucceed(t, id, stable)
  {
  }

  /** Permits may be withdrawn at any time. */
  lemma PermitsDropped(st: Static, s: State, gap: Gap, fewer: map<Joint, Permit>)
    requires InvX(st, s, gap) && forall joint :: joint in fewer ==>
      joint in s.permits && fewer[joint] == s.permits[joint]
    ensures InvX(st, s.(permits := fewer), gap) && Evolves(s, s.(permits := fewer))
  {
    hide Agree, BackendAgrees, StartsOk, RequestsOk, ActiveDisjoint, WatchOk, PermitsOk, LogOk, FreshLog, EventsOk,
      SuccessListed, SuccessesOk, RecoveryOk, IssuedOk, TrailsOk, StartsGrow;
    EvolvesReflexive(s);
    FewerPermits(s, fewer);
  }

  lemma EndKeeps(st: Static, s: State, gap: Gap, id: Id, state: SessionState, code: Code)
    requires InvX(st, s, gap) && id !in gap.entering && state.Terminal() && id in s.sessions
    requires state == SUCCEEDED ==> MaySucceed(s, id, st.config.stableDuration)
    ensures InvX(st, Terminate(s, id, state, code, true), gap.Without(id))
    ensures Evolves(s, Terminate(s, id, state, code, true))
  {
    hide Agree, BackendAgrees, StartsOk, RequestsOk, ActiveDisjoint, WatchOk, PermitsOk, LogOk, FreshLog, EventsOk,
      SuccessListed, SuccessesOk, RecoveryOk, IssuedOk, TrailsOk, Inv, MaySucceed, SuccessOf, Release, StartsGrow;
    EvolvesReflexive(s);
    var t := Terminate(s, id, state, code, true);
    var e := Event(id, state, code, s.sessions[id].serial);
    StreamEnds(s.sessions, s.created, s.delivered + s.pending, id, e);
    TerminateAgrees(s.sessions, s.arbiter, st.groups, gap, id);
    SessionGone(st, s, gap, id);
    SuccessRecorded(st, s, gap, id, e);
    assert t.delivered + t.pending == s.delivered + s.pending + [e];
  }

  /** A watched Move whose observations have settled. */
  ghost predicate MaySucceed(s: State, id: Id, stable: Time) {
    id in s.sessions && id in s.goals && id in s.histories && Goals.Settled(s.histories[id], stable)
  }

  lemma GapUnchanged(st: Static, s: State, gap: Gap, id: Id)
    requires InvX(st, s, gap) && id !in s.sessions
    ensures gap.Without(id) == gap
  {
    hide Inv, SessionOk, Overlaps, Unique, StartsOk, RequestsOk, ActiveDisjoint, WatchOk, PermitsOk, LogOk, FreshLog,
      EventsOk, SuccessListed, SuccessesOk, RecoveryOk, IssuedOk, TrailsOk;
    assert gap.gone - {id} == gap.gone && gap.starting - {id} == gap.starting;
  }

  /** A live session has not succeeded before, so recording its success changes no other. */
  lemma SuccessRecorded(st: Static, s: State, gap: Gap, id: Id, e: Event)
    requires id in s.sessions && e.serial == s.sessions[id].serial && e.state.Terminal() && InvX(st, s, gap)
    requires e.state == SUCCEEDED ==> MaySucceed(s, id, st.config.stableDuration)
    ensures var stream := s.delivered + s.pending;
            var more := if e.state == SUCCEEDED && id in s.histories then s.successes[e.serial := SuccessOf(s, id)]
              else s.successes;
            && e.serial !in s.successes
            && SuccessListed(stream + [e], more) && SuccessesOk(more, s.requests, s.starts, st.config.stableDuration)
  {
    hide Agree, BackendAgrees, StartsOk, RequestsOk, ActiveDisjoint, WatchOk, PermitsOk, LogOk, FreshLog, RecoveryOk,
      IssuedOk, TrailsOk, Earned, MaySucceed, LiveSerial, EndedSerial;
    var stream := s.delivered + s.pending;
    if e.state == SUCCEEDED { SuccessIsEarned(s, id, st.config.stableDuration); }
    LiveHasNotEnded(s.sessions, s.created, stream, id);
    hide EventsOk;
    forall n | n in s.successes || n == e.serial ensures n == e.serial || EndedSerial(stream, n) {
    }
    forall n | EndedSerial(stream, n) || n == e.serial ensures EndedSerial(stream + [e], n) {
      EndStaysListed(stream, e, n);
    }
    if e.state == SUCCEEDED {
      assert MaySucceed(s, id, st.config.stableDuration);
      WatchedHere(s, id, st.config.stableDuration);
    }
  }

  lemma WatchedHere(s: State, id: Id, stable: Time)
    requires MaySucceed(s, id, stable)
    ensures id in s.histories
  {
  }

  lemma LiveHasNotEnded(sessions: map<Id, Session>, created: nat, stream: seq<Event>, id: Id)
    requires EventsOk(sessions, created, stream) && id in sessions
    ensures !EndedSerial(stream, sessions[id].serial)
  {
    hide LiveSerial;
  }

  lemma EndStaysListed(stream: seq<Event>, e: Event, n: nat)
    requires EndedSerial(stream, n) || (e.state.Terminal() && n == e.serial)
    ensures EndedSerial(stream + [e], n)
  {
    if EndedSerial(stream, n) {
      var i :| 0 <= i < |stream| && stream[i].state.Terminal() && stream[i].serial == n;
      assert (stream + [e])[i] == stream[i];
    } else {
      assert (stream + [e])[|stream|] == e;
    }
  }

  lemma SuccessIsEarned(s: State, id: Id, stable: Time)
    requires WatchOk(s.sessions, s.goals, s.histories, s.via, s.starts)
    requires RequestsOk(s.sessions, s.requests, s.created, s.issued)
    requires MaySucceed(s, id, stable)
    ensures var n := s.sessions[id].serial;
            n < |s.requests| && Earned(s.requests[n], n, SuccessOf(s, id), s.starts, stable)
  {
    hide Reached, Goals.Settled;
    assert GoalOf(s.sessions[id], s.goals[id]);
  }

  lemma SessionGone(st: Static, s: State, gap: Gap, id: Id)
    requires id in s.sessions && InvX(st, s, gap)
    ensures BackendAgrees(s.sessions - {id}, s.active - {id}, (s.current - {id}).Keys, gap.Without(id))
    ensures StartsOk(s.sessions - {id}, s.starts, s.current - {id})
    ensures RequestsOk(s.sessions - {id}, s.requests, s.created, s.issued)
    ensures ActiveDisjoint(s.sessions - {id}, s.active - {id})
    ensures WatchOk(s.sessions - {id}, s.goals - {id}, s.histories - {id}, s.via - {id}, s.starts)
    ensures RecoveryOk(s.sessions - {id}, s.active - {id}, s.outputs - {id}, st.groups, st.config.recovery.margin)
    ensures TrailsOk(s.issued, s.outputs - {id}, s.current - {id}, s.starts)
  {
    hide Agree, BackendAgrees, StartsOk, RequestsOk, ActiveDisjoint, WatchOk, PermitsOk, LogOk, FreshLog, EventsOk,
      SuccessListed, SuccessesOk, RecoveryOk, IssuedOk, TrailsOk;
    assert (s.current - {id}).Keys == s.current.Keys - {id};
    BackendGone(s.sessions, s.active, s.current.Keys, gap, id);
    WatchGone(s.sessions, s.goals, s.histories, s.via, s.starts, id);
    StartGone(s.sessions, s.requests, s.created, s.issued, s.starts, s.current, id);
    StartStops(s.sessions, s.issued, s.outputs, s.current, s.starts, id);
    RecoveryGone(s.sessions, s.active, s.outputs, st.groups, st.config.recovery.margin, id);
  }

  lemma BackendGone(sessions: map<Id, Session>, active: set<Id>, live: set<Id>, gap: Gap, id: Id)
    requires BackendAgrees(sessions, active, live, gap) && ActiveDisjoint(sessions, active)
    ensures BackendAgrees(sessions - {id}, active - {id}, live - {id}, gap.Without(id))
    ensures ActiveDisjoint(sessions - {id}, active - {id})
  {
    hide Overlaps;
  }

  lemma StartGone(
    sessions: map<Id, Session>, requests: seq<Request>, created: nat, issued: map<nat, Issue>, starts: seq<Start>,
    current: map<Id, nat>, id: Id)
    requires StartsOk(sessions, starts, current) && RequestsOk(sessions, requests, created, issued)
    ensures StartsOk(sessions - {id}, starts, current - {id}) && RequestsOk(sessions - {id}, requests, created, issued)
  {
    hide OwnStart;
  }

  lemma RecoveryGone(
    sessions: map<Id, Session>, active: set<Id>, outputs: map<Id, seq<seq<real>>>, groups: map<string, Group>,
    margin: real, id: Id)
    requires RecoveryOk(sessions, active, outputs, groups, margin)
    ensures RecoveryOk(sessions - {id}, active - {id}, outputs - {id}, groups, margin)
  {
    hide RecoveryAt;
  }

  lemma WatchGone(
    sessions: map<Id, Session>, goals: map<Id, Goals.Goal>, histories: map<Id, seq<Goals.Observation>>,
    via: map<Id, nat>,
    starts: seq<Start>, id: Id)
    requires WatchOk(sessions, goals, histories, via, starts)
    ensures WatchOk(sessions - {id}, goals - {id}, histories - {id}, via - {id}, starts)
  {
    hide GoalOf, Reached;
  }

  /** Permits may be dropped at any time. */
  lemma FewerPermits(s: State, fewer: map<Joint, Permit>)
    requires forall joint :: joint in fewer ==> joint in s.permits && fewer[joint] == s.permits[joint]
    ensures PermitsOk(s.permits, s.issued, s.nextToken) ==> PermitsOk(fewer, s.issued, s.nextToken)
    ensures LogOk(s.published, s.permits, s.nextToken) ==> LogOk(s.published, fewer, s.nextToken)
    ensures PermitsOnlyFresh(s.permits, s.nextToken, fewer)
  {
  }

  lemma TerminateAgrees(sessions: map<Id, Session>, arbiter: Arbiter, groups: map<string, Group>, gap: Gap, id: Id)
    requires Agree(sessions, arbiter, groups, gap) && id in sessions && id !in gap.entering
    ensures Agree(sessions - {id}, Release(arbiter, id), groups, gap.Without(id))
  {
    FewerKeepInv(arbiter, arbiter.claims - {id});
    hide Ranked, Held, SessionOk;
    var rest, left := sessions - {id}, arbiter.claims - {id};
    forall x ensures x in rest.Keys - (gap.gone - {id}) <==> x in left.Keys - gap.entering {
      assert x in sessions.Keys - gap.gone <==> x in arbiter.claims.Keys - gap.entering;
    }
  }

  lemma RevokeKeeps(st: Static, s: State, gap: Gap, joints: seq<Joint>)
    requires InvX(st, s, gap)
    ensures InvX(st, Revoke(s, joints), gap) && Evolves(s, Revoke(s, joints))
  {
    hide InvX, Evolves;
    PermitsDropped(st, s, gap, s.permits - Members(joints));
  }

  lemma DeliverKeeps(st: Static, s: State, gap: Gap)
    requires InvX(st, s, gap)
    ensures InvX(st, Deliver(s), gap) && Evolves(s, Deliver(s))
  {
    hide Agree, BackendAgrees, StartsOk, RequestsOk, ActiveDisjoint, WatchOk, PermitsOk, LogOk, FreshLog, EventsOk,
      SuccessListed, SuccessesOk, RecoveryOk, IssuedOk, TrailsOk, StartsGrow;
    EvolvesReflexive(s);
    assert Deliver(s).delivered + Deliver(s).pending == s.delivered + s.pending;
  }

  lemma DeactivateKeeps(st: Static, s: State, gap: Gap, id: Id)
    requires id in s.active && InvX(st, s, gap)
    ensures InvX(st, Deactivate(s, id), gap) && Evolves(s, Deactivate(s, id))
  {
    hide Agree, BackendAgrees, StartsOk, RequestsOk, ActiveDisjoint, WatchOk, PermitsOk, LogOk, FreshLog, EventsOk,
      SuccessListed, SuccessesOk, RecoveryOk, IssuedOk, TrailsOk, Inv, StartsGrow;
    EvolvesReflexive(s);
    var t := Deactivate(s, id);
    assert id in s.sessions by { ActiveIsSession(st, s, gap, id); }
    var session := s.sessions[id].(started := false);
    SessionUpdated(st, s, gap, id, session);
    StreamKeeps(s.sessions, s.created, s.delivered + s.pending, id, session);
    BackendStops(s.sessions, s.active, s.current.Keys, gap, id, session);
    RecoveryStops(s.sessions, s.active, s.outputs, st.groups, st.config.recovery.margin, id, session);
    StartStops(s.sessions[id := session], s.issued, s.outputs, s.current, s.starts, id);
    assert (s.current - {id}).Keys == s.current.Keys - {id};
  }

  /** Replacing a session by one that differs only in its progress keeps its agreements. */
  lemma SessionUpdated(st: Static, s: State, gap: Gap, id: Id, session: Session)
    requires id in s.sessions && InvX(st, s, gap)
    requires session ==
      s.sessions[id].(started := session.started, last := session.last, recovering := session.recovering)
    requires RunsJoints(session) ==> RunsJoints(s.sessions[id]) || id in s.goals
    ensures Agree(s.sessions[id := session], s.arbiter, st.groups, gap)
    ensures StartsOk(s.sessions[id := session], s.starts, s.current)
    ensures RequestsOk(s.sessions[id := session], s.requests, s.created, s.issued)
    ensures WatchOk(s.sessions[id := session], s.goals, s.histories, s.via, s.starts)
    ensures forall active :: ActiveDisjoint(s.sessions, active) ==> ActiveDisjoint(s.sessions[id := session], active)
  {
    hide Agree, BackendAgrees, StartsOk, RequestsOk, WatchOk, PermitsOk, LogOk, FreshLog, EventsOk, SuccessListed,
      SuccessesOk, RecoveryOk, IssuedOk, TrailsOk, Overlaps;
    AgreeUpdated(s.sessions, s.arbiter, st.groups, gap, id, session);
    StartUpdated(s.sessions, s.requests, s.created, s.issued, s.starts, s.current, id, session);
    WatchUpdated(s.sessions, s.goals, s.histories, s.via, s.starts, id, session);
  }

  lemma AgreeUpdated(
    sessions: map<Id, Session>, arbiter: Arbiter, groups: map<string, Group>, gap: Gap, id: Id, session: Session)
    requires Agree(sessions, arbiter, groups, gap) && id in sessions
    requires session ==
      sessions[id].(started := session.started, last := session.last, recovering := session.recovering)
    ensures Agree(sessions[id := session], arbiter, groups, gap)
  {
    hide Inv;
    assert sessions[id := session].Keys == sessions.Keys;
    assert SessionOk(arbiter.policies, groups, id, sessions[id]);
  }

  lemma StartUpdated(
    sessions: map<Id, Session>, requests: seq<Request>, created: nat, issued: map<nat, Issue>, starts: seq<Start>,
    current: map<Id, nat>, id: Id, session: Session)
    requires StartsOk(sessions, starts, current) && RequestsOk(sessions, requests, created, issued) && id in sessions
    requires session ==
      sessions[id].(started := session.started, last := session.last, recovering := session.recovering)
    ensures StartsOk(sessions[id := session], starts, current)
    ensures RequestsOk(sessions[id := session], requests, created, issued)
  {
  }

  lemma WatchUpdated(
    sessions: map<Id, Session>, goals: map<Id, Goals.Goal>, histories: map<Id, seq<Goals.Observation>>,
    via: map<Id, nat>,
    starts: seq<Start>, id: Id, session: Session)
    requires WatchOk(sessions, goals, histories, via, starts) && id in sessions
    requires session.serial == sessions[id].serial
    requires id in goals ==> session.request == sessions[id].request && session.submittedAt == sessions[id].submittedAt
    requires RunsJoints(session) ==> RunsJoints(sessions[id]) || id in goals
    ensures WatchOk(sessions[id := session], goals, histories, via, starts)
  {
    hide Reached;
    var more := sessions[id := session];
    forall other | other in goals
      ensures GoalOf(more[other], goals[other])
      ensures goals[other].cartesian ==>
        other in via && Reached(more[other].request, more[other].serial, starts, via[other])
    {
      assert GoalOf(sessions[other], goals[other]);
    }
  }

  lemma ActiveIsSession(st: Static, s: State, gap: Gap, id: Id)
    requires id in s.active && InvX(st, s, gap)
    ensures id in s.sessions && id in s.current && s.current[id] < |s.starts|
  {
    hide Agree, RequestsOk, ActiveDisjoint, WatchOk, PermitsOk, LogOk, FreshLog, EventsOk, SuccessListed, SuccessesOk,
      RecoveryOk, IssuedOk, TrailsOk, OwnStart;
  }

  lemma BackendStops(sessions: map<Id, Session>, active: set<Id>, live: set<Id>, gap: Gap, id: Id, session: Session)
    requires BackendAgrees(sessions, active, live, gap) && id in active && !session.started
    ensures BackendAgrees(sessions[id := session], active - {id}, live - {id}, gap)
    ensures ActiveDisjoint(sessions[id := session], active) ==> ActiveDisjoint(sessions[id := session], active - {id})
  {
    hide Overlaps;
  }

  lemma StartStops(
    sessions: map<Id, Session>, issued: map<nat, Issue>, outputs: map<Id, seq<seq<real>>>, current: map<Id, nat>,
    starts: seq<Start>, id: Id)
    ensures StartsOk(sessions, starts, current) ==> StartsOk(sessions, starts, current - {id})
    ensures TrailsOk(issued, outputs, current, starts) ==> TrailsOk(issued, outputs - {id}, current - {id}, starts)
  {
    hide OwnStart, OnOwnStart, SameStart;
  }

  lemma RecoveryStops(
    sessions: map<Id, Session>, active: set<Id>, outputs: map<Id, seq<seq<real>>>, groups: map<string, Group>,
    margin: real,
    id: Id, session: Session)
    requires RecoveryOk(sessions, active, outputs, groups, margin)
    ensures RecoveryOk(sessions[id := session], active - {id}, outputs - {id}, groups, margin)
  {
    hide RecoveryAt;
  }

  // ---- Commands and publication ----

  /** Return a command: it takes the next token and a permit on each of its joints. */
  function Append(s: State, issue: Issue): State {
    s.(nextToken := s.nextToken + 1,
       issued := s.issued[s.nextToken := issue],
       permits := s.permits + Each(issue.command.joints, Permit(issue.command.session, s.nextToken)),
       commands := s.commands + [issue.command])
  }

  /** The caller may still publish this command. */
  predicate Holds(permits: map<Joint, Permit>, command: JointCommand) {
    && command.token != 0 && command.joints != []
    && forall joint :: joint in command.joints ==>
         joint in permits && permits[joint] == Permit(command.session, command.token)
  }

  /** The joints of a batch. */
  function JointsOf(approved: seq<JointCommand>): (joints: set<Joint>)
    ensures forall joint :: joint in joints <==> exists k :: 0 <= k < |approved| && joint in approved[k].joints
  {
    if approved == [] then {}
    else JointsOf(approved[..|approved| - 1]) + Members(approved[|approved| - 1].joints)
  }

  /** What a call publishes: its approved commands, each at the time it was approved. */
  function Published(approved: seq<JointCommand>, times: seq<Time>, call: nat): (log: seq<Publication>)
    requires |times| == |approved|
    ensures |log| == |approved|
    ensures forall k :: 0 <= k < |log| ==> log[k] == Publication(approved[k], times[k], call)
  {
    seq(|approved|, k requires 0 <= k < |approved| => Publication(approved[k], times[k], call))
  }

  /** Record a published batch and withdraw its permits. */
  function Publish(s: State, approved: seq<JointCommand>, times: seq<Time>): State
    requires |times| == |approved|
  {
    s.(published := s.published + Published(approved, times, |s.published|), permits := s.permits - JointsOf(approved))
  }

  /** Each command of a batch in turn: refused, approved, or expired and its session ended. */
  function Screened(s: State, commands: seq<JointCommand>, times: seq<Time>): (r: (State, seq<JointCommand>))
    requires |times| == |commands|
  {
    if commands == [] then (s, [])
    else
      var n := |commands| - 1;
      var (t, approved) := Screened(s, commands[..n], times[..n]);
      var c := commands[n];
      if !t.enabled || !Holds(t.permits, c) then (t, approved)
      else if c.validUntil.Some? && times[n] < c.validUntil.value then (t, approved + [c])
      else (Terminate(t, c.session, ABORTED, TIMEOUT, false), approved)
  }

  /** One joint is in the commands at `i` and `k` only with one token of one session. */
  predicate OneToken(c: JointCommand, d: JointCommand) { c.token == d.token && c.session == d.session }

  /**
    The tokens of a batch lie above everything published on their joints and are still the
    latest permits; commands that share a joint carry one token.
  */
  ghost predicate BatchOk(
    approved: seq<JointCommand>, permits: map<Joint, Permit>, published: seq<Publication>, nextToken: nat)
  {
    && (forall k :: 0 <= k < |approved| ==> approved[k].token < nextToken)
    && (forall k, joint :: 0 <= k < |approved| && joint in approved[k].joints && joint in permits ==>
          permits[joint] == Permit(approved[k].session, approved[k].token))
    && (forall k, m, joint ::
          0 <= k < |approved| && 0 <= m < |approved| && joint in approved[k].joints && joint in approved[m].joints ==>
            OneToken(approved[k], approved[m]))
    && (forall a, k, joint ::
          0 <= a < |published| && 0 <= k < |approved| &&
          joint in published[a].command.joints && joint in approved[k].joints ==>
            published[a].command.token < approved[k].token)
  }

  lemma BatchGrows(s: State, approved: seq<JointCommand>, c: JointCommand)
    requires PermitsOk(s.permits, s.issued, s.nextToken) && LogOk(s.published, s.permits, s.nextToken)
    requires BatchOk(approved, s.permits, s.published, s.nextToken) && Holds(s.permits, c)
    ensures BatchOk(approved + [c], s.permits, s.published, s.nextToken)
  {
    HeldIsNewest(s, c);
    hide PermitsOk, LogOk, Holds;
  }

  /** On each of its joints a held command's token is the permit's, issued, and above everything published. */
  lemma HeldIsNewest(s: State, c: JointCommand)
    requires PermitsOk(s.permits, s.issued, s.nextToken) && LogOk(s.published, s.permits, s.nextToken)
    requires Holds(s.permits, c)
    ensures c.token < s.nextToken
    ensures forall joint :: joint in c.joints ==> joint in s.permits && s.permits[joint] == Permit(c.session, c.token)
    ensures forall a, joint :: 0 <= a < |s.published| && joint in s.published[a].command.joints && joint in c.joints ==>
      s.published[a].command.token < c.token
  {
    assert c.joints[0] in c.joints;
  }

  /** A command that follows a start continues what was returned of it before. */
  ghost predicate TrailFits(s: State, issue: Issue) {
    issue.source.Along? ==>
      && OnOwnStart(issue, s.starts)
      && (forall t :: t in s.issued && SameStart(s.issued[t], issue) ==> s.issued[t].source.trail < issue.source.trail)
      && (forall id :: id in s.current && s.current[id] == issue.source.start ==>
            id in s.outputs && issue.source.trail <= s.outputs[id])
  }

  lemma AppendKeeps(st: Static, s: State, gap: Gap, issue: Issue)
    requires InvX(st, s, gap) && IssueOk(issue, st) && issue.command.token == s.nextToken && TrailFits(s, issue)
    requires OfRequest(issue, s.requests)
    ensures InvX(st, Append(s, issue), gap) && Evolves(s, Append(s, issue))
    ensures Holds(Append(s, issue).permits, issue.command)
  {
    hide Agree, BackendAgrees, StartsOk, RequestsOk, ActiveDisjoint, WatchOk, PermitsOk, LogOk, FreshLog, EventsOk,
      SuccessListed, SuccessesOk, RecoveryOk, TrailsOk, Inv, IssueOk, TrailFits, StartsGrow;
    EvolvesReflexive(s);
    AppendPermits(s.permits, s.issued, s.nextToken, s.published, issue);
    IssueHasJoints(issue, st);
    assert s.nextToken > 0 && s.nextToken !in s.issued by { TokenIsFresh(st, s, gap); }
    AppendTrail(st, s, gap, issue);
    AppendRequest(s.sessions, s.requests, s.created, s.issued, s.nextToken, issue);
    AppendFresh(st, s, gap, issue);
  }

  lemma AppendRequest(
    sessions: map<Id, Session>, requests: seq<Request>, created: nat, issued: map<nat, Issue>, token: nat, issue: Issue)
    requires RequestsOk(sessions, requests, created, issued) && OfRequest(issue, requests)
    ensures RequestsOk(sessions, requests, created, issued[token := issue])
  {
  }

  /** What is issued for a live session is of its request. */
  lemma IssueOfSession(st: Static, s: State, gap: Gap, id: Id, issue: Issue)
    requires id in s.sessions && issue.serial == s.sessions[id].serial && issue.kind == s.sessions[id].request.kind
    requires InvX(st, s, gap)
    ensures OfRequest(issue, s.requests)
  {
    hide Agree, BackendAgrees, StartsOk, ActiveDisjoint, WatchOk, PermitsOk, LogOk, FreshLog, EventsOk, SuccessListed,
      SuccessesOk, RecoveryOk, IssuedOk, TrailsOk;
  }

  lemma AppendTrail(st: Static, s: State, gap: Gap, issue: Issue)
    requires InvX(st, s, gap) && TrailFits(s, issue)
    ensures TrailsOk(s.issued[s.nextToken := issue], s.outputs, s.current, s.starts)
  {
    hide Agree, BackendAgrees, StartsOk, RequestsOk, ActiveDisjoint, WatchOk, LogOk, FreshLog, EventsOk,
      SuccessListed, SuccessesOk, RecoveryOk, IssuedOk, OnOwnStart;
  }

  lemma AppendFresh(st: Static, s: State, gap: Gap, issue: Issue)
    requires InvX(st, s, gap)
    ensures FreshLog(s.published, s.issued[s.nextToken := issue], st.config)
  {
    hide Agree, BackendAgrees, StartsOk, RequestsOk, ActiveDisjoint, WatchOk, PermitsOk, EventsOk, SuccessListed,
      SuccessesOk, RecoveryOk, IssuedOk, TrailsOk, FreshAt;
  }

  lemma TokenIsFresh(st: Static, s: State, gap: Gap)
    requires InvX(st, s, gap)
    ensures s.nextToken > 0 && s.nextToken !in s.issued
  {
    hide Agree, BackendAgrees, StartsOk, RequestsOk, ActiveDisjoint, WatchOk, LogOk, FreshLog, EventsOk,
      SuccessListed, SuccessesOk, RecoveryOk, IssuedOk, TrailsOk;
  }

  lemma IssueHasJoints(issue: Issue, st: Static)
    requires IssueOk(issue, st)
    ensures issue.command.joints != []
  {
  }

  lemma AppendPermits(
    permits: map<Joint, Permit>, issued: map<nat, Issue>, nextToken: nat, published: seq<Publication>, issue: Issue)
    requires PermitsOk(permits, issued, nextToken) && LogOk(published, permits, nextToken)
    requires issue.command.token == nextToken
    ensures var more := permits + Each(issue.command.joints, Permit(issue.command.session, nextToken));
            PermitsOk(more, issued[nextToken := issue], nextToken + 1) && LogOk(published, more, nextToken + 1)
  {
  }

  lemma PublishKeeps(st: Static, s: State, gap: Gap, approved: seq<JointCommand>, times: seq<Time>)
    requires InvX(st, s, gap) && BatchOk(approved, s.permits, s.published, s.nextToken) && |times| == |approved|
    requires forall k :: 0 <= k < |approved| ==> FreshFor(s, approved[k], st.config, times[k])
    ensures InvX(st, Publish(s, approved, times), gap) && Evolves(s, Publish(s, approved, times))
  {
    hide Agree, BackendAgrees, StartsOk, RequestsOk, ActiveDisjoint, WatchOk, PermitsOk, LogOk, FreshLog, EventsOk,
      SuccessListed, SuccessesOk, RecoveryOk, IssuedOk, TrailsOk, Inv, Holds, JointsOf, Published, BatchOk, FreshFor,
      StartsGrow;
    EvolvesReflexive(s);
    FewerPermits(s, s.permits - JointsOf(approved));
    PublishLog(s.published, s.permits, s.nextToken, approved, times);
    PublishFresh(st, s, gap, approved, times);
  }

  lemma PublishLog(
    published: seq<Publication>, permits: map<Joint, Permit>, nextToken: nat, approved: seq<JointCommand>,
    times: seq<Time>)
    requires LogOk(published, permits, nextToken) && BatchOk(approved, permits, published, nextToken)
    requires |times| == |approved|
    ensures LogOk(published + Published(approved, times, |published|), permits - JointsOf(approved), nextToken)
  {
    hide Published;
    var log := Published(approved, times, |published|);
    var more := published + log;
    forall a, b, joint | 0 <= a < b < |more| && joint in more[a].command.joints && joint in more[b].command.joints
      ensures more[a].command.token < more[b].command.token || Repeats(more[a], more[b])
    {
      if a >= |published| {
        SharedIsRepeated(approved, times, |published|, log, a - |published|, b - |published|, joint);
      }
    }
  }

  /** Commands of one call share a joint only with one token of one session. */
  lemma SharedIsRepeated(
    approved: seq<JointCommand>, times: seq<Time>, call: nat, log: seq<Publication>, i: nat, j: nat, joint: Joint)
    requires |times| == |approved| && log == Published(approved, times, call) && i < |approved| && j < |approved|
    requires forall k, m, shared ::
      0 <= k < |approved| && 0 <= m < |approved| && shared in approved[k].joints && shared in approved[m].joints ==>
        OneToken(approved[k], approved[m])
    requires joint in approved[i].joints && joint in approved[j].joints
    ensures Repeats(log[i], log[j])
  {
    hide Published;
  }

  lemma PublishFresh(st: Static, s: State, gap: Gap, approved: seq<JointCommand>, times: seq<Time>)
    requires InvX(st, s, gap) && |times| == |approved|
    requires forall k :: 0 <= k < |approved| ==> FreshFor(s, approved[k], st.config, times[k])
    ensures FreshLog(s.published + Published(approved, times, |s.published|), s.issued, st.config)
  {
    hide Agree, BackendAgrees, StartsOk, RequestsOk, ActiveDisjoint, WatchOk, PermitsOk, LogOk, EventsOk,
      SuccessListed, SuccessesOk, RecoveryOk, IssuedOk, TrailsOk, FreshAt;
    var more := s.published + Published(approved, times, |s.published|);
    forall a | 0 <= a < |more| && IsIssued(s.issued, more[a].command)
      ensures FreshAt(s.issued[more[a].command.token], st.config, more[a].at)
    {
      if a >= |s.published| {
        assert FreshFor(s, approved[a - |s.published|], st.config, times[a - |s.published|]);
      }
    }
  }

  // ---- Starting, output and monitoring of one session ----

  function EventOf(s: State, id: Id, state: SessionState): Event
    requires id in s.sessions
  {
    Event(id, state, OK, s.sessions[id].serial)
  }

  /** The backend holds the session but the pipeline does not count it as active yet. */
  function BackendStarted(s: State, id: Id): State
    requires id in s.sessions
  {
    s.(starts := s.starts + [StartOf(s.sessions[id])], current := s.current[id := |s.starts|])
  }

  function StartOf(session: Session): Start {
    Start(session.serial, session.group, session.request.kind, session.request.waypoints, [])
  }

  function Activate(s: State, id: Id, last: JointTarget, recovering: bool): State
    requires id in s.sessions
  {
    s.(sessions := s.sessions[id := s.sessions[id].(started := true, last := last, recovering := recovering)],
       active := s.active + {id},
       outputs := s.outputs[id := [last.positions]],
       delivered := s.delivered + [EventOf(s, id, RUNNING)])
  }

  function Output(s: State, id: Id, last: JointTarget): State
    requires id in s.sessions && id in s.outputs
  {
    s.(sessions := s.sessions[id := s.sessions[id].(last := last)],
       outputs := s.outputs[id := s.outputs[id] + [last.positions]])
  }

  function Recovered(s: State, id: Id): State
    requires id in s.sessions
  {
    s.(sessions := s.sessions[id := s.sessions[id].(recovering := false)],
       delivered := s.delivered + [EventOf(s, id, RUNNING)])
  }

  /** The goal of a session is watched, by the observations listed. */
  function Watch(s: State, id: Id, goal: Goals.Goal, history: seq<Goals.Observation>): State {
    s.(goals := s.goals[id := goal], histories := s.histories[id := history])
  }

  /** Watched from now on, because the current start's path was reached. */
  function WatchPath(s: State, id: Id, goal: Goals.Goal): State
    requires id in s.current
  {
    Watch(s.(via := s.via[id := s.current[id]]), id, goal, [])
  }

  ghost predicate LastOk(session: Session, last: JointTarget, groups: map<string, Group>) {
    && session.group in groups && ValidGroup(groups[session.group])
    && |last.positions| == |last.velocities| == |last.accelerations| == |groups[session.group].joints|
  }

  lemma BackendStartedKeeps(st: Static, s: State, id: Id)
    requires id in s.sessions && !s.sessions[id].started && InvX(st, s, CLOSED)
    ensures InvX(st, BackendStarted(s, id), Gap({}, {}, {id})) && Evolves(s, BackendStarted(s, id))
    ensures id !in s.current
  {
    hide StartsOk, RequestsOk, ActiveDisjoint, WatchOk, PermitsOk, LogOk, FreshLog, EventsOk, SuccessListed,
      SuccessesOk, RecoveryOk, IssuedOk, TrailsOk, Inv, SessionOk, ClaimAgrees;
    hide StartsGrow;
    BackendStartedStarts(st, s, id);
    assert BackendStarted(s, id).current.Keys == s.current.Keys + {id};
  }

  lemma BackendStartedStarts(st: Static, s: State, id: Id)
    requires id in s.sessions && id !in s.current && InvX(st, s, CLOSED)
    ensures var t := BackendStarted(s, id);
            && StartsGrow(s.starts, t.starts) && StartsOk(t.sessions, t.starts, t.current)
            && WatchOk(t.sessions, t.goals, t.histories, t.via, t.starts)
            && SuccessesOk(t.successes, t.requests, t.starts, st.config.stableDuration)
            && TrailsOk(t.issued, t.outputs, t.current, t.starts)
  {
    hide Agree, BackendAgrees, RequestsOk, ActiveDisjoint, WatchOk, PermitsOk, LogOk, FreshLog, EventsOk,
      SuccessListed, SuccessesOk, RecoveryOk, IssuedOk, SameStart;
    var t := BackendStarted(s, id);
    StartsMoreWatch(s.sessions, s.goals, s.histories, s.via, s.starts, t.starts);
    StartsMoreSuccess(s.successes, s.requests, s.starts, t.starts, st.config.stableDuration);
    TrailsStart(s.issued, s.outputs, s.current, s.starts, t.starts, id);
    hide TrailsOk;
  }

  lemma TrailsStart(
    issued: map<nat, Issue>, outputs: map<Id, seq<seq<real>>>, current: map<Id, nat>, starts: seq<Start>,
    more: seq<Start>, id: Id)
    requires TrailsOk(issued, outputs, current, starts) && StartsGrow(starts, more)
    ensures TrailsOk(issued, outputs, current, more) && TrailsOk(issued, outputs, current[id := |starts|], more)
  {
    hide SameStart;
    forall t | t in issued && issued[t].source.Along?
      ensures OnOwnStart(issued[t], more) && issued[t].source.start < |starts|
    {
      assert OnOwnStart(issued[t], starts);
    }
  }

  lemma ReachedStays(request: Request, serial: nat, starts: seq<Start>, more: seq<Start>, k: nat)
    requires StartsGrow(starts, more) && Reached(request, serial, starts, k)
    ensures Reached(request, serial, more, k)
  {
    PathStaysReached(starts, more, k);
  }

  lemma StartsMoreWatch(
    sessions: map<Id, Session>, goals: map<Id, Goals.Goal>, histories: map<Id, seq<Goals.Observation>>,
    via: map<Id, nat>,
    starts: seq<Start>, more: seq<Start>)
    requires WatchOk(sessions, goals, histories, via, starts) && StartsGrow(starts, more)
    ensures WatchOk(sessions, goals, histories, via, more)
  {
    hide GoalOf, Reached, StartsGrow;
    forall id | id in goals && goals[id].cartesian
      ensures id in via && Reached(sessions[id].request, sessions[id].serial, more, via[id])
    {
      ReachedStays(sessions[id].request, sessions[id].serial, starts, more, via[id]);
    }
  }

  lemma StartsMoreSuccess(
    successes: map<nat, Success>, requests: seq<Request>, starts: seq<Start>, more: seq<Start>, stable: Time)
    requires SuccessesOk(successes, requests, starts, stable) && StartsGrow(starts, more)
    ensures SuccessesOk(successes, requests, more, stable)
  {
    hide Reached, StartsGrow, Goals.Settled;
    forall n | n in successes ensures Earned(requests[n], n, successes[n], more, stable) {
      assert Earned(requests[n], n, successes[n], starts, stable);
      if requests[n].kind != MoveJ { ReachedStays(requests[n], n, starts, more, successes[n].start.value); }
    }
  }

  /** What the SDK reports of a start changes nothing else. */
  lemma HeardKeeps(st: Static, s: State, gap: Gap, k: nat, starts: seq<Start>)
    requires InvX(st, s, gap) && k < |s.starts| && Heard(s.starts, starts, k)
    ensures InvX(st, s.(starts := starts), gap) && Evolves(s, s.(starts := starts))
  {
    hide Agree, BackendAgrees, RequestsOk, ActiveDisjoint, WatchOk, PermitsOk, LogOk, FreshLog, EventsOk,
      SuccessListed, SuccessesOk, RecoveryOk, IssuedOk, TrailsOk, Inv, Heard, StartsGrow, SameStart;
    HeardGrows(s.starts, starts, k);
    StartsMoreWatch(s.sessions, s.goals, s.histories, s.via, s.starts, starts);
    StartsMoreSuccess(s.successes, s.requests, s.starts, starts, st.config.stableDuration);
    TrailsStart(s.issued, s.outputs, s.current, s.starts, starts, "");
  }

  lemma HeardGrows(before: seq<Start>, after: seq<Start>, k: nat)
    requires k < |before| && Heard(before, after, k)
    ensures StartsGrow(before, after) && |after| == |before|
    ensures forall n :: 0 <= n < |before| ==> after[n] == before[n].(reports := after[n].reports)
  {
  }

  lemma ActivateKeeps(st: Static, s: State, id: Id, last: JointTarget, recovering: bool)
    requires id in s.sessions && (s.sessions[id].request.kind == MoveJ ==> id in s.goals)
    requires InvX(st, s, Gap({}, {}, {id}))
    requires LastOk(s.sessions[id], last, st.groups)
    requires SessionOutputs(st.groups[s.sessions[id].group], st.config.recovery.margin, [last.positions])
    requires forall other :: other in s.active && other in s.sessions ==>
      !Overlaps(s.sessions[other].joints, s.sessions[id].joints)
    ensures InvX(st, Activate(s, id, last, recovering), CLOSED) && Evolves(s, Activate(s, id, last, recovering))
  {
    hide Agree, BackendAgrees, StartsOk, RequestsOk, ActiveDisjoint, WatchOk, PermitsOk, LogOk, FreshLog, EventsOk,
      SuccessListed, SuccessesOk, RecoveryOk, IssuedOk, TrailsOk, Inv, StartsGrow, LastOk, SessionOutputs, ValidGroup,
      RecoveryAt;
    EvolvesReflexive(s);
    var session := s.sessions[id].(started := true, last := last, recovering := recovering);
    SessionUpdated(st, s, Gap({}, {}, {id}), id, session);
    AgreeClosed(s.sessions[id := session], s.arbiter, st.groups, {id});
    StreamRuns(s.sessions, s.created, s.delivered, s.pending, id, EventOf(s, id, RUNNING));
    StreamKeeps(s.sessions, s.created, s.delivered + [EventOf(s, id, RUNNING)] + s.pending, id, session);
    BackendActivates(s.sessions, s.active, s.current.Keys, id, session);
    JoinDisjoint(s.sessions[id := session], s.active, id);
    RestingRecovers(s.sessions[id], last, recovering, st.groups, st.config.recovery.margin);
    RecoverySets(s.sessions, s.active, s.outputs, st.groups, st.config.recovery.margin, id, session, [last.positions]);
    RunningSucceeds(s.delivered, s.pending, s.successes, EventOf(s, id, RUNNING));
    TrailBegins(st, s, id, last.positions);
  }

  lemma RestingRecovers(session: Session, last: JointTarget, recovering: bool, groups: map<string, Group>, margin: real)
    requires LastOk(session, last, groups) && SessionOutputs(groups[session.group], margin, [last.positions])
    ensures RecoveryAt(
      session.(started := true, last := last, recovering := recovering), [last.positions], groups, margin)
  {
  }

  /** Nothing returned yet follows a start that only now has outputs. */
  lemma TrailBegins(st: Static, s: State, id: Id, positions: seq<real>)
    requires InvX(st, s, Gap({}, {}, {id}))
    ensures TrailsOk(s.issued, s.outputs[id := [positions]], s.current, s.starts)
  {
    hide Agree, StartsOk, RequestsOk, ActiveDisjoint, WatchOk, PermitsOk, LogOk, FreshLog, EventsOk, SuccessListed,
      SuccessesOk, IssuedOk, RecoveryAt, OnOwnStart, SameStart;
  }

  lemma AgreeClosed(sessions: map<Id, Session>, arbiter: Arbiter, groups: map<string, Group>, starting: set<Id>)
    requires Agree(sessions, arbiter, groups, Gap({}, {}, starting))
    ensures Agree(sessions, arbiter, groups, CLOSED)
  {
    hide Inv, SessionOk, ClaimAgrees;
  }

  lemma BackendActivates(sessions: map<Id, Session>, active: set<Id>, live: set<Id>, id: Id, session: Session)
    requires BackendAgrees(sessions, active, live, Gap({}, {}, {id})) && session.started
    ensures BackendAgrees(sessions[id := session], active + {id}, live, CLOSED)
  {
  }

  lemma JoinDisjoint(sessions: map<Id, Session>, active: set<Id>, id: Id)
    requires ActiveDisjoint(sessions, active) && id in sessions
    requires forall other :: other in active && other in sessions && other != id ==>
      !Overlaps(sessions[other].joints, sessions[id].joints)
    ensures ActiveDisjoint(sessions, active + {id})
  {
    forall a, b | a in active + {id} && b in active + {id} && a != b && a in sessions && b in sessions
      ensures !Overlaps(sessions[a].joints, sessions[b].joints)
    {
      OverlapsSymmetric(sessions[a].joints, sessions[b].joints);
    }
  }

  lemma OverlapsSymmetric(a: seq<Joint>, b: seq<Joint>)
    ensures Overlaps(a, b) <==> Overlaps(b, a)
  {
  }

  lemma RecoverySets(
    sessions: map<Id, Session>, active: set<Id>, outputs: map<Id, seq<seq<real>>>, groups: map<string, Group>,
    margin: real,
    id: Id, session: Session, history: seq<seq<real>>)
    requires RecoveryOk(sessions, active, outputs, groups, margin) && RecoveryAt(session, history, groups, margin)
    ensures RecoveryOk(sessions[id := session], active + {id}, outputs[id := history], groups, margin)
  {
    hide RecoveryAt;
  }

  lemma RunningSucceeds(front: seq<Event>, back: seq<Event>, successes: map<nat, Success>, e: Event)
    requires SuccessListed(front + back, successes) && e.state == RUNNING
    ensures SuccessListed(front + [e] + back, successes)
  {
    var stream, longer := front + back, front + [e] + back;
    assert forall i :: 0 <= i < |front| ==> longer[i] == stream[i];
    assert longer[|front|] == e;
    assert forall i :: |front| < i < |longer| ==> longer[i] == stream[i - 1];
    hide EndedSerial;
    forall n | n in successes ensures EndedSerial(longer, n) {
      EndStaysInStream(front, back, e, n);
    }
  }

  lemma OutputKeeps(st: Static, s: State, gap: Gap, id: Id, last: JointTarget)
    requires id in s.active && id in s.sessions && id in s.outputs && InvX(st, s, gap)
    requires LastOk(s.sessions[id], last, st.groups)
    requires NextPositions(st.groups[s.sessions[id].group], s.sessions[id].last.positions, last.positions)
    ensures InvX(st, Output(s, id, last), gap) && Evolves(s, Output(s, id, last))
  {
    hide Agree, BackendAgrees, StartsOk, RequestsOk, ActiveDisjoint, WatchOk, PermitsOk, LogOk, FreshLog, EventsOk,
      SuccessListed, SuccessesOk, RecoveryOk, IssuedOk, TrailsOk, RecoveryAt, Inv, NextPositions, StartsGrow;
    EvolvesReflexive(s);
    OutputContinues(st, s, gap, id, last);
    var session := s.sessions[id].(last := last);
    SessionUpdated(st, s, gap, id, session);
    StreamKeeps(s.sessions, s.created, s.delivered + s.pending, id, session);
    BackendKeeps(s.sessions, s.active, s.current.Keys, gap, id, session);
    RecoverySets(
      s.sessions, s.active, s.outputs, st.groups, st.config.recovery.margin, id, session,
      s.outputs[id] + [last.positions]);
    TrailGrows(s.issued, s.outputs, s.current, s.starts, id, last.positions);
    assert s.active + {id} == s.active;
  }

  /** One output more continues whatever followed the start before. */
  lemma TrailGrows(
    issued: map<nat, Issue>, outputs: map<Id, seq<seq<real>>>, current: map<Id, nat>, starts: seq<Start>, id: Id,
    next: seq<real>)
    requires TrailsOk(issued, outputs, current, starts) && id in outputs
    ensures TrailsOk(issued, outputs[id := outputs[id] + [next]], current, starts)
  {
    hide OnOwnStart, SameStart;
  }

  /** A remembered output and the command that carries it. */
  function Emitted(s: State, id: Id, last: JointTarget, issue: Issue): State
    requires id in s.sessions && id in s.outputs
  {
    Append(Output(s, id, last), issue)
  }

  /** An issue for the output of an active session that follows its outputs so far. */
  predicate Follower(s: State, id: Id, last: JointTarget, issue: Issue) {
    && id in s.sessions && id in s.outputs && id in s.current
    && issue.source == Along(s.current[id], s.outputs[id] + [last.positions])
    && issue.serial == s.sessions[id].serial && issue.kind == s.sessions[id].request.kind
    && issue.command.group == s.sessions[id].group
    && issue.command.positions == last.positions && issue.command.token == s.nextToken
  }

  lemma EmittedKeeps(st: Static, s: State, gap: Gap, id: Id, last: JointTarget, issue: Issue)
    requires id in s.active && Follower(s, id, last, issue) && IssueOk(issue, st) && InvX(st, s, gap)
    requires LastOk(s.sessions[id], last, st.groups)
    requires NextPositions(st.groups[s.sessions[id].group], s.sessions[id].last.positions, last.positions)
    ensures InvX(st, Emitted(s, id, last, issue), gap) && Evolves(s, Emitted(s, id, last, issue))
    ensures Holds(Emitted(s, id, last, issue).permits, issue.command)
  {
    hide InvX, Evolves, IssueOk, LastOk, NextPositions, Append, Holds, TrailFits;
    OutputKeeps(st, s, gap, id, last);
    FollowerFits(st, s, gap, id, last, issue);
    IssueOfSession(st, s, gap, id, issue);
    AppendKeeps(st, Output(s, id, last), gap, issue);
    EvolvesTransitive(s, Output(s, id, last), Emitted(s, id, last, issue));
  }

  lemma FollowerFits(st: Static, s: State, gap: Gap, id: Id, last: JointTarget, issue: Issue)
    requires id in s.active && Follower(s, id, last, issue) && InvX(st, s, gap)
    ensures TrailFits(Output(s, id, last), issue)
  {
    hide Agree, BackendAgrees, RequestsOk, ActiveDisjoint, WatchOk, PermitsOk, LogOk, FreshLog, EventsOk,
      SuccessListed, SuccessesOk, RecoveryOk, IssuedOk;
    forall t | t in s.issued && SameStart(s.issued[t], issue) ensures s.issued[t].source.trail < issue.source.trail {
      assert s.issued[t].source.trail <= s.outputs[id];
    }
  }

  lemma OutputContinues(st: Static, s: State, gap: Gap, id: Id, last: JointTarget)
    requires id in s.active && id in s.sessions && id in s.outputs && InvX(st, s, gap)
    requires LastOk(s.sessions[id], last, st.groups)
    requires NextPositions(st.groups[s.sessions[id].group], s.sessions[id].last.positions, last.positions)
    ensures RecoveryAt(
      s.sessions[id].(last := last), s.outputs[id] + [last.positions], st.groups, st.config.recovery.margin)
  {
    hide Agree, BackendAgrees, StartsOk, RequestsOk, ActiveDisjoint, WatchOk, PermitsOk, LogOk, FreshLog, EventsOk,
      SuccessListed, SuccessesOk, IssuedOk, TrailsOk, Inv, NextPositions;
    RecoveryIgnoresFlag(st, s, gap, id);
    SessionGrows(st.groups[s.sessions[id].group], st.config.recovery.margin, s.outputs[id], last.positions);
  }

  lemma BackendKeeps(sessions: map<Id, Session>, active: set<Id>, live: set<Id>, gap: Gap, id: Id, session: Session)
    requires BackendAgrees(sessions, active, live, gap) && id in sessions && session.started == sessions[id].started
    ensures BackendAgrees(sessions[id := session], active, live, gap)
  {
  }

  lemma RecoveryIgnoresFlag(st: Static, s: State, gap: Gap, id: Id)
    requires id in s.active && id in s.sessions && id in s.outputs && InvX(st, s, gap)
    ensures RecoveryAt(s.sessions[id], s.outputs[id], st.groups, st.config.recovery.margin)
    ensures RecoveryAt(s.sessions[id].(recovering := false), s.outputs[id], st.groups, st.config.recovery.margin)
  {
    hide Agree, BackendAgrees, StartsOk, RequestsOk, ActiveDisjoint, WatchOk, PermitsOk, LogOk, FreshLog, EventsOk,
      SuccessListed, SuccessesOk, IssuedOk, TrailsOk, Inv;
  }

  lemma RecoveredKeeps(st: Static, s: State, gap: Gap, id: Id)
    requires id in s.active && id in s.sessions && id in s.outputs && InvX(st, s, gap)
    ensures InvX(st, Recovered(s, id), gap) && Evolves(s, Recovered(s, id))
  {
    hide InvX, Evolves;
    var reported := s.(delivered := s.delivered + [EventOf(s, id, RUNNING)]);
    ReportKeeps(st, s, gap, id);
    FlagKeeps(st, reported, gap, id);
    EvolvesTransitive(s, reported, Recovered(s, id));
  }

  lemma ReportKeeps(st: Static, s: State, gap: Gap, id: Id)
    requires id in s.sessions && InvX(st, s, gap)
    ensures var t := s.(delivered := s.delivered + [EventOf(s, id, RUNNING)]); InvX(st, t, gap) && Evolves(s, t)
  {
    hide Agree, BackendAgrees, StartsOk, RequestsOk, ActiveDisjoint, WatchOk, PermitsOk, LogOk, FreshLog, EventsOk,
      SuccessListed, SuccessesOk, RecoveryOk, IssuedOk, TrailsOk, StartsGrow;
    EvolvesReflexive(s);
    StreamRuns(s.sessions, s.created, s.delivered, s.pending, id, EventOf(s, id, RUNNING));
    RunningSucceeds(s.delivered, s.pending, s.successes, EventOf(s, id, RUNNING));
  }

  lemma FlagKeeps(st: Static, s: State, gap: Gap, id: Id)
    requires id in s.active && id in s.sessions && id in s.outputs && InvX(st, s, gap)
    ensures var t := s.(sessions := s.sessions[id := s.sessions[id].(recovering := false)]);
            InvX(st, t, gap) && Evolves(s, t)
  {
    hide Agree, BackendAgrees, StartsOk, RequestsOk, ActiveDisjoint, WatchOk, PermitsOk, LogOk, FreshLog, EventsOk,
      SuccessListed, SuccessesOk, RecoveryOk, IssuedOk, TrailsOk, RecoveryAt, StartsGrow;
    EvolvesReflexive(s);
    var session := s.sessions[id].(recovering := false);
    RecoveryIgnoresFlag(st, s, gap, id);
    SessionUpdated(st, s, gap, id, session);
    StreamKeeps(s.sessions, s.created, s.delivered + s.pending, id, session);
    BackendKeeps(s.sessions, s.active, s.current.Keys, gap, id, session);
    RecoverySets(s.sessions, s.active, s.outputs, st.groups, st.config.recovery.margin, id, session, s.outputs[id]);
    assert s.active + {id} == s.active && s.outputs[id := s.outputs[id]] == s.outputs;
  }

  lemma WatchKeeps(st: Static, s: State, gap: Gap, id: Id, goal: Goals.Goal, history: seq<Goals.Observation>)
    requires id in s.sessions && GoalOf(s.sessions[id], goal)
    requires goal.cartesian ==>
      id in s.via && Reached(s.sessions[id].request, s.sessions[id].serial, s.starts, s.via[id])
    requires InvX(st, s, gap)
    ensures InvX(st, Watch(s, id, goal, history), gap) && Evolves(s, Watch(s, id, goal, history))
  {
    hide Agree, BackendAgrees, StartsOk, RequestsOk, ActiveDisjoint, WatchOk, PermitsOk, LogOk, FreshLog, EventsOk,
      SuccessListed, SuccessesOk, RecoveryOk, IssuedOk, TrailsOk, Inv, GoalOf, Reached, StartsGrow;
    EvolvesReflexive(s);
    GoalWatched(s.sessions, s.goals, s.histories, s.via, s.starts, id, goal, history);
  }

  lemma GoalWatched(
    sessions: map<Id, Session>, goals: map<Id, Goals.Goal>, histories: map<Id, seq<Goals.Observation>>,
    via: map<Id, nat>,
    starts: seq<Start>, id: Id, goal: Goals.Goal, history: seq<Goals.Observation>)
    requires WatchOk(sessions, goals, histories, via, starts) && id in sessions && GoalOf(sessions[id], goal)
    requires goal.cartesian ==> id in via && Reached(sessions[id].request, sessions[id].serial, starts, via[id])
    ensures WatchOk(sessions, goals[id := goal], histories[id := history], via, starts)
  {
    hide GoalOf, Reached;
    assert goals[id := goal].Keys == histories[id := history].Keys;
  }

  /** A session whose current start's path was reached may be watched for it. */
  lemma WatchPathKeeps(st: Static, s: State, gap: Gap, id: Id, goal: Goals.Goal)
    requires id in s.sessions && id in s.current && s.current[id] < |s.starts|
    requires GoalOf(s.sessions[id], goal) && PathReached(s.starts[s.current[id]])
    requires InvX(st, s, gap)
    ensures InvX(st, WatchPath(s, id, goal), gap) && Evolves(s, WatchPath(s, id, goal))
  {
    hide Agree, BackendAgrees, StartsOk, RequestsOk, ActiveDisjoint, WatchOk, PermitsOk, LogOk, FreshLog, EventsOk,
      SuccessListed, SuccessesOk, RecoveryOk, IssuedOk, TrailsOk, Inv, GoalOf, Reached, PathReached, StartsGrow;
    EvolvesReflexive(s);
    PathIsReached(s.sessions, s.starts, s.current, id);
    ViaSet(s.sessions, s.goals, s.histories, s.via, s.starts, id, s.current[id]);
    GoalWatched(s.sessions, s.goals, s.histories, s.via[id := s.current[id]], s.starts, id, goal, []);
  }

  lemma PathIsReached(sessions: map<Id, Session>, starts: seq<Start>, current: map<Id, nat>, id: Id)
    requires StartsOk(sessions, starts, current) && id in sessions && id in current && current[id] < |starts|
    requires PathReached(starts[current[id]])
    ensures Reached(sessions[id].request, sessions[id].serial, starts, current[id])
  {
    hide PathReached;
    assert OwnStart(sessions[id], starts[current[id]]);
  }

  /** A reached path may take the place of an earlier one. */
  lemma ViaSet(
    sessions: map<Id, Session>, goals: map<Id, Goals.Goal>, histories: map<Id, seq<Goals.Observation>>,
    via: map<Id, nat>,
    starts: seq<Start>, id: Id, k: nat)
    requires WatchOk(sessions, goals, histories, via, starts) && id in sessions
    requires Reached(sessions[id].request, sessions[id].serial, starts, k)
    ensures WatchOk(sessions, goals, histories, via[id := k], starts)
  {
    hide GoalOf, Reached;
  }

  // ---- Admission ----

  /** Terminate the listed sessions one after the other. */
  function EndAll(s: State, ids: seq<Id>, state: SessionState, code: Code): State {
    if ids == [] then s
    else Terminate(EndAll(s, ids[..|ids| - 1], state, code), ids[|ids| - 1], state, code, false)
  }

  /** Preempted Moves end first, then the expired Servos. */
  function Displace(s: State, preempted: seq<Id>, expired: seq<Id>): State {
    EndAll(EndAll(s, preempted, SessionState.PREEMPTED, Code.PREEMPTED), expired, ABORTED, STALE_FEEDBACK)
  }

  /** What ending a session leaves alone. */
  ghost predicate SameFrame(s: State, t: State) {
    && t.enabled == s.enabled && t.generation == s.generation && t.created == s.created && t.nextToken == s.nextToken
    && t.commands == s.commands && t.published == s.published && t.delivered == s.delivered && t.issued == s.issued
    && t.arbiter.policies == s.arbiter.policies && t.arbiter.next == s.arbiter.next && t.starts == s.starts
    && t.requests == s.requests
  }

  lemma TerminateFrame(s: State, id: Id, state: SessionState, code: Code, preserve: bool)
    ensures SameFrame(s, Terminate(s, id, state, code, preserve))
    ensures Terminate(s, id, state, code, preserve).sessions == s.sessions - {id}
  {
    assert id !in s.sessions ==> s.sessions - {id} == s.sessions;
  }

  lemma {:induction false} EndAllFrame(s: State, ids: seq<Id>, state: SessionState, code: Code)
    ensures SameFrame(s, EndAll(s, ids, state, code))
    ensures EndAll(s, ids, state, code).sessions == s.sessions - Members(ids)
    decreases |ids|
  {
    hide Terminate;
    if ids != [] {
      var n := |ids| - 1;
      EndAllFrame(s, ids[..n], state, code);
      TerminateFrame(EndAll(s, ids[..n], state, code), ids[n], state, code, false);
      assert ids == ids[..n] + [ids[n]];
      assert s.sessions - Members(ids) == s.sessions - Members(ids[..n]) - {ids[n]};
    }
  }

  /** Only the listed sessions lose their claims and their activity. */
  lemma {:induction false} EndAllElsewhere(s: State, ids: seq<Id>, state: SessionState, code: Code, id: Id)
    requires id !in ids
    ensures var t := EndAll(s, ids, state, code);
      && (id in t.arbiter.claims <==> id in s.arbiter.claims)
      && (id in s.arbiter.claims ==> t.arbiter.claims[id] == s.arbiter.claims[id])
      && (id in t.active <==> id in s.active)
    decreases |ids|
  {
    hide WithoutSession;
    if ids != [] {
      EndAllElsewhere(s, ids[..|ids| - 1], state, code, id);
    }
  }

  function Create(s: State, session: Session): State {
    s.(sessions := s.sessions[session.id := session], created := s.created + 1,
      requests := s.requests + [session.request])
  }

  /** A newer Servo target replaces the request and its receipt time, nothing else. */
  function Retarget(s: State, id: Id, request: Request, receivedAt: Time): State
    requires id in s.sessions
  {
    s.(sessions := s.sessions[id := s.sessions[id].(request := request, submittedAt := receivedAt)])
  }

  /** After the arbiter moved, sessions that lost their claim are on their way out. */
  lemma ArbiterMoved(st: Static, s: State, arbiter: Arbiter, gone: set<Id>, entering: set<Id>)
    requires InvX(st, s, CLOSED) && Inv(arbiter) && arbiter.policies == s.arbiter.policies
    requires gone <= s.sessions.Keys && s.sessions.Keys - gone == arbiter.claims.Keys - entering
    requires forall id :: id in arbiter.claims && id !in entering ==>
      id in s.arbiter.claims && arbiter.claims[id] == s.arbiter.claims[id]
    requires forall id :: id in s.sessions && id in entering ==> id in gone
    ensures InvX(st, s.(arbiter := arbiter), Gap(gone, entering, {}))
  {
    hide StartsOk, RequestsOk, ActiveDisjoint, WatchOk, PermitsOk, LogOk, FreshLog, EventsOk, SuccessListed,
      SuccessesOk, RecoveryOk, IssuedOk, TrailsOk, Inv, SessionOk;
    forall id | id in s.sessions && id !in gone ensures ClaimAgrees(arbiter.claims, id, s.sessions[id]) {
      assert id in arbiter.claims.Keys - entering;
      assert ClaimAgrees(s.arbiter.claims, id, s.sessions[id]);
    }
  }

  lemma CreateKeeps(st: Static, s: State, gone: set<Id>, session: Session)
    requires InvX(st, s, Gap(gone, {session.id}, {})) && session.id !in s.sessions
    requires SessionOk(s.arbiter.policies, st.groups, session.id, session) && session.serial == s.created
    requires !session.started
    requires ClaimAgrees(s.arbiter.claims, session.id, session)
    requires s.enabled && session.generation == s.generation
    ensures InvX(st, Create(s, session), Gap(gone, {}, {})) && Evolves(s, Create(s, session))
  {
    hide Agree, BackendAgrees, StartsOk, RequestsOk, ActiveDisjoint, WatchOk, PermitsOk, LogOk, FreshLog, EventsOk,
      SuccessListed, SuccessesOk, RecoveryOk, IssuedOk, TrailsOk, Inv, RecoveryAt, Overlaps, SessionOk, ClaimAgrees,
      StartsGrow;
    EvolvesReflexive(s);
    NewIsInactive(st, s, Gap(gone, {session.id}, {}), session.id);
    RecoveryElsewhere(s.sessions, s.active, s.outputs, st.groups, st.config.recovery.margin, session);
    StreamCreates(s.sessions, s.created, s.delivered + s.pending, session.id, session);
    CreateAgrees(s.sessions, s.arbiter, st.groups, gone, session);
    CreateBackend(s.sessions, s.active, s.current.Keys, gone, session);
    CreateRecords(st, s, Gap(gone, {session.id}, {}), session);
  }

  lemma CreateRecords(st: Static, s: State, gap: Gap, session: Session)
    requires InvX(st, s, gap) && session.id !in s.sessions && session.serial == s.created && !session.started
    ensures var t := Create(s, session);
            && StartsOk(t.sessions, t.starts, t.current) && RequestsOk(t.sessions, t.requests, t.created, t.issued)
            && WatchOk(t.sessions, t.goals, t.histories, t.via, t.starts)
            && SuccessesOk(t.successes, t.requests, t.starts, st.config.stableDuration)
  {
    hide Agree, BackendAgrees, StartsOk, ActiveDisjoint, WatchOk, PermitsOk, LogOk, FreshLog, EventsOk, SuccessListed,
      SuccessesOk, RecoveryOk, IssuedOk, TrailsOk, SessionOk;
    NewHasNoBackend(st, s, gap, session.id);
    NewWatch(s.sessions, s.goals, s.histories, s.via, s.starts, s.current, session);
    MoreRequests(s.successes, s.requests, s.starts, st.config.stableDuration, session.request);
  }

  lemma NewWatch(
    sessions: map<Id, Session>, goals: map<Id, Goals.Goal>, histories: map<Id, seq<Goals.Observation>>,
    via: map<Id, nat>,
    starts: seq<Start>, current: map<Id, nat>, session: Session)
    requires WatchOk(sessions, goals, histories, via, starts) && StartsOk(sessions, starts, current)
    requires session.id !in goals && session.id !in current && !session.started
    ensures WatchOk(sessions[session.id := session], goals, histories, via, starts)
    ensures StartsOk(sessions[session.id := session], starts, current)
  {
    hide GoalOf, Reached, OwnStart;
  }

  lemma MoreRequests(
    successes: map<nat, Success>, requests: seq<Request>, starts: seq<Start>, stable: Time, request: Request)
    requires SuccessesOk(successes, requests, starts, stable)
    ensures SuccessesOk(successes, requests + [request], starts, stable)
  {
    hide Earned;
    forall n | n in successes ensures Earned((requests + [request])[n], n, successes[n], starts, stable) {
      assert Earned(requests[n], n, successes[n], starts, stable);
    }
  }

  lemma NewIsInactive(st: Static, s: State, gap: Gap, id: Id)
    requires InvX(st, s, gap) && id !in s.sessions
    ensures id !in s.active
  {
    hide Agree, StartsOk, RequestsOk, ActiveDisjoint, WatchOk, PermitsOk, LogOk, FreshLog, EventsOk, SuccessListed,
      SuccessesOk, RecoveryOk, IssuedOk, TrailsOk;
  }

  lemma RecoveryElsewhere(
    sessions: map<Id, Session>, active: set<Id>, outputs: map<Id, seq<seq<real>>>, groups: map<string, Group>,
    margin: real,
    session: Session)
    requires RecoveryOk(sessions, active, outputs, groups, margin) && session.id !in active
    ensures RecoveryOk(sessions[session.id := session], active, outputs, groups, margin)
  {
    hide RecoveryAt;
  }

  lemma CreateAgrees(
    sessions: map<Id, Session>, arbiter: Arbiter, groups: map<string, Group>, gone: set<Id>, session: Session)
    requires Agree(sessions, arbiter, groups, Gap(gone, {session.id}, {})) && session.id !in sessions
    requires SessionOk(arbiter.policies, groups, session.id, session)
    requires ClaimAgrees(arbiter.claims, session.id, session)
    ensures Agree(sessions[session.id := session], arbiter, groups, Gap(gone, {}, {}))
  {
    hide Inv, SessionOk;
    var more := sessions[session.id := session];
    forall x ensures x in more.Keys - gone <==> x in arbiter.claims.Keys {
      assert x in sessions.Keys - gone <==> x in arbiter.claims.Keys - {session.id};
    }
  }

  lemma CreateBackend(sessions: map<Id, Session>, active: set<Id>, live: set<Id>, gone: set<Id>, session: Session)
    requires BackendAgrees(sessions, active, live, Gap(gone, {session.id}, {})) && session.id !in sessions
    requires !session.started
    ensures BackendAgrees(sessions[session.id := session], active, live, Gap(gone, {}, {}))
    ensures ActiveDisjoint(sessions, active) ==> ActiveDisjoint(sessions[session.id := session], active)
  {
    hide Overlaps;
  }

  lemma RetargetKeeps(st: Static, s: State, gone: set<Id>, id: Id, request: Request, receivedAt: Time)
    requires id in s.sessions && id !in gone && InvX(st, s, Gap(gone + {id}, {id}, {}))
    requires var session := s.sessions[id].(request := request, submittedAt := receivedAt);
             SessionOk(s.arbiter.policies, st.groups, id, session) && ClaimAgrees(s.arbiter.claims, id, session)
    requires request.kind == s.sessions[id].request.kind && request.kind.IsServo()
    ensures InvX(st, Retarget(s, id, request, receivedAt), Gap(gone, {}, {}))
    ensures Evolves(s, Retarget(s, id, request, receivedAt))
  {
    hide Agree, BackendAgrees, StartsOk, RequestsOk, ActiveDisjoint, WatchOk, PermitsOk, LogOk, FreshLog, EventsOk,
      SuccessListed, SuccessesOk, RecoveryOk, IssuedOk, TrailsOk, Inv, RecoveryAt, Overlaps, SessionOk, ClaimAgrees,
      StartsGrow;
    EvolvesReflexive(s);
    var session := s.sessions[id].(request := request, submittedAt := receivedAt);
    StreamKeeps(s.sessions, s.created, s.delivered + s.pending, id, session);
    RetargetAgrees(s.sessions, s.arbiter, st.groups, gone, id, session);
    RetargetBackend(s.sessions, s.active, s.current.Keys, gone, id, session);
    RetargetRecords(st, s, Gap(gone + {id}, {id}, {}), id, session);
    RetargetRecovery(s.sessions, s.active, s.outputs, st.groups, st.config.recovery.margin, id, session);
  }

  lemma RetargetRecords(st: Static, s: State, gap: Gap, id: Id, session: Session)
    requires id in s.sessions && session.request.kind == s.sessions[id].request.kind && InvX(st, s, gap)
    requires session == s.sessions[id].(request := session.request, submittedAt := session.submittedAt)
    requires session.request.kind.IsServo()
    ensures var sessions := s.sessions[id := session];
            && StartsOk(sessions, s.starts, s.current) && RequestsOk(sessions, s.requests, s.created, s.issued)
            && WatchOk(sessions, s.goals, s.histories, s.via, s.starts)
  {
    hide Agree, BackendAgrees, ActiveDisjoint, PermitsOk, LogOk, FreshLog, EventsOk, SuccessListed, SuccessesOk,
      RecoveryOk, IssuedOk, TrailsOk, Reached;
    ServoIsUnwatched(s.sessions, s.goals, s.histories, s.via, s.starts, id);
    WatchUpdated(s.sessions, s.goals, s.histories, s.via, s.starts, id, session);
    hide WatchOk;
  }

  lemma ServoIsUnwatched(
    sessions: map<Id, Session>, goals: map<Id, Goals.Goal>, histories: map<Id, seq<Goals.Observation>>,
    via: map<Id, nat>,
    starts: seq<Start>, id: Id)
    requires WatchOk(sessions, goals, histories, via, starts) && id in sessions && sessions[id].request.kind.IsServo()
    ensures id !in goals
  {
    hide Reached;
  }

  lemma RetargetRecovery(
    sessions: map<Id, Session>, active: set<Id>, outputs: map<Id, seq<seq<real>>>, groups: map<string, Group>,
    margin: real,
    id: Id, session: Session)
    requires RecoveryOk(sessions, active, outputs, groups, margin) && id in sessions
    requires session.group == sessions[id].group && session.last == sessions[id].last
    ensures RecoveryOk(sessions[id := session], active, outputs, groups, margin)
  {
    hide SessionOutputs, ValidGroup;
  }

  lemma RetargetAgrees(
    sessions: map<Id, Session>, arbiter: Arbiter, groups: map<string, Group>, gone: set<Id>, id: Id, session: Session)
    requires Agree(sessions, arbiter, groups, Gap(gone + {id}, {id}, {})) && id in sessions && id !in gone
    requires SessionOk(arbiter.policies, groups, id, session) && ClaimAgrees(arbiter.claims, id, session)
    ensures Agree(sessions[id := session], arbiter, groups, Gap(gone, {}, {}))
  {
    hide Inv, SessionOk;
    var more := sessions[id := session];
    forall x ensures x in more.Keys - gone <==> x in arbiter.claims.Keys {
      assert x in sessions.Keys - (gone + {id}) <==> x in arbiter.claims.Keys - {id};
    }
  }

  lemma RetargetBackend(
    sessions: map<Id, Session>, active: set<Id>, live: set<Id>, gone: set<Id>, id: Id, session: Session)
    requires BackendAgrees(sessions, active, live, Gap(gone + {id}, {id}, {})) && id in sessions
    requires session.started == sessions[id].started && session.joints == sessions[id].joints
    ensures BackendAgrees(sessions[id := session], active, live, Gap(gone, {}, {}))
    ensures ActiveDisjoint(sessions, active) ==> ActiveDisjoint(sessions[id := session], active)
  {
    hide Overlaps;
  }

  // ---- Requests ----

  function RequestCode(groups: map<string, Group>, policy: Policy, request: Request, expectServo: bool): Code {
    if request.kind.IsServo() != expectServo || policy.kind != request.kind || policy.group != request.group
      then INVALID_ARGUMENT
    else if request.group !in groups then NOT_CONFIGURED
    else if !expectServo && request.id == "" then INVALID_ARGUMENT
    else if request.velocityLimits != [] && |request.velocityLimits| != |groups[request.group].joints|
      then INVALID_ARGUMENT
    else if request.check != OK then request.check
    else if request.kind == MoveP && request.waypoints == 0 then INVALID_ARGUMENT
    else OK
  }

  function NewSession(groups: map<string, Group>, policy: Policy, request: Request, serial: nat): Session
    requires request.group in groups
  {
    Session(
      policy.endpoint, if request.kind.IsServo() then ServoId(policy.endpoint) else request.id,
      groups[request.group].name,
      groups[request.group].joints, request, 0, false, JointTarget([], [], [], []), false, serial, 0)
  }

  // ---- Submission ----

  /** The claim of a valid request passes the arbiter's own validation. */
  lemma RequestClaimValid(st: Static, s: State, session: Session)
    requires ValidStatic(st) && Agree(s.sessions, s.arbiter, st.groups, CLOSED)
    requires SessionOk(s.arbiter.policies, st.groups, session.id, session)
    requires session.endpoint != "" && session.group != ""
    ensures ValidateClaim(s.arbiter.policies, ClaimFor(session), session.request.kind.IsServo()) == OK
  {
    hide Ranked, Held, ClaimAgrees;
  }

  /** A Move the arbiter was asked to admit; the report names those it evicted and those that had expired. */
  ghost function MoveSubmitted(s: State, session: Session, now: Time, report: ArbitrationResult): State
    requires Inv(s.arbiter)
  {
    var asked := s.(arbiter := SubmitMove(s.arbiter, ClaimFor(session), now));
    var ended := Displace(asked, report.preempted, report.expired);
    if report.admitted then Revoke(Create(ended, session), session.joints) else ended
  }

  lemma MoveGap(st: Static, s: State, session: Session, now: Time, report: ArbitrationResult)
    requires InvX(st, s, CLOSED) && session.id !in s.sessions && session.request.kind.IsMove()
    requires AcceptsMove(s.arbiter, ClaimFor(session)) && MoveResult(s.arbiter, ClaimFor(session), now, report)
    ensures var gone := Members(report.preempted) + Members(report.expired);
            var entering := if report.admitted then {session.id} else {};
            InvX(st, s.(arbiter := SubmitMove(s.arbiter, ClaimFor(session), now)), Gap(gone, entering, {}))
    ensures session.id !in report.preempted && session.id !in report.expired
  {
    hide BackendAgrees, StartsOk, RequestsOk, ActiveDisjoint, WatchOk, PermitsOk, LogOk, FreshLog, EventsOk,
      SuccessListed, SuccessesOk, RecoveryOk, IssuedOk, TrailsOk, Ranked, Held, SessionOk, ClaimAgrees, IsWinnerSet;
    var claim := ClaimFor(session);
    StepsKeepInv(s.arbiter, claim, now, now, session.id);
    EnteredRanked(s.arbiter, claim, now, now);
    SessionsAreClaims(st, s);
    hide Inv, ValidateClaim, Agree;
    var after := SubmitMove(s.arbiter, claim, now);
    var gone := Members(report.preempted) + Members(report.expired);
    var entering := if report.admitted then {session.id} else {};
    assert gone <= s.arbiter.claims.Keys;
    forall x ensures x in s.sessions.Keys - gone <==> x in after.claims.Keys - entering {
    }
    ArbiterMoved(st, s, after, gone, entering);
  }

  /** Why a Move is refused before arbitration. */
  ghost function MoveRefusal(st: Static, s: State, endpoint: string, request: Request, generation: nat): Code {
    if !s.enabled || generation != s.generation then REJECTED
    else if endpoint !in s.arbiter.policies then NOT_CONFIGURED
    else
      var code := RequestCode(st.groups, s.arbiter.policies[endpoint], request, false);
      if code != OK then code
      else if request.id in s.sessions then INVALID_ARGUMENT
      else OK
  }

  lemma RegisteredEndpoint(a: Arbiter, name: string)
    requires Inv(a) && name in a.policies
    ensures name != "" && a.policies[name].endpoint == name && a.policies[name].group != ""
    ensures a.policies[name].kind.IsServo() ==> a.policies[name].lease > 0
  {
  }

  /** The session of a request that is not refused, and what the arbiter makes of its claim. */
  lemma SubmittedClaim(st: Static, s: State, endpoint: string, request: Request, at: Time, generation: nat)
    requires ValidStatic(st) && InvX(st, s, CLOSED) && endpoint in s.arbiter.policies
    requires RequestCode(st.groups, s.arbiter.policies[endpoint], request, request.kind.IsServo()) == OK
    requires request.kind.IsMove() ==> !IsServoId(request.id)
    ensures var session :=
              NewSession(st.groups, s.arbiter.policies[endpoint], request, s.created).(
              submittedAt := at, generation := generation);
            && session.endpoint == endpoint
            && SessionOk(s.arbiter.policies, st.groups, session.id, session)
            && ValidateClaim(s.arbiter.policies, ClaimFor(session), request.kind.IsServo()) == OK
            && (request.kind.IsMove() && session.id !in s.sessions ==> AcceptsMove(s.arbiter, ClaimFor(session)))
  {
    hide BackendAgrees, StartsOk, RequestsOk, ActiveDisjoint, WatchOk, PermitsOk, LogOk, FreshLog, EventsOk,
      SuccessListed, SuccessesOk, RecoveryOk, IssuedOk, TrailsOk, Ranked, Held, ClaimAgrees;
    SessionsAreClaims(st, s);
    RegisteredEndpoint(s.arbiter, endpoint);
    var session :=
      NewSession(st.groups, s.arbiter.policies[endpoint], request, s.created).(
      submittedAt := at, generation := generation);
    RequestClaimValid(st, s, session);
  }

  /** Without the permission in force nothing else is looked at. */
  lemma UnpermittedIsRefused(
    st: Static, s: State, endpoint: string, request: Request, receivedAt: Time, now: Time, generation: nat)
    requires !s.enabled || generation != s.generation
    ensures MoveRefusal(st, s, endpoint, request, generation) == REJECTED
    ensures ServoRefusal(st, s, endpoint, request, receivedAt, now, generation) == REJECTED
  {
  }

  /** A request that nothing is wrong with is not refused. */
  lemma ProperMoveIsNotRefused(st: Static, s: State, endpoint: string, request: Request, generation: nat)
    requires endpoint in s.arbiter.policies && request.group in st.groups
    ensures MoveRefusal(st, s, endpoint, request, generation) == OK <==>
      && s.enabled && generation == s.generation
      && s.arbiter.policies[endpoint].kind == request.kind && s.arbiter.policies[endpoint].group == request.group
      && request.kind != ServoJ && request.kind != ServoP && request.id != "" && request.check == OK
      && (|request.velocityLimits| == 0 || |request.velocityLimits| == |st.groups[request.group].joints|)
      && (request.kind == MoveP ==> request.waypoints != 0) && request.id !in s.sessions
  {
  }

  /** Some session shares a joint with this one and ranks higher. */
  ghost predicate Outranked(s: State, session: Session, now: Time)
    requires session.endpoint in s.arbiter.policies
  {
    exists other, joint ::
      && other in s.sessions && joint in s.sessions[other].joints && joint in session.joints
      && s.sessions[other].endpoint in s.arbiter.policies
      && var high, own := s.arbiter.policies[s.sessions[other].endpoint].priority,
           s.arbiter.policies[session.endpoint].priority;
         high > own || (high == own && s.sessions[other].submittedAt > now)
  }

  /** A Move loses only to a session that shares a joint with it and ranks higher. */
  lemma LosersAreOutranked(st: Static, s: State, session: Session, now: Time, report: ArbitrationResult)
    requires InvX(st, s, CLOSED) && session.id !in s.sessions && session.endpoint in s.arbiter.policies
    requires session.request.kind.IsMove()
    requires AcceptsMove(s.arbiter, ClaimFor(session)) && MoveResult(s.arbiter, ClaimFor(session), now, report)
    ensures report.admitted || Outranked(s, session, now)
    ensures report.code == if report.admitted then OK else REJECTED
  {
    hide InvX, AcceptsMove, ValidateClaim, Outranked, Entered, Live, Evicted, Inv, Ranked;
    var claim := ClaimFor(session);
    ArbiterHolds(st, s, CLOSED);
    MoveIsEntered(s.arbiter, claim, now);
    var after := Entered(s.arbiter, claim, now, now);
    hide ClaimFor;
    if claim.id !in Winners(after) {
      var w :| w in after && after[w].Outranks(after[claim.id]) && after[w].Conflicts(after[claim.id]);
      HigherIsOutranking(st, s, session, now, w);
    }
  }

  lemma Arbitrated(a: Arbiter, claim: Claim, now: Time, report: ArbitrationResult)
    requires Inv(a) && AcceptsMove(a, claim) && MoveResult(a, claim, now, report)
    ensures report.code == if report.admitted then OK else REJECTED
  {
    hide Inv, Entered, Evicted, Live;
  }

  /** The claim of a Move that is asked for, while the arbiter decides. */
  lemma MoveIsEntered(a: Arbiter, claim: Claim, now: Time)
    requires Inv(a) && AcceptsMove(a, claim) && claim.kind.IsMove()
    ensures Ranked(Live(a.claims, now)) && Ranked(Entered(a, claim, now, now))
    ensures ValidateClaim(a.policies, claim, claim.kind.IsServo()) == OK
    ensures var after := Entered(a, claim, now, now);
            && claim.id in after
            && (claim.id !in Winners(after) ==>
                  exists w :: w in after && after[w].Outranks(after[claim.id]) && after[w].Conflicts(after[claim.id]))
  {
    EnteredRanked(a, claim, now, now);
    hide Inv, Ranked, ValidateClaim;
    var after := Entered(a, claim, now, now);
    assert claim.id in Winners(after) <==> !Blocked(after, Winners(after), after[claim.id]);
  }

  /** A claim that outranks a Move's while the arbiter decides is that of a session ranking higher. */
  lemma HigherIsOutranking(st: Static, s: State, session: Session, now: Time, w: Id)
    requires InvX(st, s, CLOSED) && session.id !in s.sessions && session.endpoint in s.arbiter.policies
    requires var after := Entered(s.arbiter, ClaimFor(session), now, now);
             w in after && after[w].Outranks(after[session.id]) && after[w].Conflicts(after[session.id])
    ensures Outranked(s, session, now)
  {
    hide Agree, BackendAgrees, StartsOk, RequestsOk, ActiveDisjoint, WatchOk, PermitsOk, LogOk, FreshLog, EventsOk,
      SuccessListed, SuccessesOk, RecoveryOk, IssuedOk, TrailsOk, OnlyPermitted, Ranked, ValidateClaim;
    SessionsAreClaims(st, s);
    ArbiterHolds(st, s, CLOSED);
    hide InvX;
    var after := Entered(s.arbiter, ClaimFor(session), now, now);
    assert w != session.id;
    assert Held(s.arbiter.policies, s.arbiter.next, w, after[w]);
    assert ClaimAgrees(s.arbiter.claims, w, s.sessions[w]);
    var joint :| joint in after[w].claim.joints && joint in session.joints;
    assert w in s.sessions && joint in s.sessions[w].joints;
  }

  /** Why a Servo target is refused before arbitration; a refused target changes nothing. */
  ghost function ServoRefusal(
    st: Static, s: State, endpoint: string, request: Request, receivedAt: Time, now: Time, generation: nat): Code
  {
    if !s.enabled || generation != s.generation then REJECTED
    else if endpoint !in s.arbiter.policies then NOT_CONFIGURED
    else
      var policy := s.arbiter.policies[endpoint];
      var code := RequestCode(st.groups, policy, request, true);
      if code != OK then code
      else if receivedAt > now || now - receivedAt >= policy.lease then REJECTED
      else if ServoId(endpoint) in s.sessions && receivedAt < s.sessions[ServoId(endpoint)].submittedAt then REJECTED
      else OK
  }

  /** A target is refused for nothing else than this. */
  lemma ProperTargetIsNotRefused(
    st: Static, s: State, endpoint: string, request: Request, receivedAt: Time, now: Time, generation: nat)
    ensures ServoRefusal(st, s, endpoint, request, receivedAt, now, generation) == OK <==>
      && s.enabled && generation == s.generation && endpoint in s.arbiter.policies && request.group in st.groups
      && s.arbiter.policies[endpoint].kind == request.kind && s.arbiter.policies[endpoint].group == request.group
      && (request.kind == ServoJ || request.kind == ServoP) && request.check == OK
      && (|request.velocityLimits| == 0 || |request.velocityLimits| == |st.groups[request.group].joints|)
      && receivedAt <= now < receivedAt + s.arbiter.policies[endpoint].lease
      && ("servo:" + endpoint in s.sessions ==> s.sessions["servo:" + endpoint].submittedAt <= receivedAt)
  {
  }

  predicate LeaseOver(s: State, id: Id, lease: Time, now: Time) {
    id in s.sessions && now - s.sessions[id].submittedAt >= lease
  }

  /** An expired session is ended before its endpoint is acquired anew. */
  function Reacquire(s: State, id: Id, lease: Time, now: Time): State {
    if LeaseOver(s, id, lease, now) then Terminate(s, id, ABORTED, STALE_FEEDBACK, false) else s
  }

  /** The Servo's session after its new target: retargeted in place, or created. */
  function Place(s: State, session: Session): State {
    if session.id in s.sessions then Retarget(s, session.id, session.request, session.submittedAt)
    else Create(s, session)
  }

  ghost function ServoAsked(s: State, session: Session, now: Time): State
    requires Inv(s.arbiter)
  {
    s.(arbiter := UpdateServo(s.arbiter, ClaimFor(session), session.submittedAt, now))
  }

  ghost function ServoSettled(asked: State, session: Session, report: ArbitrationResult): State {
    var ended := Displace(Place(asked, session), report.preempted, report.expired);
    if report.admitted then Revoke(ended, session.joints) else ended
  }

  lemma ServoGap(st: Static, s: State, session: Session, now: Time, report: ArbitrationResult)
    requires InvX(st, s, CLOSED) && session.request.kind.IsServo()
    requires AcceptsServo(s.arbiter, ClaimFor(session), session.submittedAt, now)
    requires session.id in s.sessions ==> !s.arbiter.claims[session.id].Expired(now)
    requires ServoResult(s.arbiter, ClaimFor(session), session.submittedAt, now, report)
    ensures var gone := Members(report.preempted) + Members(report.expired);
            InvX(st, ServoAsked(s, session, now),
              Gap(if session.id in s.sessions then gone + {session.id} else gone, {session.id}, {}))
    ensures session.id !in report.preempted && session.id !in report.expired
  {
    hide BackendAgrees, StartsOk, RequestsOk, ActiveDisjoint, WatchOk, PermitsOk, LogOk, FreshLog, EventsOk,
      SuccessListed, SuccessesOk, RecoveryOk, IssuedOk, TrailsOk, Ranked, Held, SessionOk, ClaimAgrees, IsWinnerSet;
    var claim := ClaimFor(session);
    StepsKeepInv(s.arbiter, claim, session.submittedAt, now, session.id);
    EnteredRanked(s.arbiter, claim, session.submittedAt, now);
    SessionsAreClaims(st, s);
    hide Inv, ValidateClaim, Agree;
    var after := UpdateServo(s.arbiter, claim, session.submittedAt, now);
    var gone := Members(report.preempted) + Members(report.expired);
    var leaving := if session.id in s.sessions then gone + {session.id} else gone;
    forall x ensures x in s.sessions.Keys - leaving <==> x in after.claims.Keys - {session.id} {
    }
    ArbiterMoved(st, s, after, leaving, {session.id});
  }

  /** A current target of a live, unexpired session is accepted by the arbiter too. */
  lemma ServoClaimAccepted(st: Static, s: State, session: Session, now: Time)
    requires InvX(st, s, CLOSED) && session.request.kind.IsServo() && session.endpoint in s.arbiter.policies
    requires ValidateClaim(s.arbiter.policies, ClaimFor(session), true) == OK
    requires session.submittedAt <= now && now - session.submittedAt < s.arbiter.policies[session.endpoint].lease
    requires session.id in s.sessions ==> s.sessions[session.id].submittedAt <= session.submittedAt
    requires SessionOk(s.arbiter.policies, st.groups, session.id, session)
    requires !LeaseOver(s, session.id, s.arbiter.policies[session.endpoint].lease, now)
    ensures AcceptsServo(s.arbiter, ClaimFor(session), session.submittedAt, now)
    ensures session.id in s.sessions ==> session.id in s.arbiter.claims && !s.arbiter.claims[session.id].Expired(now)
    ensures session.id in s.sessions ==>
      s.sessions[session.id].request.kind == session.request.kind &&
      SameSession(s.sessions[session.id], session)
  {
    hide BackendAgrees, StartsOk, RequestsOk, ActiveDisjoint, WatchOk, PermitsOk, LogOk, FreshLog, EventsOk,
      SuccessListed, SuccessesOk, RecoveryOk, IssuedOk, TrailsOk, Ranked;
    SessionsAreClaims(st, s);
    if session.id in s.sessions {
      var held := s.sessions[session.id];
      assert Held(s.arbiter.policies, s.arbiter.next, session.id, s.arbiter.claims[session.id]);
      assert SessionOk(s.arbiter.policies, st.groups, session.id, held);
      ServoIdInjective(held.endpoint, session.endpoint);
    }
  }

  predicate SameSession(held: Session, session: Session) {
    held.endpoint == session.endpoint && held.group == session.group && held.joints == session.joints
      && held.id == session.id
  }

  lemma RetargetOk(
    policies: map<string, Policy>, groups: map<string, Group>, claims: Claims, held: Session, session: Session)
    requires SessionOk(policies, groups, session.id, session) && ClaimAgrees(claims, session.id, session)
    requires SameSession(held, session)
    ensures var next := held.(request := session.request, submittedAt := session.submittedAt);
            SessionOk(policies, groups, session.id, next) && ClaimAgrees(claims, session.id, next)
  {
  }

  lemma ServoIdInjective(a: string, b: string)
    ensures ServoId(a) == ServoId(b) ==> a == b
    ensures IsServoId(ServoId(a))
  {
    assert ServoId(a)[6..] == a && ServoId(b)[6..] == b;
    assert ServoId(a)[..6] == "servo:";
  }

  lemma EnteredClaim(a: Arbiter, claim: Claim, receivedAt: Time, now: Time)
    requires Inv(a) && AcceptsServo(a, claim, receivedAt, now)
    ensures claim.id in UpdateServo(a, claim, receivedAt, now).claims
    ensures UpdateServo(a, claim, receivedAt, now).claims[claim.id].claim == claim
    ensures UpdateServo(a, claim, receivedAt, now).claims[claim.id].receivedAt == receivedAt
  {
    hide Held, IsWinnerSet;
    EnteredRanked(a, claim, receivedAt, now);
  }

  /** What submitting a Move does, by why it is refused or how it was arbitrated. */
  ghost predicate MoveOutcome(
    st: Static, s: State, t: State, endpoint: string, request: Request, now: Time, generation: nat,
    code: Code, id: Id, report: ArbitrationResult)
  {
    var refusal := MoveRefusal(st, s, endpoint, request, generation);
    if refusal != OK then code == refusal && t == s
    else
      var session :=
        NewSession(st.groups, s.arbiter.policies[endpoint], request, s.created).(
        submittedAt := now, generation := generation);
      id == session.id && MoveSettles(s, t, session, now, code, report)
  }

  /** What a Servo target does. */
  ghost predicate ServoOutcome(
    st: Static, s: State, t: State, endpoint: string, request: Request, receivedAt: Time, now: Time, generation: nat,
    code: Code, id: Id, report: ArbitrationResult)
  {
    && code == ServoRefusal(st, s, endpoint, request, receivedAt, now, generation)
    && if code != OK then t == s
       else
         var policy := s.arbiter.policies[endpoint];
         var session :=
           NewSession(st.groups, policy, request, s.created).(submittedAt := receivedAt, generation := generation);
         var current := Reacquire(s, session.id, policy.lease, now);
         id == session.id && ServoSettles(current, t, session, now, report)
  }

  ghost predicate MoveSettles(s: State, t: State, session: Session, now: Time, code: Code, report: ArbitrationResult) {
    && Inv(s.arbiter)
    && AcceptsMove(s.arbiter, ClaimFor(session)) && MoveResult(s.arbiter, ClaimFor(session), now, report)
    && code == report.code && t == MoveSubmitted(s, session, now, report)
  }

  ghost predicate ServoSettles(current: State, t: State, session: Session, now: Time, report: ArbitrationResult) {
    && Inv(current.arbiter)
    && AcceptsServo(current.arbiter, ClaimFor(session), session.submittedAt, now)
    && ServoResult(current.arbiter, ClaimFor(session), session.submittedAt, now, report)
    && t == ServoSettled(ServoAsked(current, session, now), session, report)
  }

  lemma MoveEntered(a: Arbiter, claim: Claim, now: Time, report: ArbitrationResult)
    requires Inv(a) && AcceptsMove(a, claim) && MoveResult(a, claim, now, report)
    ensures report.admitted ==>
      var after := SubmitMove(a, claim, now).claims;
      claim.id in after && after[claim.id].claim == claim && after[claim.id].receivedAt == now
  {
    hide Held, IsWinnerSet;
    EnteredRanked(a, claim, now, now);
  }

  // ---- Freshness ----

  /** The command is exactly one a tick returned. */
  predicate Genuine(s: State, command: JointCommand) { IsIssued(s.issued, command) }

  /** If the command is one a tick returned, its inputs are current. */
  ghost predicate FreshFor(s: State, command: JointCommand, config: Config, now: Time) {
    Genuine(s, command) ==> FreshAt(s.issued[command.token], config, now)
  }

  /** Each command of a batch was approved, not before `now`, while its inputs were current. */
  ghost predicate AllFresh(s: State, approved: seq<JointCommand>, times: seq<Time>, config: Config, now: Time) {
    |times| == |approved| &&
    forall k :: 0 <= k < |approved| ==> times[k] >= now && FreshFor(s, approved[k], config, times[k])
  }

  lemma AllFreshMore(
    s: State, approved: seq<JointCommand>, times: seq<Time>, config: Config, now: Time, command: JointCommand, at: Time)
    requires AllFresh(s, approved, times, config, now) && at >= now && FreshFor(s, command, config, at)
    ensures AllFresh(s, approved + [command], times + [at], config, now)
  {
    hide FreshFor;
  }

  /** Times that do not lie before `now`. */
  ghost predicate NotBefore(times: seq<Time>, now: Time) { forall k :: 0 <= k < |times| ==> times[k] >= now }

  lemma NotBeforeMore(times: seq<Time>, now: Time, at: Time)
    requires NotBefore(times, now) && at >= now
    ensures NotBefore(times + [at], now)
  {
  }

  lemma FreshEarlier(s: State, t: State, command: JointCommand, config: Config, now: Time)
    requires Evolves(s, t) && FreshFor(t, command, config, now)
    ensures FreshFor(s, command, config, now)
  {
  }

  lemma UnexpiredIsFresh(st: Static, s: State, gap: Gap, command: JointCommand, now: Time)
    requires InvX(st, s, gap) && command.validUntil.Some? && now < command.validUntil.value
    ensures FreshFor(s, command, st.config, now)
  {
    hide Agree, BackendAgrees, StartsOk, RequestsOk, ActiveDisjoint, WatchOk, PermitsOk, LogOk, FreshLog, EventsOk,
      SuccessListed, SuccessesOk, RecoveryOk, TrailsOk, SourceOk, ValidGroup, WithinWidened;
    if Genuine(s, command) { assert IssueOk(s.issued[command.token], st); }
  }

  lemma EmptyBatch(s: State)
    ensures BatchOk([], s.permits, s.published, s.nextToken)
  {
  }

  lemma SingleBatch(st: Static, s: State, command: JointCommand)
    requires InvX(st, s, CLOSED) && Holds(s.permits, command)
    ensures BatchOk([command], s.permits, s.published, s.nextToken)
  {
    EmptyBatch(s);
    BatchGrowsX(st, s, [], command);
    assert [] + [command] == [command];
  }

  lemma BatchGrowsX(st: Static, s: State, approved: seq<JointCommand>, command: JointCommand)
    requires InvX(st, s, CLOSED) && Holds(s.permits, command)
    requires BatchOk(approved, s.permits, s.published, s.nextToken)
    ensures BatchOk(approved + [command], s.permits, s.published, s.nextToken)
  {
    hide Agree, BackendAgrees, StartsOk, RequestsOk, ActiveDisjoint, WatchOk, PermitsOk, LogOk, FreshLog, EventsOk,
      SuccessListed, SuccessesOk, RecoveryOk, IssuedOk, TrailsOk, BatchOk, Holds;
    BatchGrows(s, approved, command);
  }

  lemma TerminateKeepsBatch(s: State, id: Id, approved: seq<JointCommand>)
    requires BatchOk(approved, s.permits, s.published, s.nextToken)
    ensures var t := Terminate(s, id, ABORTED, TIMEOUT, false); BatchOk(approved, t.permits, t.published, t.nextToken)
  {
    hide BatchOk, Terminate;
    TerminatePermits(s, id, ABORTED, TIMEOUT, false);
    FewerPermitsKeepBatch(
      approved, s.permits, Terminate(s, id, ABORTED, TIMEOUT, false).permits, s.published, s.nextToken);
  }

  /** The session's permits go, and no others. */
  lemma TerminateSilences(s: State, id: Id, state: SessionState, code: Code)
    ensures var t := Terminate(s, id, state, code, false);
            t.permits == WithoutSession(s.permits, id) && t.enabled == s.enabled && t.nextToken == s.nextToken
  {
    hide WithoutSession, Release, SuccessOf;
    if id in s.sessions {
    } else {
    }
  }

  lemma TerminateAppends(s: State, id: Id, state: SessionState, code: Code, preserve: bool)
    ensures s.pending <= Terminate(s, id, state, code, preserve).pending
  {
    hide WithoutSession, Release, SuccessOf;
  }

  lemma TerminatePermits(s: State, id: Id, state: SessionState, code: Code, preserve: bool)
    ensures var t := Terminate(s, id, state, code, preserve);
            && (forall joint :: joint in t.permits ==> joint in s.permits && t.permits[joint] == s.permits[joint])
            && t.published == s.published && t.nextToken == s.nextToken
  {
    if id in s.sessions {
    } else {
    }
  }

  lemma FewerPermitsKeepBatch(
    approved: seq<JointCommand>, permits: map<Joint, Permit>, fewer: map<Joint, Permit>, published: seq<Publication>,
    nextToken: nat)
    requires BatchOk(approved, permits, published, nextToken)
    requires forall joint :: joint in fewer ==> joint in permits && fewer[joint] == permits[joint]
    ensures BatchOk(approved, fewer, published, nextToken)
  {
    hide OneToken;
  }

  lemma PermitsCleared(st: Static, s: State)
    requires InvX(st, s, CLOSED)
    ensures InvX(st, s.(permits := map[]), CLOSED) && Evolves(s, s.(permits := map[]))
  {
    hide InvX, Evolves;
    PermitsDropped(st, s, CLOSED, map[]);
  }

  lemma PermissionKeeps(st: Static, s: State, enabled: bool, generation: nat)
    requires InvX(st, s, CLOSED) && (s.sessions == map[] || (enabled && generation == s.generation))
    ensures InvX(st, s.(enabled := enabled, generation := generation), CLOSED)
    ensures Evolves(s, s.(enabled := enabled, generation := generation))
  {
    hide Agree, BackendAgrees, StartsOk, RequestsOk, ActiveDisjoint, WatchOk, PermitsOk, LogOk, FreshLog, EventsOk,
      SuccessListed, SuccessesOk, RecoveryOk, IssuedOk, TrailsOk, StartsGrow;
    EvolvesReflexive(s);
  }

  lemma ScreenedStep(s: State, batch: seq<JointCommand>, times: seq<Time>, k: nat, at: Time)
    requires k < |batch| && |times| == k
    ensures var (t, approved) := Screened(s, batch[..k], times);
            var c := batch[k];
            Screened(s, batch[..k + 1], times + [at]) ==
              if !t.enabled || !Holds(t.permits, c) then (t, approved)
              else if c.validUntil.Some? && at < c.validUntil.value then (t, approved + [c])
              else (Terminate(t, c.session, ABORTED, TIMEOUT, false), approved)
  {
    hide Terminate, Holds;
    assert batch[..k + 1][..k] == batch[..k];
    assert (times + [at])[..k] == times;
  }

  /** Screening returns and issues nothing. */
  lemma {:induction false} ScreenedIssued(s: State, batch: seq<JointCommand>, times: seq<Time>)
    requires |times| == |batch|
    ensures Screened(s, batch, times).0.issued == s.issued
    decreases |batch|
  {
    hide Holds;
    if batch != [] {
      var n := |batch| - 1;
      ScreenedIssued(s, batch[..n], times[..n]);
      hide Terminate;
      TerminateFrame(Screened(s, batch[..n], times[..n]).0, batch[n].session, ABORTED, TIMEOUT, false);
    }
  }

  lemma SameIssuedFresh(s: State, t: State, approved: seq<JointCommand>, times: seq<Time>, config: Config, now: Time)
    requires t.issued == s.issued && AllFresh(s, approved, times, config, now)
    ensures forall k :: 0 <= k < |approved| ==> FreshFor(t, approved[k], config, times[k])
  {
  }

  lemma ScreenedNothing(s: State)
    ensures Screened(s, [], []) == (s, [])
  {
  }
}
