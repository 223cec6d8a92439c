/**
  Moves reserve the joints of their group; Servo inputs on reserved joints are dropped.

  Reserving, releasing, queueing and taking the queue are each one critical section under
  the same lock, so any order of calls is an interleaving of the threads.
*/
module MoveReservations {
  import opened MotionTypes
  import opened InputTimestamps

  datatype Channel = Channel(endpoint: string, servo: bool, group: string)

  datatype Setup = Setup(mapped: bool, groups: map<string, seq<Joint>>, channels: seq<Channel>)

  /** Startup refuses a Servo channel without a known group and a duplicate endpoint. */
  ghost predicate ValidSetup(setup: Setup) {
    && (forall i :: 0 <= i < |setup.channels| && setup.channels[i].servo ==> setup.channels[i].group in setup.groups)
    && (forall i, j :: 0 <= i < j < |setup.channels| ==> setup.channels[i].endpoint != setup.channels[j].endpoint)
  }

  datatype Pending = Pending(group: string, stamp: int, freshAt: Time, generation: nat)

  /** `holds` names the group each owner reserved and has not released. */
  datatype Reservations = Reservations(
    owners: map<Joint, string>, cutoffs: map<Joint, int>, latest: map<string, Pending>, trackers: map<string, Tracker>,
    taken: map<string, Pending>, holds: map<string, string>)

  const NOTHING := Reservations(map[], map[], map[], map[], map[], map[])

  function CutoffOf(cutoffs: map<Joint, int>, joint: Joint): int {
    if joint in cutoffs then cutoffs[joint] else 0
  }

  predicate Touches(joints: seq<Joint>, owners: map<Joint, string>) {
    exists joint :: joint in joints && joint in owners
  }

  ghost predicate DisturbsAt(setup: Setup, owners: map<Joint, string>, i: int, endpoint: string) {
    && 0 <= i < |setup.channels| && setup.channels[i].servo && setup.channels[i].group in setup.groups
    && Touches(setup.groups[setup.channels[i].group], owners) && setup.channels[i].endpoint == endpoint
  }

  /** Endpoints of the Servo channels that name an owned joint. */
  ghost function Disturbed(setup: Setup, owners: map<Joint, string>): (endpoints: set<string>)
    ensures forall endpoint :: endpoint in endpoints <==> exists i :: DisturbsAt(setup, owners, i, endpoint)
  {
    var endpoints := set i | 0 <= i < |setup.channels| && DisturbsAt(setup, owners, i, setup.channels[i].endpoint) ::
      setup.channels[i].endpoint;
    assert forall i, endpoint :: DisturbsAt(setup, owners, i, endpoint) ==> setup.channels[i].endpoint in endpoints;
    endpoints
  }

  ghost predicate MayReserve(setup: Setup, s: Reservations, group: string) {
    group in setup.groups && !Touches(setup.groups[group], s.owners)
  }

  ghost function Reserved(setup: Setup, s: Reservations, group: string, owner: string): Reservations {
    if !setup.mapped || !MayReserve(setup, s, group) then s
    else
      var owners := s.owners + Each(setup.groups[group], owner);
      s.(owners := owners, latest := s.latest - Disturbed(setup, owners), holds := s.holds[owner := group])
  }

  function JointsOf(owners: map<Joint, string>, owner: string): set<Joint> {
    set joint | joint in owners && owners[joint] == owner
  }

  function Stamped(joints: set<Joint>, rosNow: int): map<Joint, int> { map joint | joint in joints :: rosNow }

  function Released(s: Reservations, owner: string, rosNow: int): Reservations {
    s.(owners := s.owners - JointsOf(s.owners, owner),
       cutoffs := s.cutoffs + Stamped(JointsOf(s.owners, owner), rosNow),
       holds := s.holds - {owner})
  }

  /** Every joint of the group is free and the stamp is past each of their cutoffs. */
  predicate Open(joints: seq<Joint>, owners: map<Joint, string>, cutoffs: map<Joint, int>, stamp: int) {
    forall joint :: joint in joints ==> joint !in owners && stamp > CutoffOf(cutoffs, joint)
  }

  function TrackerOf(trackers: map<string, Tracker>, endpoint: string): Tracker {
    if endpoint in trackers then trackers[endpoint] else FRESH_TRACKER
  }

  /** A single overwritable slot per endpoint. */
  function Queued(
    setup: Setup, s: Reservations, channel: Channel, input: Input, generation: nat, rules: Rules): Reservations
  {
    if setup.mapped && channel.group !in setup.groups then s
    else if setup.mapped && !Open(setup.groups[channel.group], s.owners, s.cutoffs, input.stamp) then s
    else
      var (tracker, verdict) := Judged(TrackerOf(s.trackers, channel.endpoint), input, rules);
      var seen := s.(trackers := s.trackers[channel.endpoint := tracker]);
      if verdict.Accepted?
      then seen.(latest :=
        s.latest[channel.endpoint := Pending(channel.group, input.stamp, verdict.freshAt, generation)])
      else seen
  }

  function Taken(s: Reservations): Reservations { s.(taken := s.latest, latest := map[]) }

  // ---- The class ----

  class MoveReservation {
    const setup: Setup
    const rules: Rules
    var owners: map<Joint, string>
    var cutoffs: map<Joint, int>
    var latest: map<string, Pending>
    var trackers: map<string, Tracker>
    ghost var taken: map<string, Pending>
    ghost var holds: map<string, string>

    ghost function State(): Reservations
      reads this
    {
      Reservations(owners, cutoffs, latest, trackers, taken, holds)
    }

    constructor (setup: Setup, rules: Rules)
      ensures State() == NOTHING && this.setup == setup && this.rules == rules
    {
      this.setup, this.rules := setup, rules;
      owners, cutoffs, latest, trackers, taken, holds := map[], map[], map[], map[], map[], map[];
    }

    /** `cancelled` lists the endpoints whose Servo sessions are cancelled along with their queued input. */
    method Reserve(group: string, owner: string) returns (ok: bool, cancelled: seq<string>)
      modifies this
      ensures State() == Reserved(setup, old(State()), group, owner)
      ensures ok <==> !setup.mapped || MayReserve(setup, old(State()), group)
      ensures forall endpoint :: endpoint in cancelled <==> setup.mapped && ok && endpoint in Disturbed(setup, owners)
      // All joints of the group or none: it is refused exactly if one of them is owned.
      ensures setup.mapped ==>
        (ok <==> group in setup.groups && forall joint :: joint in setup.groups[group] ==> joint !in old(owners))
      ensures setup.mapped && ok ==>
        forall joint :: joint in owners <==> joint in setup.groups[group] || joint in old(owners)
      ensures forall joint :: joint in owners ==>
        if joint in old(owners) then owners[joint] == old(owners)[joint] else owners[joint] == owner
      // Just the input of the Servo channels that name an owned joint is dropped.
      ensures !setup.mapped || !ok ==> owners == old(owners) && latest == old(latest) && cancelled == []
      ensures setup.mapped && ok ==> forall endpoint :: endpoint in cancelled <==>
        exists c, joint ::
          && c in setup.channels && c.servo && c.endpoint == endpoint
          && c.group in setup.groups && joint in setup.groups[c.group] && joint in owners
      ensures forall endpoint :: endpoint in latest <==> endpoint in old(latest) && endpoint !in cancelled
    {
      cancelled := [];
      if !setup.mapped { return true, cancelled; }
      if group !in setup.groups { return false, cancelled; }
      var joints := setup.groups[group];
      for k := 0 to |joints|
        invariant forall i :: 0 <= i < k ==> joints[i] !in owners
      {
        if joints[k] in owners { return false, cancelled; }
      }
      for k := 0 to |joints|
        invariant owners == old(owners) + Each(joints[..k], owner)
        invariant State() == old(State()).(owners := owners)
      {
        owners := owners[joints[k] := owner];
        assert joints[..k + 1] == joints[..k] + [joints[k]];
      }
      assert joints[..|joints|] == joints;
      holds := holds[owner := group];
      cancelled := DiscardServos();
      return true, cancelled;
    }

    /** Drop queued input on owned joints, so that a short Move cannot expose an earlier Servo lease. */
    method DiscardServos() returns (cancelled: seq<string>)
      modifies this`latest
      ensures latest == old(latest) - Disturbed(setup, owners)
      ensures forall endpoint :: endpoint in cancelled <==> endpoint in Disturbed(setup, owners)
    {
      cancelled := [];
      for k := 0 to |setup.channels|
        invariant forall endpoint :: endpoint in cancelled <==>
          endpoint in Disturbed(setup.(channels := setup.channels[..k]), owners)
        invariant latest == old(latest) - Disturbed(setup.(channels := setup.channels[..k]), owners)
      {
        var channel := setup.channels[k];
        ghost var upTo, next := setup.(channels := setup.channels[..k]), setup.(channels := setup.channels[..k + 1]);
        DisturbedNext(setup, owners, k);
        if channel.servo && channel.group in setup.groups && Touches(setup.groups[channel.group], owners) {
          latest := latest - {channel.endpoint};
          cancelled := cancelled + [channel.endpoint];
        }
      }
      assert setup.channels[..|setup.channels|] == setup.channels;
    }

    static lemma DisturbedNext(setup: Setup, owners: map<Joint, string>, k: nat)
      requires k < |setup.channels|
      ensures var channel := setup.channels[k];
              Disturbed(setup.(channels := setup.channels[..k + 1]), owners) ==
              Disturbed(setup.(channels := setup.channels[..k]), owners) +
                (if channel.servo && channel.group in setup.groups && Touches(setup.groups[channel.group], owners)
                 then {channel.endpoint} else {})
    {
      hide Touches, Disturbed;
      var upTo, next := setup.(channels := setup.channels[..k]), setup.(channels := setup.channels[..k + 1]);
      forall e
        ensures e in Disturbed(next, owners) <==> e in Disturbed(upTo, owners) || DisturbsAt(setup, owners, k, e)
      {
        if e in Disturbed(next, owners) {
          var i :| DisturbsAt(next, owners, i, e);
          assert if i == k then DisturbsAt(setup, owners, k, e) else DisturbsAt(upTo, owners, i, e);
        }
        if e in Disturbed(upTo, owners) {
          var i :| DisturbsAt(upTo, owners, i, e);
          assert DisturbsAt(next, owners, i, e);
        }
        assert DisturbsAt(setup, owners, k, e) ==> DisturbsAt(next, owners, k, e);
      }
    }

    method Release(owner: string, rosNow: int)
      modifies this
      ensures State() == Released(old(State()), owner, rosNow)
      ensures forall joint :: joint in owners <==> joint in old(owners) && old(owners)[joint] != owner
      ensures forall joint :: joint in owners ==> owners[joint] == old(owners)[joint]
      ensures forall joint :: joint in old(owners) && old(owners)[joint] == owner ==>
        joint in cutoffs && cutoffs[joint] == rosNow
      ensures forall joint :: joint !in old(owners) || old(owners)[joint] != owner ==>
        (joint in cutoffs <==> joint in old(cutoffs))
        && (joint in cutoffs ==> cutoffs[joint] == old(cutoffs)[joint])
    {
      FreeJoints(owner, rosNow);
      holds := holds - {owner};
    }

    method FreeJoints(owner: string, rosNow: int)
      modifies this`owners, this`cutoffs
      ensures owners == old(owners) - JointsOf(old(owners), owner)
      ensures cutoffs == old(cutoffs) + Stamped(JointsOf(old(owners), owner), rosNow)
    {
      ghost var mine := JointsOf(owners, owner);
      var left := owners.Keys;
      while left != {}
        invariant left <= owners.Keys
        invariant owners == old(owners) - (mine - left) && cutoffs == old(cutoffs) + Stamped(mine - left, rosNow)
        decreases left
      {
        var joint :| joint in left;
        left := left - {joint};
        if owners[joint] == owner {
          cutoffs := cutoffs[joint := rosNow];
          owners := owners - {joint};
        }
      }
      assert mine - left == mine;
    }

    method Queue(channel: Channel, input: Input, generation: nat) returns (queued: bool)
      modifies this
      ensures State() == Queued(setup, old(State()), channel, input, generation, rules)
      ensures queued <==>
        && (setup.mapped ==> channel.group in setup.groups &&
                             Open(setup.groups[channel.group], old(owners), old(cutoffs), input.stamp))
        && Judged(TrackerOf(old(trackers), channel.endpoint), input, rules).1.Accepted?
      // What is queued is fresh since its stamp, or since its receipt if unstamped or stamped ahead.
      ensures queued ==>
        && channel.endpoint in latest && latest == old(latest)[channel.endpoint := latest[channel.endpoint]]
        && latest[channel.endpoint] == Pending(
             channel.group, input.stamp,
             if input.stamp == 0 || input.stamp > input.rosNow then input.receivedAt
             else input.receivedAt - (input.rosNow - input.stamp), generation)
      ensures !queued ==> latest == old(latest)
      ensures queued ==>
        && input.stamp >= 0 && input.rosNow >= 0 && (input.stamp == 0 ==> !rules.requireStamp)
        && (input.stamp != 0 ==>
              input.rosNow - input.stamp < rules.maxAge && input.stamp - input.rosNow <= rules.futureTolerance)
      ensures setup.mapped && queued ==>
        && channel.group in setup.groups
        && forall joint :: joint in setup.groups[channel.group] ==>
             && joint !in old(owners)
             && input.stamp > if joint in old(cutoffs) then old(cutoffs)[joint] else 0
    {
      if setup.mapped {
        if channel.group !in setup.groups { return false; }
        var joints := setup.groups[channel.group];
        for k := 0 to |joints|
          invariant forall i :: 0 <= i < k ==> joints[i] !in owners && input.stamp > CutoffOf(cutoffs, joints[i])
        {
          if joints[k] in owners || input.stamp <= CutoffOf(cutoffs, joints[k]) { return false; }
        }
      }
      var tracker, verdict := ReadStamp(TrackerOf(trackers, channel.endpoint), input);
      trackers := trackers[channel.endpoint := tracker];
      if !verdict.Accepted? { return false; }
      latest := latest[channel.endpoint := Pending(channel.group, input.stamp, verdict.freshAt, generation)];
      return true;
    }

    method ReadStamp(tracker: Tracker, input: Input) returns (next: Tracker, verdict: Verdict)
      ensures (next, verdict) == Judged(tracker, input, rules)
    {
      var judged := Judged(tracker, input, rules);
      next, verdict := judged.0, judged.1;
    }

    method TakeQueued() returns (pending: map<string, Pending>)
      modifies this
      ensures State() == Taken(old(State()))
      ensures pending == old(latest) == taken && latest == map[]
    {
      pending := latest;
      taken, latest := latest, map[];
    }
  }

  // ---- Any interleaving ----

  datatype Call =
    | ReserveCall(group: string, owner: string)
    | ReleaseCall(owner: string, rosNow: int)
    | QueueCall(channel: Channel, input: Input, generation: nat, rules: Rules)
    | TakeCall

  ghost function Apply(setup: Setup, s: Reservations, call: Call): Reservations {
    match call
    case ReserveCall(group, owner) => Reserved(setup, s, group, owner)
    case ReleaseCall(owner, rosNow) => Released(s, owner, rosNow)
    case QueueCall(channel, input, generation, rules) => Queued(setup, s, channel, input, generation, rules)
    case TakeCall => Taken(s)
  }

  ghost function Run(setup: Setup, calls: seq<Call>): Reservations {
    if calls == [] then NOTHING else Apply(setup, Run(setup, calls[..|calls| - 1]), calls[|calls| - 1])
  }

  /**
    Goal ids are not reused while they hold a reservation, ROS time is never negative, and
    inputs come in on Servo channels.
  */
  ghost predicate Fits(setup: Setup, s: Reservations, call: Call) {
    match call
    case ReserveCall(_, owner) => owner !in s.holds
    case ReleaseCall(_, rosNow) => rosNow >= 0
    case QueueCall(channel, _, _, _) => channel.servo && channel in setup.channels
    case _ => true
  }

  ghost predicate Admissible(setup: Setup, calls: seq<Call>) {
    forall k :: 0 <= k < |calls| ==> Fits(setup, Run(setup, calls[..k]), calls[k])
  }

  /** Every owned joint belongs to an owner that holds exactly the joints of its group. */
  ghost predicate OwnersHoldGroups(setup: Setup, s: Reservations) {
    && (forall owner :: owner in s.holds ==> s.holds[owner] in setup.groups)
    && (forall joint :: joint in s.owners ==> s.owners[joint] in s.holds)
    && (forall owner, joint :: owner in s.holds ==>
          (joint in setup.groups[s.holds[owner]] <==> joint in s.owners && s.owners[joint] == owner))
  }

  /** No queued input names an owned joint, and each is stamped past the cutoffs of its joints. */
  ghost predicate QueueIsOpen(setup: Setup, s: Reservations) {
    forall endpoint :: endpoint in s.latest ==>
      && QueuedBy(setup, endpoint, s.latest[endpoint].group)
      && Open(setup.groups[s.latest[endpoint].group], s.owners, s.cutoffs, s.latest[endpoint].stamp)
  }

  ghost predicate QueuedBy(setup: Setup, endpoint: string, group: string) {
    group in setup.groups && exists i ::
      0 <= i < |setup.channels| && setup.channels[i] == Channel(endpoint, true, group)
  }

  lemma ReserveKeepsQueue(setup: Setup, s: Reservations, group: string, owner: string)
    requires setup.mapped && QueueIsOpen(setup, s)
    ensures QueueIsOpen(setup, Reserved(setup, s, group, owner))
  {
    if MayReserve(setup, s, group) {
      var t := Reserved(setup, s, group, owner);
      forall endpoint | endpoint in t.latest
        ensures Open(setup.groups[t.latest[endpoint].group], t.owners, t.cutoffs, t.latest[endpoint].stamp)
      {
        var i :| 0 <= i < |setup.channels| && setup.channels[i] == Channel(endpoint, true, t.latest[endpoint].group);
        assert !Touches(setup.groups[t.latest[endpoint].group], t.owners);
      }
    }
  }

  lemma ReleaseKeepsQueue(setup: Setup, s: Reservations, owner: string, rosNow: int)
    requires QueueIsOpen(setup, s)
    ensures QueueIsOpen(setup, Released(s, owner, rosNow))
  {
    hide QueuedBy;
  }

  lemma QueueKeepsQueue(setup: Setup, s: Reservations, channel: Channel, input: Input, generation: nat, rules: Rules)
    requires setup.mapped && ValidSetup(setup) && QueueIsOpen(setup, s) && channel.servo && channel in setup.channels
    ensures QueueIsOpen(setup, Queued(setup, s, channel, input, generation, rules))
  {
    hide Open, Judged;
    assert QueuedBy(setup, channel.endpoint, channel.group);
  }

  lemma ReserveKeepsOwners(setup: Setup, s: Reservations, group: string, owner: string)
    requires OwnersHoldGroups(setup, s) && owner !in s.holds
    ensures OwnersHoldGroups(setup, Reserved(setup, s, group, owner))
  {
    hide Disturbed;
  }

  lemma ReleaseKeepsOwners(setup: Setup, s: Reservations, owner: string, rosNow: int)
    requires OwnersHoldGroups(setup, s)
    ensures OwnersHoldGroups(setup, Released(s, owner, rosNow))
  {
  }

  lemma QueueKeepsOwners(setup: Setup, s: Reservations, channel: Channel, input: Input, generation: nat, rules: Rules)
    requires OwnersHoldGroups(setup, s)
    ensures OwnersHoldGroups(setup, Queued(setup, s, channel, input, generation, rules))
  {
    hide Open, Judged;
  }

  lemma CallKeeps(setup: Setup, s: Reservations, call: Call)
    requires setup.mapped && ValidSetup(setup) && OwnersHoldGroups(setup, s) && QueueIsOpen(setup, s)
    requires Fits(setup, s, call)
    ensures OwnersHoldGroups(setup, Apply(setup, s, call)) && QueueIsOpen(setup, Apply(setup, s, call))
  {
    hide OwnersHoldGroups, QueueIsOpen, Reserved, Released, Taken, ValidSetup;
    match call
    case ReserveCall(group, owner) =>
      ReserveKeepsQueue(setup, s, group, owner);
      ReserveKeepsOwners(setup, s, group, owner);
    case ReleaseCall(owner, rosNow) =>
      ReleaseKeepsQueue(setup, s, owner, rosNow);
      ReleaseKeepsOwners(setup, s, owner, rosNow);
    case QueueCall(channel, input, generation, rules) =>
      QueueKeepsQueue(setup, s, channel, input, generation, rules);
      QueueKeepsOwners(setup, s, channel, input, generation, rules);
    case TakeCall =>
      TakeKeeps(setup, s);
  }

  lemma TakeKeeps(setup: Setup, s: Reservations)
    requires OwnersHoldGroups(setup, s)
    ensures OwnersHoldGroups(setup, Taken(s)) && QueueIsOpen(setup, Taken(s))
  {
  }

  /** In every interleaving, owners hold exactly their groups and the queue is clear of owned joints. */
  lemma {:induction false} ReservationsHold(setup: Setup, calls: seq<Call>)
    requires setup.mapped && ValidSetup(setup) && Admissible(setup, calls)
    ensures OwnersHoldGroups(setup, Run(setup, calls)) && QueueIsOpen(setup, Run(setup, calls))
    decreases |calls|
  {
    if calls != [] {
      var n := |calls| - 1;
      assert forall k :: 0 <= k < n ==> calls[..n][..k] == calls[..k];
      ReservationsHold(setup, calls[..n]);
      hide Apply, OwnersHoldGroups, QueueIsOpen, Fits;
      CallKeeps(setup, Run(setup, calls[..n]), calls[n]);
    }
  }

  lemma {:induction false} CutoffsNotNegative(setup: Setup, calls: seq<Call>)
    requires Admissible(setup, calls)
    ensures forall joint :: joint in Run(setup, calls).cutoffs ==> Run(setup, calls).cutoffs[joint] >= 0
    decreases |calls|
  {
    if calls != [] {
      var n := |calls| - 1;
      assert forall k :: 0 <= k < n ==> calls[..n][..k] == calls[..k];
      CutoffsNotNegative(setup, calls[..n]);
      CutoffsAfter(setup, Run(setup, calls[..n]), calls[n]);
    }
  }

  lemma CutoffsAfter(setup: Setup, s: Reservations, call: Call)
    requires Fits(setup, s, call) && forall joint :: joint in s.cutoffs ==> s.cutoffs[joint] >= 0
    ensures forall joint :: joint in Apply(setup, s, call).cutoffs ==> Apply(setup, s, call).cutoffs[joint] >= 0
  {
    hide MayReserve, Open, Judged, Disturbed;
  }

  /** With the public mapping no unstamped input is ever queued: its stamp is never past a cutoff. */
  lemma UnstampedIsDropped(
    setup: Setup, calls: seq<Call>, channel: Channel, input: Input, generation: nat, rules: Rules)
    requires setup.mapped && Admissible(setup, calls)
    requires channel.group in setup.groups ==> setup.groups[channel.group] != []
    requires input.stamp <= 0
    ensures Queued(setup, Run(setup, calls), channel, input, generation, rules) == Run(setup, calls)
  {
    CutoffsNotNegative(setup, calls);
    if channel.group in setup.groups {
      assert setup.groups[channel.group][0] in setup.groups[channel.group];
    }
  }

  /** What an ended Move leaves behind: input stamped before its release is not queued on its joints. */
  lemma InputBeforeReleaseIsDropped(
    setup: Setup, s: Reservations, owner: string, rosNow: int, channel: Channel, input: Input, generation: nat,
    rules: Rules, joint: Joint)
    requires setup.mapped && joint in s.owners && s.owners[joint] == owner
    requires channel.group in setup.groups && joint in setup.groups[channel.group] && input.stamp <= rosNow
    ensures var released := Released(s, owner, rosNow);
            Queued(setup, released, channel, input, generation, rules) == released
  {
    var released := Released(s, owner, rosNow);
    assert joint in JointsOf(s.owners, owner);
    assert CutoffOf(released.cutoffs, joint) == rosNow;
  }

  // ---- Limits of the exclusion ----

  ghost predicate TakenIsOpen(setup: Setup, s: Reservations) {
    forall endpoint :: endpoint in s.taken && s.taken[endpoint].group in setup.groups ==>
      !Touches(setup.groups[s.taken[endpoint].group], s.owners)
  }

  /**
    Input the tick has already taken is out of the reservation's reach: after a successful
    reservation some taken input names an owned joint exactly when it already did or names
    a joint of the group just reserved.
  */
  lemma TakenEscapesExactly(setup: Setup, s: Reservations, group: string, owner: string)
    requires setup.mapped && MayReserve(setup, s, group)
    ensures TakenIsOpen(setup, Reserved(setup, s, group, owner)) <==>
      && TakenIsOpen(setup, s)
      && forall endpoint :: endpoint in s.taken && s.taken[endpoint].group in setup.groups ==>
           !Overlaps(setup.groups[s.taken[endpoint].group], setup.groups[group])
  {
    hide Disturbed;
    var t := Reserved(setup, s, group, owner);
    forall endpoint | endpoint in s.taken && s.taken[endpoint].group in setup.groups
      ensures var joints := setup.groups[s.taken[endpoint].group];
              Touches(joints, t.owners) <==> Touches(joints, s.owners) || Overlaps(joints, setup.groups[group])
    {
      var joints := setup.groups[s.taken[endpoint].group];
      if Touches(joints, s.owners) {
        var joint :| joint in joints && joint in s.owners;
        assert joint in t.owners;
      }
      if Overlaps(joints, setup.groups[group]) {
        var joint :| joint in joints && joint in setup.groups[group];
        assert joint in t.owners;
      }
      if Touches(joints, t.owners) {
        var joint :| joint in joints && joint in t.owners;
        assert joint in s.owners || joint in setup.groups[group];
      }
    }
  }

  /** Queue, take, reserve: the taken input names a joint the Move now owns. */
  lemma TakenInputMayNameOwnedJoint(setup: Setup, channel: Channel, stamp: int, owner: string)
    returns (calls: seq<Call>)
    requires setup.mapped && channel.servo && channel in setup.channels
    requires channel.group in setup.groups && setup.groups[channel.group] != [] && stamp > 0
    ensures Admissible(setup, calls) && !TakenIsOpen(setup, Run(setup, calls))
  {
    var rules := Rules(1, 0, false);
    var queue := QueueCall(channel, Input(stamp, stamp, 0), 0, rules);
    calls := [queue, TakeCall, ReserveCall(channel.group, owner)];
    assert calls[..2] == [queue, TakeCall] && [queue, TakeCall][..1] == [queue] && [queue][..0] == [];
    assert calls[..1] == [queue] && calls[..0] == [];
    var queued := Run(setup, [queue]);
    assert queued == Queued(setup, Run(setup, []), channel, Input(stamp, stamp, 0), 0, rules);
    assert channel.endpoint in queued.latest && queued.owners == map[] && queued.holds == map[];
    var taken := Run(setup, [queue, TakeCall]);
    assert MayReserve(setup, taken, channel.group) && taken.holds == map[];
    forall k | 0 <= k < |calls| ensures Fits(setup, Run(setup, calls[..k]), calls[k]) {
      assert k == 0 || k == 1 || k == 2;
    }
    var reserved := Run(setup, calls);
    assert setup.groups[channel.group][0] in reserved.owners;
  }
}
