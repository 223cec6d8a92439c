/**
  Whole runs of the arbiter under one setup of endpoints and groups.

  A Move is admitted only while it wins and is meant never to wait. That holds in
  every run exactly for the setups without a trap: a Move, a Servo sharing a joint
  with it, and a third endpoint sharing a joint with the Servo but none with the
  Move, with priorities that let the third outrank the Servo and the Servo outrank
  the Move. In a trap the Move is admitted while the Servo is held back, and goes
  on being held when the Servo is freed and wins its joints.
*/
module ArbiterRuns {
  import opened MotionTypes
  import opened Arbitration
  import opened ControlArbiters

  datatype Op =
    | SubmitMoveOp(claim: Claim, now: Time)
    | UpdateServoOp(claim: Claim, receivedAt: Time, now: Time)
    | EvaluateOp(now: Time)
    | ReleaseOp(id: Id, now: Time)

  datatype Setup = Setup(policies: map<string, Policy>, groups: map<string, seq<Joint>>) {
    function Joints(endpoint: string): seq<Joint>
      requires endpoint in policies && policies[endpoint].group in groups
    {
      groups[policies[endpoint].group]
    }
  }

  /** What registration and the group models guarantee; a Servo's lease is a whole number of milliseconds. */
  ghost predicate ValidSetup(setup: Setup) {
    forall name :: name in setup.policies ==>
      var policy := setup.policies[name];
      && name != "" && policy.endpoint == name
      && policy.group != "" && policy.group in setup.groups
      && (policy.kind.IsServo() ==> policy.lease >= 1_000_000)
      && setup.groups[policy.group] != [] && Unique(setup.groups[policy.group]) && "" !in setup.groups[policy.group]
  }

  function Start(setup: Setup): Arbiter { Arbiter(setup.policies, map[], 1) }

  ghost function Step(a: Arbiter, op: Op): (b: Arbiter)
    requires Inv(a)
    ensures Inv(b) && b.policies == a.policies
  {
    match op
    case SubmitMoveOp(claim, now) => StepsKeepInv(a, claim, now, now, ""); SubmitMove(a, claim, now)
    case UpdateServoOp(claim, receivedAt, now) => StepsKeepInv(a, claim, receivedAt, now, "");
      UpdateServo(a, claim, receivedAt, now)
    case EvaluateOp(now) => FewerKeepInv(a, Live(a.claims, now)); Evaluate(a, now)
    case ReleaseOp(id, now) => FewerKeepInv(a, a.claims - {id}); Release(a, id)
  }

  ghost function Run(a: Arbiter, ops: seq<Op>): (b: Arbiter)
    requires Inv(a)
    ensures Inv(b) && b.policies == a.policies
  {
    if ops == [] then a else Step(Run(a, ops[..|ops| - 1]), ops[|ops| - 1])
  }

  /** Claims carry the joints of their configured group, and time does not run backwards. */
  ghost predicate Admissible(setup: Setup, ops: seq<Op>, end: Time) {
    && (forall i :: 0 <= i < |ops| ==> ops[i].now <= end)
    && (forall i, j :: 0 <= i < j < |ops| ==> ops[i].now <= ops[j].now)
    && (forall i :: 0 <= i < |ops| && (ops[i].SubmitMoveOp? || ops[i].UpdateServoOp?) ==>
         Configured(setup, ops[i].claim))
  }

  predicate Configured(setup: Setup, claim: Claim) {
    claim.group in setup.groups && claim.joints == setup.groups[claim.group]
  }

  /** No held Move is waiting for another claim. */
  ghost predicate MovesWin(m: Claims, now: Time)
    requires Ranked(m)
  {
    Ranked(Live(m, now)) && forall id :: id in m && m[id].claim.kind.IsMove() ==> id in Winners(Live(m, now))
  }

  predicate Trap(setup: Setup, move: string, servo: string, third: string)
    requires move in setup.policies && servo in setup.policies && third in setup.policies
    requires forall name :: name in setup.policies ==> setup.policies[name].group in setup.groups
  {
    && setup.policies[move].kind.IsMove()
    && setup.policies[servo].kind.IsServo()
    && setup.policies[third].priority >= setup.policies[servo].priority >= setup.policies[move].priority
    && Overlaps(setup.Joints(servo), setup.Joints(move))
    && Overlaps(setup.Joints(servo), setup.Joints(third))
    && !Overlaps(setup.Joints(move), setup.Joints(third))
  }

  ghost predicate NoTrap(setup: Setup)
    requires ValidSetup(setup)
  {
    forall move, servo, third ::
      move in setup.policies && servo in setup.policies && third in setup.policies ==> !Trap(setup, move, servo, third)
  }

  // ---- Without a trap, held Moves always win ----

  ghost predicate Follows(setup: Setup, a: Arbiter) {
    && Inv(a) && a.policies == setup.policies
    && forall id :: id in a.claims ==> Configured(setup, a.claims[id].claim)
  }

  /**
    Removing claims frees no claim that could beat a Move: whatever held that claim
    back would have to be clear of the Move, which is a trap.
  */
  lemma FewerClaimsKeepMovesWinning(setup: Setup, a: Arbiter, m: Claims, fewer: Claims)
    requires ValidSetup(setup) && NoTrap(setup) && Follows(setup, a)
    requires forall id :: id in m ==> id in a.claims && m[id] == a.claims[id]
    requires forall id :: id in fewer ==> id in m && fewer[id] == m[id]
    requires Ranked(m) && Ranked(fewer)
    requires forall id :: id in m && m[id].claim.kind.IsMove() ==> id in Winners(m)
    ensures forall id :: id in fewer && fewer[id].claim.kind.IsMove() ==> id in Winners(fewer)
  {
    hide Overlaps, Unique;
    forall id | id in fewer && fewer[id].claim.kind.IsMove() ensures id in Winners(fewer) {
      if id !in Winners(fewer) {
        var c :| c in Winners(fewer) && c in fewer && fewer[c].Outranks(fewer[id]) && fewer[c].Conflicts(fewer[id]);
        if c in Winners(m) {
          WinnersDisjoint(m, c, id);
        } else {
          var d :| d in Winners(m) && d in m && m[d].Outranks(m[c]) && m[d].Conflicts(m[c]);
          assert d != id;
          WinnersDisjoint(m, id, d);
          TrapFound(setup, a, id, c, d);
        }
      }
    }
  }

  lemma TrapFound(setup: Setup, a: Arbiter, move: Id, servo: Id, third: Id)
    requires ValidSetup(setup) && Follows(setup, a)
    requires move in a.claims && servo in a.claims && third in a.claims
    requires a.claims[move].claim.kind.IsMove() && a.claims[servo].claim.kind.IsServo()
    requires a.claims[third].Outranks(a.claims[servo]) && a.claims[servo].Outranks(a.claims[move])
    requires a.claims[third].Conflicts(a.claims[servo]) && a.claims[servo].Conflicts(a.claims[move])
    requires !a.claims[move].Conflicts(a.claims[third])
    ensures !NoTrap(setup)
  {
    var m, s, d := a.claims[move].claim, a.claims[servo].claim, a.claims[third].claim;
    assert Held(a.policies, a.next, move, a.claims[move]);
    assert Held(a.policies, a.next, servo, a.claims[servo]);
    assert Held(a.policies, a.next, third, a.claims[third]);
    assert Overlaps(s.joints, d.joints) by {
      assert Overlaps(d.joints, s.joints);
    }
    assert Trap(setup, m.endpoint, s.endpoint, d.endpoint);
  }

  /** After an entering claim evicts the Moves it beats, every Move left wins. */
  lemma EntryKeepsMovesWinning(before: Claims, after: Claims, id: Id)
    requires Ranked(before) && Ranked(after) && after.Keys == before.Keys + {id}
    requires forall x :: x in before && x != id ==> after[x] == before[x]
    requires forall x :: x in before && before[x].claim.kind.IsMove() ==> x in Winners(before)
    requires after[id].claim.kind.IsMove() ==> id in Winners(after)
    ensures Ranked(after - Evicted(before, after))
    ensures forall x :: x in after - Evicted(before, after) && after[x].claim.kind.IsMove() ==>
              x in Winners(after - Evicted(before, after))
  {
    EvictionKeepsWinners(before, after);
  }

  lemma StepKeepsMovesWinning(setup: Setup, a: Arbiter, op: Op, earlier: Time)
    requires ValidSetup(setup) && NoTrap(setup) && Follows(setup, a)
    requires MovesWin(a.claims, earlier) && earlier <= op.now
    requires op.SubmitMoveOp? || op.UpdateServoOp? ==> Configured(setup, op.claim)
    ensures Follows(setup, Step(a, op)) && MovesWin(Step(a, op).claims, op.now)
  {
    TimeKeepsMovesWinning(setup, a, earlier, op.now);
    hide Ranked, Unique, Overlaps, Held, IsWinnerSet;
    var b := Step(a, op);
    match op
    case SubmitMoveOp(claim, now) =>
      ExpiryWins(setup, a, now);
      if AcceptsMove(a, claim) {
        EnteredRanked(a, claim, now, now);
        if claim.id in Winners(Entered(a, claim, now, now)) {
          EntryWins(setup, a, claim, now, now);
        }
      }
    case UpdateServoOp(claim, receivedAt, now) =>
      if AcceptsServo(a, claim, receivedAt, now) {
        EnteredRanked(a, claim, receivedAt, now);
        EntryWins(setup, a, claim, receivedAt, now);
      }
    case EvaluateOp(now) =>
      ExpiryWins(setup, a, now);
    case ReleaseOp(id, now) =>
      FewerKeepInv(a, Live(a.claims, now));
      FewerKeepInv(b, Live(b.claims, now));
      FewerClaimsKeepMovesWinning(setup, a, Live(a.claims, now), Live(b.claims, now));
  }

  lemma EntryWins(setup: Setup, a: Arbiter, claim: Claim, receivedAt: Time, now: Time)
    requires ValidSetup(setup) && Follows(setup, a) && Configured(setup, claim) && MovesWin(a.claims, now)
    requires if claim.kind.IsServo() then AcceptsServo(a, claim, receivedAt, now) else AcceptsMove(a, claim)
    requires Ranked(Live(a.claims, now)) && Ranked(Entered(a, claim, receivedAt, now))
    requires claim.kind.IsServo() || claim.id in Winners(Entered(a, claim, receivedAt, now))
    ensures var left :=
      Entered(a, claim, receivedAt, now) - Evicted(Live(a.claims, now), Entered(a, claim, receivedAt, now));
            Follows(setup, a.(claims := left, next := a.next + 1)) && MovesWin(left, now)
  {
    hide Ranked, Unique, Overlaps, Held, IsWinnerSet, ValidSetup, Live, Configured, Inv;
    EnteredRanked(a, claim, receivedAt, now);
    var before, after := Live(a.claims, now), Entered(a, claim, receivedAt, now);
    NothingExpires(a, claim, receivedAt, now);
    EntryKeepsMovesWinning(before, after, claim.id);
    EntryFollows(setup, a, claim, receivedAt, now, Evicted(before, after));
  }

  lemma EntryFollows(setup: Setup, a: Arbiter, claim: Claim, receivedAt: Time, now: Time, evicted: set<Id>)
    requires ValidSetup(setup) && Follows(setup, a) && Configured(setup, claim)
    requires ValidateClaim(a.policies, claim, claim.kind.IsServo()) == OK
    ensures Follows(setup, a.(claims := Entered(a, claim, receivedAt, now) - evicted, next := a.next + 1))
  {
    EnteredRanked(a, claim, receivedAt, now);
    hide Ranked, Unique, Overlaps, Held, IsWinnerSet, ValidSetup, ValidateClaim;
    var after := Entered(a, claim, receivedAt, now);
    FewerKeepInv(a.(claims := after, next := a.next + 1), after - evicted);
  }

  lemma ExpiryWins(setup: Setup, a: Arbiter, now: Time)
    requires Follows(setup, a) && MovesWin(a.claims, now)
    ensures MovesWin(Live(a.claims, now), now)
    ensures Follows(setup, a.(claims := Live(a.claims, now)))
    ensures Follows(setup, a.(claims := Live(a.claims, now), next := a.next + 1))
  {
    LiveAgain(a.claims, now);
    FewerKeepInv(a, Live(a.claims, now));
  }

  lemma TimeKeepsMovesWinning(setup: Setup, a: Arbiter, earlier: Time, now: Time)
    requires ValidSetup(setup) && NoTrap(setup) && Follows(setup, a)
    requires MovesWin(a.claims, earlier) && earlier <= now
    ensures MovesWin(a.claims, now)
  {
    FewerKeepInv(a, Live(a.claims, earlier));
    FewerKeepInv(a, Live(a.claims, now));
    assert forall id :: id in Live(a.claims, now) ==> id in Live(a.claims, earlier);
    FewerClaimsKeepMovesWinning(setup, a, Live(a.claims, earlier), Live(a.claims, now));
  }

  lemma {:induction false} NoTrapRuns(setup: Setup, ops: seq<Op>, end: Time)
    requires ValidSetup(setup) && NoTrap(setup) && Admissible(setup, ops, end)
    ensures Follows(setup, Run(Start(setup), ops)) && MovesWin(Run(Start(setup), ops).claims, end)
    decreases |ops|
  {
    if ops != [] {
      var last := ops[|ops| - 1];
      NoTrapRuns(setup, ops[..|ops| - 1], last.now);
      StepKeepsMovesWinning(setup, Run(Start(setup), ops[..|ops| - 1]), last, last.now);
      TimeKeepsMovesWinning(setup, Run(Start(setup), ops), last.now, end);
    }
  }

  // ---- A trap is reached by four calls ----

  function ClaimOf(setup: Setup, id: Id, endpoint: string): Claim
    requires endpoint in setup.policies && setup.policies[endpoint].group in setup.groups
  {
    Claim(id, endpoint, setup.policies[endpoint].group, setup.policies[endpoint].kind, setup.Joints(endpoint))
  }

  /** Admit the Move, then the third claim, then the Servo it holds back; finally release the third. */
  function TrapRun(setup: Setup, move: string, servo: string, third: string): (ops: seq<Op>)
    requires ValidSetup(setup) && move in setup.policies && servo in setup.policies && third in setup.policies
  {
    var d := ClaimOf(setup, "third", third);
    [ SubmitMoveOp(ClaimOf(setup, "move", move), 0),
      if d.kind.IsMove() then SubmitMoveOp(d, 1) else UpdateServoOp(d, 1, 1),
      UpdateServoOp(ClaimOf(setup, "servo", servo), 0, 1),
      ReleaseOp("third", 1) ]
  }

  function StateOf(setup: Setup, id: Id, endpoint: string, sequence: nat, receivedAt: Time): ClaimState
    requires endpoint in setup.policies && setup.policies[endpoint].group in setup.groups
  {
    ClaimState(
      ClaimOf(setup, id, endpoint), setup.policies[endpoint].priority, sequence, receivedAt,
      setup.policies[endpoint].lease)
  }

  lemma WinnersAre(m: Claims, winners: set<Id>)
    requires Ranked(m) && IsWinnerSet(m, winners)
    ensures Winners(m) == winners
  {
    WinnerSetUnique(m, winners, Winners(m));
  }

  /** Disjoint claims both win. */
  lemma DisjointPairWins(m: ClaimState, d: ClaimState)
    requires m.sequence != d.sequence && !m.Conflicts(d) && !d.Conflicts(m)
    ensures Ranked(map["move" := m, "third" := d]) && Winners(map["move" := m, "third" := d]) == {"move", "third"}
  {
    hide Overlaps;
    WinnersAre(map["move" := m, "third" := d], {"move", "third"});
  }

  /** The third claim holds the Servo back, so all the others keep winning. */
  lemma ServoLoses(m: ClaimState, d: ClaimState, s: ClaimState)
    requires m.sequence != d.sequence && m.sequence != s.sequence && d.sequence != s.sequence
    requires !m.Conflicts(d) && !d.Conflicts(m) && d.Outranks(s) && d.Conflicts(s)
    ensures Ranked(map["move" := m, "third" := d, "servo" := s])
    ensures Winners(map["move" := m, "third" := d, "servo" := s]) == {"move", "third"}
  {
    hide Overlaps;
    var three: Claims := map["move" := m, "third" := d, "servo" := s];
    assert !d.Outranks(m) || !d.Conflicts(m);
    assert three["third"] == d;
    assert Blocked(three, {"move", "third"}, s);
    WinnersAre(three, {"move", "third"});
  }

  /** With the third claim gone the Servo takes the Move's joints. */
  lemma ServoWins(m: ClaimState, s: ClaimState)
    requires m.sequence != s.sequence && s.Outranks(m) && s.Conflicts(m)
    ensures Ranked(map["move" := m, "servo" := s]) && Winners(map["move" := m, "servo" := s]) == {"servo"}
  {
    hide Overlaps;
    var left: Claims := map["move" := m, "servo" := s];
    assert left["servo"] == s;
    WinnersAre(left, {"servo"});
  }

  lemma SetupAccepts(setup: Setup, id: Id, endpoint: string)
    requires ValidSetup(setup) && endpoint in setup.policies && id != ""
    ensures ValidateClaim(setup.policies, ClaimOf(setup, id, endpoint), setup.policies[endpoint].kind.IsServo()) == OK
    ensures Inv(Start(setup))
  {
  }

  /** Entering a claim that leaves the earlier winners winning evicts nobody. */
  lemma EntryWithoutEviction(a: Arbiter, claim: Claim, receivedAt: Time, now: Time, after: Claims)
    requires Inv(a) && Live(a.claims, now) == a.claims
    requires claim.kind.IsServo() ==> AcceptsServo(a, claim, receivedAt, now)
    requires claim.kind.IsMove() ==> AcceptsMove(a, claim) && receivedAt == now
    requires after == Entered(a, claim, receivedAt, now)
    requires Ranked(after) && Winners(a.claims) <= Winners(after)
    requires claim.kind.IsMove() ==> claim.id in Winners(after)
    ensures claim.kind.IsServo() ==> UpdateServo(a, claim, receivedAt, now) == a.(claims := after, next := a.next + 1)
    ensures claim.kind.IsMove() ==> SubmitMove(a, claim, now) == a.(claims := after, next := a.next + 1)
  {
    hide Ranked, Overlaps, IsWinnerSet, Held;
    assert Evicted(a.claims, after) == {};
    assert after - {} == after;
  }

  lemma FirstTwoEnter(setup: Setup, move: string, servo: string, third: string)
    requires ValidSetup(setup) && move in setup.policies && servo in setup.policies && third in setup.policies
    requires Trap(setup, move, servo, third)
    ensures Inv(Start(setup))
    ensures Run(Start(setup), TrapRun(setup, move, servo, third)[..2]) ==
            Arbiter(setup.policies,
              map["move" := StateOf(setup, "move", move, 1, 0), "third" := StateOf(setup, "third", third, 2, 1)], 3)
  {
    hide Unique;
    var a := Start(setup);
    SetupAccepts(setup, "move", move);
    SetupAccepts(setup, "third", third);
    var ops := TrapRun(setup, move, servo, third);
    var m := StateOf(setup, "move", move, 1, 0);
    var d := StateOf(setup, "third", third, 2, 1);
    assert ops[..2][..1] == [ops[0]] && [ops[0]][..0] == [];
    var one: Claims := map["move" := m];
    assert Live(a.claims, 0) == map[] && Entered(a, m.claim, 0, 0) == one;
    WinnersAre(map[], {});
    WinnersAre(one, {"move"});
    EntryWithoutEviction(a, m.claim, 0, 0, one);
    var a1 := Arbiter(setup.policies, one, 2);
    assert Run(a, [ops[0]]) == a1;
    var two: Claims := one["third" := d];
    assert two == map["move" := m, "third" := d];
    assert Live(one, 1) == one && Entered(a1, d.claim, 1, 1) == two;
    assert !Overlaps(d.claim.joints, m.claim.joints) && !Overlaps(m.claim.joints, d.claim.joints);
    hide Overlaps, Ranked;
    DisjointPairWins(m, d);
    EntryWithoutEviction(a1, d.claim, 1, 1, two);
  }

  lemma ServoIsHeldBack(setup: Setup, move: string, servo: string, third: string)
    requires ValidSetup(setup) && move in setup.policies && servo in setup.policies && third in setup.policies
    requires Trap(setup, move, servo, third)
    ensures Inv(Start(setup))
    ensures Run(Start(setup), TrapRun(setup, move, servo, third)[..3]) ==
            Arbiter(setup.policies,
              map["move" := StateOf(setup, "move", move, 1, 0), "third" := StateOf(setup, "third", third, 2, 1),
                  "servo" := StateOf(setup, "servo", servo, 3, 0)], 4)
  {
    hide Overlaps, Ranked, Unique, ValidSetup, Trap, Inv, Run, Step, StateOf;
    GroupsKnown(setup);
    FirstTwoEnter(setup, move, servo, third);
    var ops := TrapRun(setup, move, servo, third);
    assert ops[..3][..2] == ops[..2];
    var m := StateOf(setup, "move", move, 1, 0);
    var d := StateOf(setup, "third", third, 2, 1);
    LastStep(Start(setup), ops[..3]);
    ServoEnters(setup, move, servo, third, Arbiter(setup.policies, map["move" := m, "third" := d], 3));
  }

  lemma ServoEnters(setup: Setup, move: string, servo: string, third: string, a: Arbiter)
    requires ValidSetup(setup) && move in setup.policies && servo in setup.policies && third in setup.policies
    requires Trap(setup, move, servo, third) && Inv(a)
    requires var m, d := StateOf(setup, "move", move, 1, 0), StateOf(setup, "third", third, 2, 1);
             a == Arbiter(setup.policies, map["move" := m, "third" := d], 3)
    ensures Step(a, UpdateServoOp(ClaimOf(setup, "servo", servo), 0, 1)) ==
            Arbiter(setup.policies, a.claims["servo" := StateOf(setup, "servo", servo, 3, 0)], 4)
  {
    GroupsKnown(setup);
    SetupAccepts(setup, "servo", servo);
    hide Overlaps, Ranked, Unique, ValidSetup, Inv, Held, IsWinnerSet;
    var m := StateOf(setup, "move", move, 1, 0);
    var d := StateOf(setup, "third", third, 2, 1);
    var s := StateOf(setup, "servo", servo, 3, 0);
    TrapConflicts(setup, move, servo, third, m, s, d);
    var three: Claims := map["move" := m, "third" := d, "servo" := s];
    assert Live(a.claims, 1) == a.claims && Entered(a, s.claim, 0, 1) == three;
    DisjointPairWins(m, d);
    ServoLoses(m, d, s);
    EntryWithoutEviction(a, s.claim, 0, 1, three);
  }

  lemma TrapConflicts(
    setup: Setup, move: string, servo: string, third: string, m: ClaimState, s: ClaimState, d: ClaimState)
    requires ValidSetup(setup) && move in setup.policies && servo in setup.policies && third in setup.policies
    requires Trap(setup, move, servo, third)
    requires m == StateOf(setup, "move", move, 1, 0) && s == StateOf(setup, "servo", servo, 3, 0)
    requires d == StateOf(setup, "third", third, 2, 1)
    ensures !m.Conflicts(d) && !d.Conflicts(m) && d.Conflicts(s) && s.Conflicts(m)
    ensures d.Outranks(s) && s.Outranks(m)
  {
    assert Overlaps(d.claim.joints, s.claim.joints) <==> Overlaps(s.claim.joints, d.claim.joints);
    assert Overlaps(d.claim.joints, m.claim.joints) <==> Overlaps(m.claim.joints, d.claim.joints);
  }

  lemma GroupsKnown(setup: Setup)
    requires ValidSetup(setup)
    ensures forall name :: name in setup.policies ==> setup.policies[name].group in setup.groups
    ensures forall name :: name in setup.policies && setup.policies[name].kind.IsServo() ==>
      setup.policies[name].lease > 1
  {
  }

  lemma ReleasesThird(b: Arbiter)
    requires Inv(b)
    ensures Step(b, ReleaseOp("third", 1)).claims == b.claims - {"third"}
  {
  }

  lemma LastStep(a: Arbiter, ops: seq<Op>)
    requires Inv(a) && ops != []
    ensures Run(a, ops) == Step(Run(a, ops[..|ops| - 1]), ops[|ops| - 1])
  {
  }

  lemma TrapRunAdmissible(setup: Setup, move: string, servo: string, third: string)
    requires ValidSetup(setup) && move in setup.policies && servo in setup.policies && third in setup.policies
    ensures Admissible(setup, TrapRun(setup, move, servo, third), 1)
  {
  }

  lemma TrapBreaksARun(setup: Setup, move: string, servo: string, third: string)
    requires ValidSetup(setup) && move in setup.policies && servo in setup.policies && third in setup.policies
    requires Trap(setup, move, servo, third)
    ensures Inv(Start(setup)) && "move" in Run(Start(setup), TrapRun(setup, move, servo, third)).claims
    ensures !MovesWin(Run(Start(setup), TrapRun(setup, move, servo, third)).claims, 1)
  {
    GroupsKnown(setup);
    hide Overlaps, Ranked, Unique, ValidSetup, IsWinnerSet, Trap, Live, Entered, SubmitMove, UpdateServo, Inv, Held,
      MovesWin, Run;
    var a := Start(setup);
    var ops := TrapRun(setup, move, servo, third);
    ServoIsHeldBack(setup, move, servo, third);
    var m := StateOf(setup, "move", move, 1, 0);
    var d := StateOf(setup, "third", third, 2, 1);
    var s := StateOf(setup, "servo", servo, 3, 0);
    TrapConflicts(setup, move, servo, third, m, s, d);
    MoveIsLeftWaiting(m, d, s);
    LastStep(a, ops);
    ReleasesThird(Run(a, ops[..3]));
  }

  lemma MoveIsLeftWaiting(m: ClaimState, d: ClaimState, s: ClaimState)
    requires m.sequence != s.sequence && s.Outranks(m) && s.Conflicts(m)
    requires m.claim.kind.IsMove() && !s.Expired(1)
    ensures var left := map["move" := m, "third" := d, "servo" := s] - {"third"};
            "move" in left && Ranked(left) && !MovesWin(left, 1)
  {
    hide Overlaps;
    var left: Claims := map["move" := m, "servo" := s];
    assert map["move" := m, "third" := d, "servo" := s] - {"third"} == left;
    assert Live(left, 1) == left;
    ServoWins(m, s);
  }

  /** Moves never wait, in any run, exactly when the setup has no trap. */
  lemma MovesNeverWaitExactlyWithoutTraps(setup: Setup)
    requires ValidSetup(setup)
    ensures Inv(Start(setup))
    ensures NoTrap(setup) <==>
            forall ops, end :: Admissible(setup, ops, end) ==> MovesWin(Run(Start(setup), ops).claims, end)
  {
    if NoTrap(setup) {
      forall ops, end | Admissible(setup, ops, end) ensures MovesWin(Run(Start(setup), ops).claims, end) {
        NoTrapRuns(setup, ops, end);
      }
    } else {
      var move, servo, third :| move in setup.policies && servo in setup.policies && third in setup.policies &&
                                Trap(setup, move, servo, third);
      TrapBreaksARun(setup, move, servo, third);
      TrapRunAdmissible(setup, move, servo, third);
    }
  }

  /** Enough for having no trap: a Move that meets a Servo's joints takes all of them. */
  lemma ContainmentLeavesNoTrap(setup: Setup)
    requires ValidSetup(setup)
    requires forall move, servo ::
      && move in setup.policies && servo in setup.policies
      && setup.policies[move].kind.IsMove() && setup.policies[servo].kind.IsServo()
      && Overlaps(setup.Joints(servo), setup.Joints(move)) ==>
        forall joint :: joint in setup.Joints(servo) ==> joint in setup.Joints(move)
    ensures NoTrap(setup)
  {
  }

  // ---- The shipped groups ----

  const LEFT_ARM: seq<Joint> := ["left_shoulder_pitch", "left_elbow"]
  const RIGHT_ARM: seq<Joint> := ["right_shoulder_pitch", "right_elbow"]
  const BODY: seq<Joint> := ["torso_yaw", "neck_yaw"]

  /** Each arm, and the whole upper body under two names; the Servo channels drive one arm each. */
  ghost predicate Shipped(setup: Setup) {
    && setup.groups == map[
         "left_arm" := LEFT_ARM, "right_arm" := RIGHT_ARM,
         "upper_body" := BODY + LEFT_ARM + RIGHT_ARM, "whole_body" := BODY + LEFT_ARM + RIGHT_ARM]
    && forall name :: name in setup.policies && setup.policies[name].kind.IsServo() ==>
         setup.policies[name].group == "left_arm" || setup.policies[name].group == "right_arm"
  }

  lemma ArmsApart()
    ensures forall left, right :: left in LEFT_ARM && right in RIGHT_ARM ==> left != right
  {
    assert forall joint :: joint in LEFT_ARM ==> joint[..4] == "left";
    assert forall joint :: joint in RIGHT_ARM ==> joint[..4] == "righ";
  }

  /** Whatever the priorities, channels over the shipped groups have no trap. */
  lemma ShippedGroupsHaveNoTrap(setup: Setup)
    requires ValidSetup(setup) && Shipped(setup)
    ensures NoTrap(setup)
  {
    ArmsApart();
    hide Unique;
    forall move, servo |
      && move in setup.policies && servo in setup.policies
      && setup.policies[move].kind.IsMove() && setup.policies[servo].kind.IsServo()
      && Overlaps(setup.Joints(servo), setup.Joints(move))
      ensures forall joint :: joint in setup.Joints(servo) ==> joint in setup.Joints(move)
    {
      ArmWithin(setup.Joints(servo), setup.Joints(move));
    }
    ContainmentLeavesNoTrap(setup);
  }

  /** Of the shipped groups, one that meets an arm contains it. */
  lemma ArmWithin(arm: seq<Joint>, group: seq<Joint>)
    requires arm == LEFT_ARM || arm == RIGHT_ARM
    requires group == LEFT_ARM || group == RIGHT_ARM || group == BODY + LEFT_ARM + RIGHT_ARM
    requires Overlaps(arm, group)
    ensures forall joint :: joint in arm ==> joint in group
  {
    ArmsApart();
    forall joint | joint in arm && group == BODY + LEFT_ARM + RIGHT_ARM ensures joint in group {
      assert joint in LEFT_ARM || joint in RIGHT_ARM;
    }
  }
}
