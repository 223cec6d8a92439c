/**
  The arbiter's transitions on values, in terms of the unique winner set, and the
  class whose sorting, scanning and erasing methods are proved to perform them.
*/
module ControlArbiters {
  import opened MotionTypes
  import opened Arbitration

  datatype Arbiter = Arbiter(policies: map<string, Policy>, claims: Claims, next: nat)

  datatype ArbitrationResult = ArbitrationResult(
    code: Code, admitted: bool, winners: seq<Id>, preempted: seq<Id>, expired: seq<Id>)

  /** A held claim passed validation and carries its endpoint's priority and lease. */
  predicate Held(policies: map<string, Policy>, next: nat, id: Id, c: ClaimState) {
    && c.claim.id == id
    && c.sequence < next
    && ValidateClaim(policies, c.claim, c.claim.kind.IsServo()) == OK
    && c.priority == policies[c.claim.endpoint].priority
    && c.lease == policies[c.claim.endpoint].lease
  }

  ghost predicate Inv(a: Arbiter) {
    && Ranked(a.claims)
    && (forall id :: id in a.claims ==> Held(a.policies, a.next, id, a.claims[id]))
    && (forall name :: name in a.policies ==>
          && name != "" && a.policies[name].endpoint == name && a.policies[name].group != ""
          && (a.policies[name].kind.IsServo() ==> a.policies[name].lease > 0))
  }

  function ValidateClaim(policies: map<string, Policy>, claim: Claim, servo: bool): Code {
    if claim.id == "" || claim.endpoint == "" || claim.group == "" then INVALID_ARGUMENT
    else if claim.joints == [] then INVALID_ARGUMENT
    else if !Unique(claim.joints) || "" in claim.joints then INVALID_ARGUMENT
    else if claim.endpoint !in policies then NOT_CONFIGURED
    else if policies[claim.endpoint].kind != claim.kind || policies[claim.endpoint].group != claim.group
      then INVALID_ARGUMENT
    else if servo != claim.kind.IsServo() then INVALID_ARGUMENT
    else OK
  }

  ghost function RegisterCode(a: Arbiter, policy: Policy): Code {
    if policy.endpoint == "" || policy.group == "" then INVALID_ARGUMENT
    else if policy.kind.IsServo() && policy.lease <= 0 then INVALID_ARGUMENT
    else if policy.endpoint in a.policies then INVALID_ARGUMENT
    else OK
  }

  // ---- The transitions ----

  /** The claims once expired Servos are gone and the new claim holds the latest receive number. */
  function Entered(a: Arbiter, claim: Claim, receivedAt: Time, now: Time): Claims
    requires claim.endpoint in a.policies
  {
    var policy := a.policies[claim.endpoint];
    Live(a.claims, now)[claim.id := ClaimState(claim, policy.priority, a.next, receivedAt, policy.lease)]
  }

  /** Moves that won before and no longer win. */
  ghost function Evicted(before: Claims, after: Claims): set<Id>
    requires Ranked(before) && Ranked(after)
  {
    set id | id in Winners(before) && id in after && after[id].claim.kind.IsMove() && id !in Winners(after)
  }

  ghost predicate AcceptsMove(a: Arbiter, claim: Claim) {
    ValidateClaim(a.policies, claim, false) == OK && claim.id !in a.claims
  }

  ghost predicate AcceptsServo(a: Arbiter, claim: Claim, receivedAt: Time, now: Time) {
    && ValidateClaim(a.policies, claim, true) == OK
    && receivedAt <= now
    && now - receivedAt < a.policies[claim.endpoint].lease
    && (claim.id in a.claims ==> a.claims[claim.id].receivedAt <= receivedAt)
  }

  lemma FewerKeepInv(a: Arbiter, fewer: Claims)
    requires Inv(a) && forall id :: id in fewer ==> id in a.claims && fewer[id] == a.claims[id]
    ensures Ranked(fewer) && Inv(a.(claims := fewer)) && Inv(a.(claims := fewer, next := a.next + 1))
  {
    forall id | id in fewer ensures Held(a.policies, a.next + 1, id, fewer[id]) {
      assert Held(a.policies, a.next, id, a.claims[id]);
    }
  }

  lemma ClaimsAreKeyed(a: Arbiter)
    requires Inv(a)
    ensures forall id :: id in a.claims ==> a.claims[id].claim.id == id
    ensures forall x, y :: x in a.claims && y in a.claims && x != y ==> a.claims[x].sequence != a.claims[y].sequence
  {
  }

  lemma EnteredRanked(a: Arbiter, claim: Claim, receivedAt: Time, now: Time)
    requires Inv(a) && ValidateClaim(a.policies, claim, claim.kind.IsServo()) == OK
    ensures Ranked(Live(a.claims, now)) && Ranked(Entered(a, claim, receivedAt, now))
    ensures Inv(a.(claims := Live(a.claims, now)))
    ensures Inv(a.(claims := Entered(a, claim, receivedAt, now), next := a.next + 1))
  {
    var live := Live(a.claims, now);
    FewerKeepInv(a, live);
    var after := Entered(a, claim, receivedAt, now);
    forall id | id in after ensures Held(a.policies, a.next + 1, id, after[id]) {
      if id != claim.id { assert Held(a.policies, a.next + 1, id, live[id]); }
    }
    forall x, y | x in after && y in after && x != y ensures after[x].sequence != after[y].sequence {
      assert x != claim.id ==> Held(a.policies, a.next, x, live[x]);
      assert y != claim.id ==> Held(a.policies, a.next, y, live[y]);
    }
  }

  /** A Move either wins, evicting the Moves it beats, or changes nothing but the expired Servos. */
  ghost function SubmitMove(a: Arbiter, claim: Claim, now: Time): (b: Arbiter)
    requires Inv(a)
  {
    if !AcceptsMove(a, claim) then a
    else
      EnteredRanked(a, claim, now, now);
      var before := Live(a.claims, now);
      var after := Entered(a, claim, now, now);
      if claim.id in Winners(after) then a.(claims := after - Evicted(before, after), next := a.next + 1)
      else a.(claims := before, next := a.next + 1)
  }

  /** A Servo always holds its claim; it evicts the Moves that lose by its arrival. */
  ghost function UpdateServo(a: Arbiter, claim: Claim, receivedAt: Time, now: Time): (b: Arbiter)
    requires Inv(a)
  {
    if !AcceptsServo(a, claim, receivedAt, now) then a
    else
      EnteredRanked(a, claim, receivedAt, now);
      var after := Entered(a, claim, receivedAt, now);
      a.(claims := after - Evicted(Live(a.claims, now), after), next := a.next + 1)
  }

  function Evaluate(a: Arbiter, now: Time): (b: Arbiter) { a.(claims := Live(a.claims, now)) }

  function Release(a: Arbiter, id: Id): (b: Arbiter) { a.(claims := a.claims - {id}) }

  lemma StepsKeepInv(a: Arbiter, claim: Claim, receivedAt: Time, now: Time, id: Id)
    requires Inv(a)
    ensures Inv(SubmitMove(a, claim, now)) && Inv(UpdateServo(a, claim, receivedAt, now))
    ensures Inv(Evaluate(a, now)) && Inv(Release(a, id))
  {
    hide Inv, Entered, Evicted, Live;
    FewerKeepInv(a, a.claims - {id});
    LiveKeepsInv(a, now);
    if AcceptsMove(a, claim) {
      EnteredRanked(a, claim, now, now);
      EntryKeepsInv(a, claim, now, now, Evicted(Live(a.claims, now), Entered(a, claim, now, now)));
    }
    if AcceptsServo(a, claim, receivedAt, now) {
      EnteredRanked(a, claim, receivedAt, now);
      EntryKeepsInv(a, claim, receivedAt, now, Evicted(Live(a.claims, now), Entered(a, claim, receivedAt, now)));
    }
  }

  lemma EntryKeepsInv(a: Arbiter, claim: Claim, receivedAt: Time, now: Time, evicted: set<Id>)
    requires Inv(a) && ValidateClaim(a.policies, claim, claim.kind.IsServo()) == OK
    ensures Inv(a.(claims := Entered(a, claim, receivedAt, now) - evicted, next := a.next + 1))
  {
    EnteredRanked(a, claim, receivedAt, now);
    hide ValidateClaim, Entered, Held, Ranked;
    var after := Entered(a, claim, receivedAt, now);
    FewerKeepInv(a.(claims := after, next := a.next + 1), after - evicted);
  }

  lemma LiveKeepsInv(a: Arbiter, now: Time)
    requires Inv(a)
    ensures Inv(a.(claims := Live(a.claims, now))) && Inv(a.(claims := Live(a.claims, now), next := a.next + 1))
  {
    FewerKeepInv(a, Live(a.claims, now));
  }

  /** What the eviction leaves: exactly the winners of the claims it was computed on. */
  lemma EvictionKeepsWinners(before: Claims, after: Claims)
    requires Ranked(before) && Ranked(after)
    ensures Ranked(after - Evicted(before, after))
    ensures Winners(after - Evicted(before, after)) == Winners(after)
  {
    LosersAreIrrelevant(after, Evicted(before, after));
  }

  /** A refused Move evicts nobody: with or without it the winners are the same. */
  lemma RefusedMoveEvictsNobody(a: Arbiter, claim: Claim, now: Time)
    requires Inv(a) && AcceptsMove(a, claim)
    requires claim.id !in SubmitMove(a, claim, now).claims
    ensures SubmitMove(a, claim, now).claims == Live(a.claims, now)
    ensures Ranked(Live(a.claims, now)) && Ranked(Entered(a, claim, now, now))
    ensures Winners(Entered(a, claim, now, now)) == Winners(Live(a.claims, now))
    ensures Evicted(Live(a.claims, now), Entered(a, claim, now, now)) == {}
  {
    EnteredRanked(a, claim, now, now);
    var before := Live(a.claims, now);
    var after := Entered(a, claim, now, now);
    assert claim.id !in Winners(after);
    AddingALoser(before, claim.id, after[claim.id]);
  }

  lemma LiveAgain(m: Claims, now: Time)
    ensures Live(Live(m, now), now) == Live(m, now)
  {
  }

  /** Nothing the arbiter holds after entering a current claim is expired. */
  lemma NothingExpires(a: Arbiter, claim: Claim, receivedAt: Time, now: Time)
    requires Inv(a) && ValidateClaim(a.policies, claim, claim.kind.IsServo()) == OK
    requires claim.kind.IsServo() ==> now - receivedAt < a.policies[claim.endpoint].lease
    ensures Live(Entered(a, claim, receivedAt, now), now) == Entered(a, claim, receivedAt, now)
    ensures forall losers: set<Id> ::
      Live(Entered(a, claim, receivedAt, now) - losers, now) == Entered(a, claim, receivedAt, now) - losers
  {
  }

  // ---- Winners in rank order ----

  ghost predicate Sorted(s: seq<ClaimState>) {
    forall i, j :: 0 <= i < j < |s| ==> s[i].Outranks(s[j])
  }

  ghost predicate Lists(s: seq<ClaimState>, m: Claims) {
    && (forall i :: 0 <= i < |s| ==> s[i].claim.id in m && m[s[i].claim.id] == s[i])
    && (forall id :: id in m ==> m[id] in s)
  }

  /** What submitting a Move reports: who was evicted and who expired, and whether it holds control. */
  ghost predicate MoveResult(a: Arbiter, claim: Claim, now: Time, r: ArbitrationResult)
    requires Inv(a)
  {
    if AcceptsMove(a, claim) then
      EnteredRanked(a, claim, now, now);
      var before, after := Live(a.claims, now), Entered(a, claim, now, now);
      && r.admitted == (claim.id in Winners(after))
      && r.code == (if r.admitted then OK else REJECTED)
      && Members(r.preempted) == (if r.admitted then Evicted(before, after) else {})
      && (forall id :: id in r.expired <==> id in a.claims && a.claims[id].Expired(now))
    else r.code != OK && !r.admitted && r.preempted == [] && r.expired == []
  }

  ghost predicate ServoResult(a: Arbiter, claim: Claim, receivedAt: Time, now: Time, r: ArbitrationResult)
    requires Inv(a)
  {
    if AcceptsServo(a, claim, receivedAt, now) then
      EnteredRanked(a, claim, receivedAt, now);
      var before, after := Live(a.claims, now), Entered(a, claim, receivedAt, now);
      && r.code == OK
      && r.admitted == (claim.id in Winners(after))
      && Members(r.preempted) == Evicted(before, after)
      && (forall id :: id in r.expired <==> id in a.claims && a.claims[id].Expired(now))
    else r.code != OK && !r.admitted && r.preempted == [] && r.expired == []
  }

  /** `ids` names the winners of `m`, each once, highest rank first. */
  ghost predicate WinnersInOrder(ids: seq<Id>, m: Claims) {
    && Ranked(m)
    && Unique(ids)
    && Members(ids) == Winners(m)
    && (forall i, j :: 0 <= i < j < |ids| ==> ids[i] in m && ids[j] in m && m[ids[i]].Outranks(m[ids[j]]))
  }

  /** Whoever is unexpired wins exactly if it meets no winner of higher priority, later receipt or later number. */
  lemma WinnersAreUnbeaten(winners: seq<Id>, claims: Claims, now: Time)
    requires WinnersInOrder(winners, Live(claims, now))
    ensures forall id :: id in winners <==>
      && id in claims
      && !((claims[id].claim.kind == ServoJ || claims[id].claim.kind == ServoP)
           && now - claims[id].receivedAt >= claims[id].lease)
      && forall w, joint ::
           w in winners && w in claims && joint in claims[w].claim.joints && joint in claims[id].claim.joints ==>
             && claims[w].priority <= claims[id].priority
             && (claims[w].priority == claims[id].priority ==> claims[w].receivedAt <= claims[id].receivedAt)
             && (claims[w].priority == claims[id].priority && claims[w].receivedAt == claims[id].receivedAt ==>
                   claims[w].sequence <= claims[id].sequence)
  {
    var live := Live(claims, now);
    assert forall id :: id in winners <==> id in Winners(live);
  }

  method SortByRank(candidates: seq<ClaimState>) returns (sorted: seq<ClaimState>)
    requires forall i, j :: 0 <= i < j < |candidates| ==> candidates[i].sequence != candidates[j].sequence
    ensures Sorted(sorted)
    ensures forall c :: c in sorted <==> c in candidates
  {
    sorted := [];
    for k := 0 to |candidates|
      invariant Sorted(sorted)
      invariant forall c :: c in sorted <==> c in candidates[..k]
    {
      var c := candidates[k];
      var at := 0;
      while at < |sorted| && sorted[at].Outranks(c)
        invariant 0 <= at <= |sorted|
        invariant forall i :: 0 <= i < at ==> sorted[i].Outranks(c)
      {
        at := at + 1;
      }
      forall i | at <= i < |sorted| ensures c.Outranks(sorted[i]) {
        assert sorted[i] in candidates[..k];
        assert i == at || sorted[at].Outranks(sorted[i]);
        assert sorted[at] in candidates[..k];
      }
      var longer := sorted[..at] + [c] + sorted[at..];
      forall x ensures x in longer <==> x in candidates[..k + 1] {
        assert x in longer <==> x in sorted || x == c;
        assert candidates[..k + 1] == candidates[..k] + [c];
      }
      sorted := longer;
    }
    assert candidates[..|candidates|] == candidates;
  }

  class ControlArbiter {
    var policies: map<string, Policy>
    var claims: Claims
    var nextSequence: nat

    ghost function State(): Arbiter
      reads this
    {
      Arbiter(policies, claims, nextSequence)
    }

    ghost predicate Valid()
      reads this
    {
      Inv(State())
    }

    constructor ()
      ensures Valid() && State() == Arbiter(map[], map[], 1)
    {
      policies, claims, nextSequence := map[], map[], 1;
    }

    method RegisterEndpoint(policy: Policy) returns (code: Code)
      requires Valid()
      modifies this
      ensures Valid()
      ensures code == RegisterCode(old(State()), policy)
      ensures code == OK <==>
        && policy.endpoint != "" && policy.group != "" && policy.endpoint !in old(policies)
        && (policy.kind == ServoJ || policy.kind == ServoP ==> policy.lease > 0)
      ensures State() == if code == OK then old(State()).(policies := old(policies)[policy.endpoint := policy])
        else old(State())
    {
      if policy.endpoint == "" || policy.group == "" { return INVALID_ARGUMENT; }
      if policy.kind.IsServo() && policy.lease <= 0 { return INVALID_ARGUMENT; }
      if policy.endpoint in policies { return INVALID_ARGUMENT; }
      policies := policies[policy.endpoint := policy];
      return OK;
    }

    method ComputeWinners(now: Time) returns (winners: seq<Id>)
      requires Valid()
      ensures WinnersInOrder(winners, Live(claims, now))
      // In the claims alone: whoever is unexpired and meets no winner that ranks higher.
      ensures forall id :: id in winners <==>
        && id in claims
        && !((claims[id].claim.kind == ServoJ || claims[id].claim.kind == ServoP)
             && now - claims[id].receivedAt >= claims[id].lease)
        && forall w, joint ::
             w in winners && w in claims && joint in claims[w].claim.joints && joint in claims[id].claim.joints ==>
               && claims[w].priority <= claims[id].priority
               && (claims[w].priority == claims[id].priority ==> claims[w].receivedAt <= claims[id].receivedAt)
               && (claims[w].priority == claims[id].priority && claims[w].receivedAt == claims[id].receivedAt ==>
                     claims[w].sequence <= claims[id].sequence)
    {
      winners := RankWinners(now);
      hide *;
      WinnersAreUnbeaten(winners, claims, now);
    }

    method RankWinners(now: Time) returns (winners: seq<Id>)
      requires Valid()
      ensures WinnersInOrder(winners, Live(claims, now))
    {
      var candidates := CollectLive(now);
      ghost var m := Live(claims, now);
      assert Ranked(m);
      var sorted := SortByRank(candidates);
      assert forall i :: 0 <= i < |sorted| ==> sorted[i] in candidates;
      winners := Greedy(sorted, m);
    }

    /** The map is read in no particular order. */
    method CollectLive(now: Time) returns (candidates: seq<ClaimState>)
      requires Valid()
      ensures Lists(candidates, Live(claims, now))
      ensures forall i, j :: 0 <= i < j < |candidates| ==> candidates[i].sequence != candidates[j].sequence
    {
      ClaimsAreKeyed(State());
      FewerKeepInv(State(), Live(claims, now));
      hide Inv, Held, Ranked, ValidateClaim, Overlaps, Lists, ListsOnce, Live, ClaimState.Expired;
      ghost var live := Live(claims, now);
      candidates := [];
      var left := claims.Keys;
      ListedNone(live, left);
      while left != {}
        invariant left <= claims.Keys && ListsOnce(candidates, live - left)
        decreases left
      {
        var id :| id in left;
        ListedMore(candidates, live, left, id);
        left := left - {id};
        if !claims[id].Expired(now) {
          candidates := candidates + [claims[id]];
        }
      }
      assert live - left == live;
      ListedDistinct(candidates, live);
    }

    static ghost predicate ListsOnce(s: seq<ClaimState>, m: Claims) {
      Lists(s, m) && forall i, j :: 0 <= i < j < |s| ==> s[i].claim.id != s[j].claim.id
    }

    static lemma ListedNone(m: Claims, left: set<Id>)
      requires m.Keys <= left
      ensures ListsOnce([], m - left)
    {
    }

    static lemma ListedDistinct(s: seq<ClaimState>, m: Claims)
      requires ListsOnce(s, m) && Ranked(m)
      ensures Lists(s, m) && forall i, j :: 0 <= i < j < |s| ==> s[i].sequence != s[j].sequence
    {
      forall i, j | 0 <= i < j < |s| ensures s[i].sequence != s[j].sequence {
        assert m[s[i].claim.id] == s[i] && m[s[j].claim.id] == s[j];
      }
    }

    static lemma ListedMore(s: seq<ClaimState>, m: Claims, left: set<Id>, id: Id)
      requires ListsOnce(s, m - left) && id in left && forall x :: x in m ==> m[x].claim.id == x
      ensures ListsOnce(if id in m then s + [m[id]] else s, m - (left - {id}))
    {
      var more := m - (left - {id});
      assert id in m ==> (s + [m[id]])[|s|] == m[id];
      forall x | x in more && x != id ensures more[x] in s {
        assert (m - left)[x] in s;
      }
    }

    /** The first `k` claims in rank order are decided by the defining equation. */
    static ghost predicate Decided(sorted: seq<ClaimState>, k: nat, m: Claims, chosen: set<Id>)
      requires k <= |sorted|
    {
      && chosen <= m.Keys
      && (forall i :: k <= i < |sorted| ==> sorted[i].claim.id !in chosen)
      && (forall i :: 0 <= i < k ==> (sorted[i].claim.id in chosen <==> !Blocked(m, chosen, sorted[i])))
    }

    static lemma LowerBlocksNothing(m: Claims, chosen: set<Id>, c: ClaimState, higher: ClaimState)
      requires c.claim.id in m && m[c.claim.id] == c && !c.Outranks(higher)
      ensures Blocked(m, chosen + {c.claim.id}, higher) <==> Blocked(m, chosen, higher)
    {
      hide Overlaps;
      if Blocked(m, chosen + {c.claim.id}, higher) {
        var w :| w in chosen + {c.claim.id} && w in m && m[w].Outranks(higher) && m[w].Conflicts(higher);
        assert w != c.claim.id;
      }
    }

    static lemma DecideNext(sorted: seq<ClaimState>, k: nat, m: Claims, chosen: set<Id>, more: set<Id>)
      requires k < |sorted| && Sorted(sorted) && Lists(sorted, m) && Decided(sorted, k, m, chosen)
      requires more == if Blocked(m, chosen, sorted[k]) then chosen else chosen + {sorted[k].claim.id}
      ensures Decided(sorted, k + 1, m, more)
    {
      hide Overlaps, Blocked;
      var c := sorted[k];
      forall i | 0 <= i <= k
        ensures Blocked(m, chosen + {c.claim.id}, sorted[i]) <==> Blocked(m, chosen, sorted[i])
      {
        assert i < k ==> sorted[i].Outranks(c);
        LowerBlocksNothing(m, chosen, c, sorted[i]);
      }
      forall i | 0 <= i < |sorted| && i != k ensures sorted[i].claim.id != c.claim.id {
        assert i < k ==> sorted[i].Outranks(c);
        assert k < i ==> c.Outranks(sorted[i]);
        assert m[sorted[i].claim.id] == sorted[i];
      }
    }

    /** Every selected claim precedes the candidate, so a conflict is exactly a block. */
    static lemma SelectedBlock(sorted: seq<ClaimState>, k: nat, selected: seq<ClaimState>, m: Claims, chosen: set<Id>)
      requires k < |sorted| && Sorted(sorted) && Lists(sorted, m) && Decided(sorted, k, m, chosen)
      requires Selected(selected, m, chosen)
      ensures (exists i :: 0 <= i < |selected| && sorted[k].Conflicts(selected[i])) <==> Blocked(m, chosen, sorted[k])
    {
      SelectedBefore(sorted, k, selected, m, chosen);
      assert forall i :: 0 <= i < |selected| ==>
        (sorted[k].Conflicts(selected[i]) <==> selected[i].Conflicts(sorted[k]));
    }

    static lemma SelectedBefore(sorted: seq<ClaimState>, k: nat, selected: seq<ClaimState>, m: Claims, chosen: set<Id>)
      requires k < |sorted| && Sorted(sorted) && Lists(sorted, m) && Decided(sorted, k, m, chosen)
      requires Selected(selected, m, chosen)
      ensures forall i :: 0 <= i < |selected| ==> selected[i].Outranks(sorted[k])
    {
      hide Overlaps, Blocked;
      forall i | 0 <= i < |selected| ensures selected[i].Outranks(sorted[k]) {
        var at :| 0 <= at < |sorted| && sorted[at] == selected[i];
        assert at < k;
      }
    }

    static ghost predicate Selected(selected: seq<ClaimState>, m: Claims, chosen: set<Id>) {
      && (forall i :: 0 <= i < |selected| ==>
            selected[i].claim.id in chosen && selected[i].claim.id in m && m[selected[i].claim.id] == selected[i])
      && (forall id :: id in chosen ==> exists i :: 0 <= i < |selected| && selected[i].claim.id == id)
    }

    static lemma SelectOneMore(selected: seq<ClaimState>, m: Claims, chosen: set<Id>, c: ClaimState)
      requires Selected(selected, m, chosen) && c.claim.id in m && m[c.claim.id] == c
      ensures Selected(selected + [c], m, chosen + {c.claim.id})
    {
      var more := selected + [c];
      forall id | id in chosen + {c.claim.id} ensures exists i :: 0 <= i < |more| && more[i].claim.id == id {
        if id == c.claim.id {
          assert more[|selected|].claim.id == id;
        } else {
          var i :| 0 <= i < |selected| && selected[i].claim.id == id;
          assert more[i].claim.id == id;
        }
      }
    }

    static lemma ListedIsClaim(sorted: seq<ClaimState>, k: nat, m: Claims)
      requires Lists(sorted, m) && k < |sorted|
      ensures sorted[k].claim.id in m && m[sorted[k].claim.id] == sorted[k]
    {
    }

    static lemma SortedMore(sorted: seq<ClaimState>, c: ClaimState)
      requires Sorted(sorted) && forall i :: 0 <= i < |sorted| ==> sorted[i].Outranks(c)
      ensures Sorted(sorted + [c])
    {
    }

    static method Greedy(sorted: seq<ClaimState>, ghost m: Claims) returns (winners: seq<Id>)
      requires Ranked(m) && Sorted(sorted) && Lists(sorted, m)
      ensures WinnersInOrder(winners, m)
    {
      winners := [];
      var selected: seq<ClaimState> := [];
      ghost var chosen: set<Id> := {};
      for k := 0 to |sorted|
        invariant |selected| == |winners| && Sorted(selected)
        invariant forall i :: 0 <= i < |selected| ==> winners[i] == selected[i].claim.id
        invariant Decided(sorted, k, m, chosen) && Selected(selected, m, chosen)
      {
        hide Blocked, Overlaps, Decided, Selected, Lists, Sorted;
        var candidate := sorted[k];
        ListedIsClaim(sorted, k, m);
        var conflict := exists i :: 0 <= i < |selected| && candidate.Conflicts(selected[i]);
        SelectedBlock(sorted, k, selected, m, chosen);
        ghost var more := if conflict then chosen else chosen + {candidate.claim.id};
        DecideNext(sorted, k, m, chosen, more);
        if !conflict {
          SelectedBefore(sorted, k, selected, m, chosen);
          SelectOneMore(selected, m, chosen, candidate);
          SortedMore(selected, candidate);
          selected := selected + [candidate];
          winners := winners + [candidate.claim.id];
        }
        chosen := more;
      }
      GreedyIsWinners(sorted, m, selected, chosen, winners);
    }

    static lemma GreedyIsWinners(
      sorted: seq<ClaimState>, m: Claims, selected: seq<ClaimState>, chosen: set<Id>, winners: seq<Id>)
      requires Ranked(m) && Lists(sorted, m) && Decided(sorted, |sorted|, m, chosen)
      requires Sorted(selected) && Selected(selected, m, chosen) && |selected| == |winners|
      requires forall i :: 0 <= i < |selected| ==> winners[i] == selected[i].claim.id
      ensures WinnersInOrder(winners, m)
    {
      hide Overlaps;
      assert Members(winners) == chosen;
      forall id | id in m ensures id in chosen <==> !Blocked(m, chosen, m[id]) {
        var i :| 0 <= i < |sorted| && sorted[i] == m[id];
      }
      assert IsWinnerSet(m, chosen);
      WinnerSetUnique(m, chosen, Winners(m));
    }

    method RemovePreemptedMoves(oldWinners: seq<Id>, newWinners: seq<Id>) returns (result: seq<Id>)
      requires Valid()
      modifies this
      ensures Valid()
      ensures forall id :: id in result <==>
        id in oldWinners && id !in newWinners && id in old(claims) && old(claims)[id].claim.kind.IsMove()
      ensures Unique(oldWinners) ==> Unique(result)
      ensures State() == old(State()).(claims := old(claims) - Members(result))
    {
      result := [];
      for k := 0 to |oldWinners|
        invariant State() == old(State())
        invariant forall id :: id in result <==>
          id in oldWinners[..k] && id !in newWinners && id in claims && claims[id].claim.kind.IsMove()
        invariant Unique(oldWinners) ==> Unique(result)
      {
        var id := oldWinners[k];
        assert oldWinners[..k + 1] == oldWinners[..k] + [id];
        if id !in newWinners && id in claims && claims[id].claim.kind.IsMove() {
          assert Unique(oldWinners) ==> id !in oldWinners[..k];
          result := result + [id];
        }
      }
      assert oldWinners[..|oldWinners|] == oldWinners;
      for k := 0 to |result|
        invariant State() == old(State()).(claims := old(claims) - Members(result[..k]))
      {
        assert result[..k + 1] == result[..k] + [result[k]];
        claims := claims - {result[k]};
      }
      assert result[..|result|] == result;
      FewerKeepInv(old(State()), claims);
    }

    method RemoveExpiredServos(now: Time) returns (expired: seq<Id>)
      requires Valid()
      modifies this
      ensures Valid()
      ensures Unique(expired)
      ensures forall id :: id in expired <==> id in old(claims) && old(claims)[id].Expired(now)
      ensures State() == Evaluate(old(State()), now)
      ensures forall id :: id in old(claims) ==>
        (id in expired <==>
           && (old(claims)[id].claim.kind == ServoJ || old(claims)[id].claim.kind == ServoP)
           && now - old(claims)[id].receivedAt >= old(claims)[id].lease)
    {
      hide Inv, Held, Ranked, ValidateClaim, Overlaps;
      expired := [];
      var left := claims.Keys;
      while left != {}
        invariant policies == old(policies) && nextSequence == old(nextSequence)
        invariant left <= old(claims).Keys
        invariant forall id :: id in expired <==> id in old(claims).Keys - left && old(claims)[id].Expired(now)
        invariant Unique(expired)
        invariant claims == old(claims) - Members(expired)
        decreases left
      {
        var id :| id in left;
        left := left - {id};
        if claims[id].Expired(now) {
          expired := expired + [id];
          claims := claims - {id};
        }
      }
      assert claims == Live(old(claims), now);
      FewerKeepInv(old(State()), claims);
    }

    /** The step both operations share: expire, enter the claim, evict the Moves it beats. */
    method EnterClaim(claim: Claim, receivedAt: Time, now: Time) returns (preempted: seq<Id>, expired: seq<Id>)
      requires Valid() && ValidateClaim(policies, claim, claim.kind.IsServo()) == OK
      requires claim.kind.IsServo() ==> now - receivedAt < policies[claim.endpoint].lease
      modifies this
      ensures Valid()
      ensures Ranked(Live(old(claims), now)) && Ranked(Entered(old(State()), claim, receivedAt, now))
      ensures State() == Arbiter(old(policies),
        Entered(old(State()), claim, receivedAt, now) - Evicted(
          Live(old(claims), now), Entered(old(State()), claim, receivedAt, now)),
        old(nextSequence) + 1)
      ensures Members(preempted) == Evicted(Live(old(claims), now), Entered(old(State()), claim, receivedAt, now))
      ensures forall id :: id in expired <==> id in old(claims) && old(claims)[id].Expired(now)
    {
      hide Ranked, Held, IsWinnerSet, Blocked, Overlaps;
      ghost var a := State();
      EnteredRanked(a, claim, receivedAt, now);
      ghost var before := Live(a.claims, now);
      ghost var after := Entered(a, claim, receivedAt, now);
      expired := RemoveExpiredServos(now);
      LiveAgain(a.claims, now);
      var oldWinners := ComputeWinners(now);
      var policy := policies[claim.endpoint];
      claims := claims[claim.id := ClaimState(claim, policy.priority, nextSequence, receivedAt, policy.lease)];
      nextSequence := nextSequence + 1;
      assert claims == after;
      NothingExpires(a, claim, receivedAt, now);
      var newWinners := ComputeWinners(now);
      preempted := RemovePreemptedMoves(oldWinners, newWinners);
      assert Members(preempted) == Evicted(before, after);
    }

    method SubmitMoveClaim(claim: Claim, now: Time) returns (r: ArbitrationResult)
      requires Valid()
      modifies this
      ensures Valid()
      ensures State() == SubmitMove(old(State()), claim, now)
      ensures MoveResult(old(State()), claim, now, r)
      ensures WinnersInOrder(r.winners, Live(claims, now))
      ensures r.code == OK <==> r.admitted
      ensures r.admitted ==> claim.id in claims && claims[claim.id].claim == claim && claims[claim.id].receivedAt == now
      ensures claim.id in old(claims) || claim.kind == ServoJ || claim.kind == ServoP || claim.joints == [] ==>
        r.code != OK && State() == old(State())
    {
      hide Ranked, Held, IsWinnerSet, Blocked, Overlaps;
      ghost var a := State();
      var code := ValidateClaim(policies, claim, false);
      if code != OK {
        var winners := ComputeWinners(now);
        return ArbitrationResult(code, false, winners, [], []);
      }
      if claim.id in claims {
        var winners := ComputeWinners(now);
        return ArbitrationResult(INVALID_ARGUMENT, false, winners, [], []);
      }
      r := ArbitrateMove(claim, now);
    }

    /** Enter a Move's claim, evict the Moves that lose by it, and look who wins. */
    method EnterMove(claim: Claim, now: Time) returns (newWinners: seq<Id>, preempted: seq<Id>, expired: seq<Id>)
      requires Valid() && AcceptsMove(State(), claim)
      modifies this
      ensures Valid()
      ensures var before, after := Live(old(claims), now), Entered(old(State()), claim, now, now);
              && Ranked(before) && Ranked(after) && Members(preempted) == Evicted(before, after)
              && State() == Arbiter(old(policies), after - Evicted(before, after), old(nextSequence) + 1)
              && (claim.id in newWinners <==> claim.id in Winners(after))
      ensures forall id :: id in expired <==> id in old(claims) && old(claims)[id].Expired(now)
      ensures WinnersInOrder(newWinners, Live(claims, now))
    {
      hide Ranked, Held, IsWinnerSet, Blocked, Overlaps;
      ghost var a := State();
      EnteredRanked(a, claim, now, now);
      preempted, expired := EnterClaim(claim, now, now);
      EvictionKeepsWinners(Live(a.claims, now), Entered(a, claim, now, now));
      NothingExpires(a, claim, now, now);
      hide Inv, Unique;
      newWinners := ComputeWinners(now);
      assert claim.id in newWinners <==> claim.id in Members(newWinners);
    }

    static lemma EnteredIsLast(a: Arbiter, claim: Claim, now: Time)
      requires Inv(a) && AcceptsMove(a, claim)
      ensures Entered(a, claim, now, now) - {claim.id} == Live(a.claims, now)
    {
      hide Inv;
      assert claim.id !in Live(a.claims, now);
    }

    /** A valid Move with a new id stays only if it wins. */
    method ArbitrateMove(claim: Claim, now: Time) returns (r: ArbitrationResult)
      requires Valid() && AcceptsMove(State(), claim)
      modifies this
      ensures Valid()
      ensures State() == SubmitMove(old(State()), claim, now)
      ensures MoveResult(old(State()), claim, now, r)
      ensures WinnersInOrder(r.winners, Live(claims, now))
    {
      hide Ranked, Held, IsWinnerSet, Blocked, Overlaps, Entered, Evicted, Unique;
      ghost var a := State();
      var newWinners, preempted, expired := EnterMove(claim, now);
      hide Inv;
      if claim.id !in newWinners {
        RefusedMoveEvictsNobody(a, claim, now);
        EnteredIsLast(a, claim, now);
        var winners := DropRefused(claim.id, now);
        return ArbitrationResult(REJECTED, false, winners, preempted, expired);
      }
      var winners := ComputeWinners(now);
      return ArbitrationResult(OK, true, winners, preempted, expired);
    }

    method DropRefused(id: Id, now: Time) returns (winners: seq<Id>)
      requires Valid()
      modifies this
      ensures Valid() && State() == Release(old(State()), id) && WinnersInOrder(winners, Live(claims, now))
    {
      ReleaseClaim(id);
      winners := ComputeWinners(now);
    }

    method UpdateServoClaim(claim: Claim, receivedAt: Time, now: Time) returns (r: ArbitrationResult)
      requires Valid()
      modifies this
      ensures Valid()
      ensures State() == UpdateServo(old(State()), claim, receivedAt, now)
      ensures ServoResult(old(State()), claim, receivedAt, now, r)
      ensures WinnersInOrder(r.winners, Live(claims, now))
      // A target from the future, past its lease or older than the one held is refused; any other of a Servo is held.
      ensures ValidateClaim(policies, claim, true) == OK ==>
        if receivedAt > now || receivedAt + policies[claim.endpoint].lease <= now
          || (claim.id in old(claims) && receivedAt < old(claims)[claim.id].receivedAt)
        then r.code == REJECTED && State() == old(State())
        else
          && r.code == OK && claim.id in claims
          && claims[claim.id].claim == claim && claims[claim.id].receivedAt == receivedAt
          && claims[claim.id].lease == policies[claim.endpoint].lease
          && claims[claim.id].priority == policies[claim.endpoint].priority
    {
      hide Ranked, Held, IsWinnerSet, Blocked, Overlaps;
      ghost var a := State();
      var code := ValidateClaim(policies, claim, true);
      if code != OK {
        var winners := ComputeWinners(now);
        return ArbitrationResult(code, false, winners, [], []);
      }
      var policy := policies[claim.endpoint];
      if receivedAt > now || now - receivedAt >= policy.lease ||
        (claim.id in claims && receivedAt < claims[claim.id].receivedAt)
      {
        var winners := ComputeWinners(now);
        return ArbitrationResult(REJECTED, false, winners, [], []);
      }
      EnteredRanked(a, claim, receivedAt, now);
      ghost var before := Live(a.claims, now);
      ghost var after := Entered(a, claim, receivedAt, now);
      var preempted, expired := EnterClaim(claim, receivedAt, now);
      EvictionKeepsWinners(before, after);
      NothingExpires(a, claim, receivedAt, now);
      var current := ComputeWinners(now);
      assert claim.id in current <==> claim.id in Members(current);
      return ArbitrationResult(OK, claim.id in current, current, preempted, expired);
    }

    method EvaluateClaims(now: Time) returns (r: ArbitrationResult)
      requires Valid()
      modifies this
      ensures Valid()
      ensures State() == Evaluate(old(State()), now)
      ensures r.code == OK && !r.admitted && r.preempted == []
      ensures forall id :: id in r.expired <==> id in old(claims) && old(claims)[id].Expired(now)
      ensures Live(claims, now) == claims && WinnersInOrder(r.winners, claims)
      // A Servo's claim is gone and reported from the end of its lease on; no other claim is.
      ensures forall id :: id in old(claims) ==>
        (id !in claims <==>
           && (old(claims)[id].claim.kind == ServoJ || old(claims)[id].claim.kind == ServoP)
           && now - old(claims)[id].receivedAt >= old(claims)[id].lease)
      ensures forall id :: id in r.expired <==> id in old(claims) && id !in claims
    {
      var expired := RemoveExpiredServos(now);
      assert Live(claims, now) == claims;
      var winners := ComputeWinners(now);
      return ArbitrationResult(OK, false, winners, [], expired);
    }

    method ReleaseClaim(id: Id)
      requires Valid()
      modifies this
      ensures Valid()
      ensures State() == Release(old(State()), id)
    {
      claims := claims - {id};
    }
  }
}
