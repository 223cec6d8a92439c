/**
  What joint-conflict arbitration means. Claims are ranked by priority, then by
  the most recent receipt, then by the receive counter. A claim wins exactly when
  no higher-ranked winner shares a joint with it; there is one such winner set.
*/
module Arbitration {
  import opened MotionTypes

  datatype Policy = Policy(endpoint: string, kind: Kind, group: string, priority: int, lease: Time)

  datatype Claim = Claim(id: Id, endpoint: string, group: string, kind: Kind, joints: seq<Joint>)

  datatype ClaimState =
    ClaimState(claim: Claim, priority: int, sequence: nat, receivedAt: Time, lease: Time)
  {
    predicate Expired(now: Time) {
      claim.kind.IsServo() && now - receivedAt >= lease
    }

    predicate Outranks(other: ClaimState) {
      if priority != other.priority then priority > other.priority
      else if receivedAt != other.receivedAt then receivedAt > other.receivedAt
      else sequence > other.sequence
    }

    predicate Conflicts(other: ClaimState) {
      Overlaps(claim.joints, other.claim.joints)
    }
  }

  type Claims = map<Id, ClaimState>

  /** The receive counter never repeats, so the ranking is a strict total order. */
  ghost predicate Ranked(m: Claims) {
    forall a, b :: a in m && b in m && a != b ==> m[a].sequence != m[b].sequence
  }

  ghost predicate Blocked(m: Claims, winners: set<Id>, c: ClaimState) {
    exists w :: w in winners && w in m && m[w].Outranks(c) && m[w].Conflicts(c)
  }

  /** The defining equation: a claim wins exactly when no higher-ranked winner conflicts with it. */
  ghost predicate IsWinnerSet(m: Claims, winners: set<Id>) {
    && winners <= m.Keys
    && forall id :: id in m ==> (id in winners <==> !Blocked(m, winners, m[id]))
  }

  function Live(m: Claims, now: Time): (live: Claims)
    ensures live.Keys <= m.Keys
    ensures forall id :: id in m ==> (id in live <==> !m[id].Expired(now))
    ensures forall id :: id in live ==> live[id] == m[id]
  {
    map id | id in m && !m[id].Expired(now) :: m[id]
  }

  ghost function Winners(m: Claims): (winners: set<Id>)
    requires Ranked(m)
    ensures IsWinnerSet(m, winners)
  {
    WinnerSetExists(m);
    var winners :| IsWinnerSet(m, winners);
    winners
  }

  // ---- The ranking ----

  lemma {:induction false} LowestExists(m: Claims) returns (low: Id)
    requires Ranked(m) && m != map[]
    ensures low in m
    ensures forall id :: id in m && id != low ==> m[id].Outranks(m[low])
    decreases |m|
  {
    var pick :| pick in m;
    var rest := m - {pick};
    if rest == map[] {
      low := pick;
      assert forall id :: id in m && id != pick ==> id in rest;
    } else {
      assert |rest| < |m| by { SmallerMap(m, pick); }
      var lower := LowestExists(rest);
      low := if m[pick].Outranks(m[lower]) then lower else pick;
      forall id | id in m && id != low ensures m[id].Outranks(m[low]) {
        if id != pick { assert id in rest; }
      }
    }
  }

  lemma SmallerMap(m: Claims, id: Id)
    requires id in m
    ensures |m - {id}| < |m|
  {
    var rest := m - {id};
    assert rest.Keys == m.Keys - {id};
    assert |rest.Keys| == |m.Keys| - 1;
  }

  // ---- Existence and uniqueness of the winner set ----

  /** The lowest-ranked claim blocks nobody, so it can be decided after all the others. */
  lemma LowestDecidedLast(m: Claims, low: Id, winners: set<Id>)
    requires Ranked(m) && low in m && winners <= m.Keys
    requires forall id :: id in m && id != low ==> m[id].Outranks(m[low])
    ensures IsWinnerSet(m, winners) <==>
            && IsWinnerSet(m - {low}, winners - {low})
            && (low in winners <==> !Blocked(m, winners - {low}, m[low]))
  {
    var rest := m - {low};
    forall id | id in m
      ensures Blocked(m, winners, m[id]) <==> Blocked(m, winners - {low}, m[id])
    {
      if Blocked(m, winners, m[id]) {
        var w :| w in winners && w in m && m[w].Outranks(m[id]) && m[w].Conflicts(m[id]);
        assert w != low;
      }
    }
    forall id | id in rest
      ensures Blocked(rest, winners - {low}, rest[id]) <==> Blocked(m, winners, m[id])
    {
      if Blocked(m, winners - {low}, m[id]) {
        var w :| w in winners - {low} && w in m && m[w].Outranks(m[id]) && m[w].Conflicts(m[id]);
        assert w in rest && rest[w] == m[w];
      }
    }
    if IsWinnerSet(m, winners) {
      assert IsWinnerSet(rest, winners - {low});
    }
    if IsWinnerSet(rest, winners - {low}) && (low in winners <==> !Blocked(m, winners - {low}, m[low])) {
      forall id | id in m ensures id in winners <==> !Blocked(m, winners, m[id]) {
        if id != low { assert id in rest; }
      }
    }
  }

  lemma {:induction false} WinnerSetExists(m: Claims)
    requires Ranked(m)
    ensures exists winners :: IsWinnerSet(m, winners)
    decreases |m|
  {
    if m == map[] {
      assert IsWinnerSet(m, {});
    } else {
      var low := LowestExists(m);
      SmallerMap(m, low);
      WinnerSetExists(m - {low});
      var others :| IsWinnerSet(m - {low}, others);
      var winners := if Blocked(m, others, m[low]) then others else others + {low};
      assert winners - {low} == others;
      LowestDecidedLast(m, low, winners);
    }
  }

  lemma SameButOne(one: set<Id>, two: set<Id>, low: Id)
    requires one - {low} == two - {low} && (low in one <==> low in two)
    ensures one == two
  {
    forall id ensures id in one <==> id in two {
      assert id != low ==> (id in one <==> id in one - {low}) && (id in two <==> id in two - {low});
    }
  }

  lemma {:induction false} WinnerSetUnique(m: Claims, one: set<Id>, two: set<Id>)
    requires Ranked(m) && IsWinnerSet(m, one) && IsWinnerSet(m, two)
    ensures one == two
    decreases |m|
  {
    if m != map[] {
      var low := LowestExists(m);
      SmallerMap(m, low);
      LowestDecidedLast(m, low, one);
      LowestDecidedLast(m, low, two);
      WinnerSetUnique(m - {low}, one - {low}, two - {low});
      SameButOne(one, two, low);
    }
  }

  /** Winners never share a joint. */
  lemma WinnersDisjoint(m: Claims, a: Id, b: Id)
    requires Ranked(m) && a in Winners(m) && b in Winners(m) && a != b
    ensures !m[a].Conflicts(m[b])
  {
    assert m[a].Conflicts(m[b]) ==> m[b].Conflicts(m[a]);
    assert m[a].Outranks(m[b]) || m[b].Outranks(m[a]);
    assert !Blocked(m, Winners(m), m[a]) && !Blocked(m, Winners(m), m[b]);
  }

  /** Removing claims that do not win leaves the winners unchanged. */
  lemma LosersAreIrrelevant(m: Claims, losers: set<Id>)
    requires Ranked(m) && losers !! Winners(m)
    ensures Ranked(m - losers) && Winners(m - losers) == Winners(m)
  {
    var winners := Winners(m);
    var rest := m - losers;
    forall id | id in rest ensures Blocked(rest, winners, rest[id]) <==> Blocked(m, winners, m[id]) {
      if Blocked(m, winners, m[id]) {
        var w :| w in winners && w in m && m[w].Outranks(m[id]) && m[w].Conflicts(m[id]);
        assert w in rest && rest[w] == m[w];
      }
    }
    assert IsWinnerSet(rest, winners);
    WinnerSetUnique(rest, winners, Winners(rest));
  }

  /** Adding a claim that does not win leaves the winners unchanged. */
  lemma AddingALoser(m: Claims, id: Id, c: ClaimState)
    requires id !in m && Ranked(m[id := c]) && id !in Winners(m[id := c])
    ensures Ranked(m) && Winners(m) == Winners(m[id := c])
  {
    var more := m[id := c];
    assert more - {id} == m;
    LosersAreIrrelevant(more, {id});
  }
}
