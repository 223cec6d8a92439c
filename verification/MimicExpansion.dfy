/**
  Expanding mimic joints: each follows another joint through an affine transform,
  possibly through a chain of mimics.
*/
module MimicExpansion {
  import opened MotionTypes

  /** `finite` is false when a coefficient is an infinity or not a number. */
  datatype Mimic = Mimic(parent: string, scale: real, offset: real, finite: bool)

  type Mimics = map<string, Mimic>

  function Follow(mimic: Mimic, source: real): real { source * mimic.scale + mimic.offset }

  /** Base positions are kept and every mimic equation holds. */
  ghost predicate IsExtension(base: map<string, real>, mimics: Mimics, full: map<string, real>) {
    && full.Keys == base.Keys + mimics.Keys
    && (forall name :: name in base ==> full[name] == base[name])
    && (forall name :: name in mimics ==>
          mimics[name].parent in full && full[name] == Follow(mimics[name], full[mimics[name].parent]))
  }

  /** Resolved within `n` rounds: the source is a base position or resolved a round earlier. */
  predicate Resolvable(base: set<string>, mimics: Mimics, name: string, n: nat)
    decreases n
  {
    n > 0 && name in mimics && (mimics[name].parent in base || Resolvable(base, mimics, mimics[name].parent, n - 1))
  }

  ghost predicate Grounded(base: set<string>, mimics: Mimics, name: string) {
    exists n: nat :: Resolvable(base, mimics, name, n)
  }

  ghost predicate AllGrounded(base: set<string>, mimics: Mimics) {
    forall name :: name in mimics ==> Grounded(base, mimics, name)
  }

  lemma GroundedParent(base: set<string>, mimics: Mimics, name: string)
    requires name in mimics
    ensures Grounded(base, mimics, name) <==> mimics[name].parent in base || Grounded(base, mimics, mimics[name].parent)
  {
    forall n: nat | Resolvable(base, mimics, name, n) && mimics[name].parent !in base
      ensures Grounded(base, mimics, mimics[name].parent)
    {
      assert Resolvable(base, mimics, mimics[name].parent, n - 1);
    }
    if mimics[name].parent in base {
      assert Resolvable(base, mimics, name, 1);
    } else if Grounded(base, mimics, mimics[name].parent) {
      var n: nat :| Resolvable(base, mimics, mimics[name].parent, n);
      assert Resolvable(base, mimics, name, n + 1);
    }
  }

  /** Mimics none of which follows anything outside but unknown names are never resolved. */
  lemma {:induction false} StuckNeverGrounded(
    base: set<string>, mimics: Mimics, stuck: set<string>, name: string, n: nat)
    requires stuck <= mimics.Keys && name in stuck
    requires forall m :: m in stuck ==>
      mimics[m].parent !in base && (mimics[m].parent in mimics ==> mimics[m].parent in stuck)
    ensures !Resolvable(base, mimics, name, n)
    decreases n
  {
    if n > 0 && mimics[name].parent in stuck {
      StuckNeverGrounded(base, mimics, stuck, mimics[name].parent, n - 1);
    }
  }

  // ---- The expansion ----

  datatype Expansion = Expanded(positions: map<string, real>) | Unresolved | InvalidTransform

  /** Give one mimic its position; a name without a known source is left alone. */
  function Resolve(result: map<string, real>, mimics: Mimics, name: string): map<string, real> {
    if name in mimics && mimics[name].parent in result
    then result[name := Follow(mimics[name], result[mimics[name].parent])]
    else result
  }

  /** What a round has made of the positions after the mimics in `order`. */
  function Applied(result: map<string, real>, mimics: Mimics, order: seq<string>): map<string, real>
    decreases |order|
  {
    if order == [] then result
    else Resolve(Applied(result, mimics, order[..|order| - 1]), mimics, order[|order| - 1])
  }

  /** The pending mimics whose source is known. */
  function Ready(result: set<string>, pending: Mimics): set<string> {
    set name | name in pending && pending[name].parent in result
  }

  /** The positions after some rounds. */
  function Played(base: map<string, real>, mimics: Mimics, rounds: seq<seq<string>>): map<string, real>
    decreases |rounds|
  {
    if rounds == [] then base
    else Applied(Played(base, mimics, rounds[..|rounds| - 1]), mimics, rounds[|rounds| - 1])
  }

  /** The mimics still pending after some rounds. */
  function Left(mimics: Mimics, rounds: seq<seq<string>>): Mimics
    decreases |rounds|
  {
    if rounds == [] then mimics else Left(mimics, rounds[..|rounds| - 1]) - Members(rounds[|rounds| - 1])
  }

  /** Each round takes, in some order, exactly the mimics whose source was known at its start. */
  ghost predicate IsRun(base: map<string, real>, mimics: Mimics, rounds: seq<seq<string>>) {
    forall k :: 0 <= k < |rounds| ==> IsRound(base, mimics, rounds, k)
  }

  ghost predicate IsRound(base: map<string, real>, mimics: Mimics, rounds: seq<seq<string>>, k: nat)
    requires k < |rounds|
  {
    && rounds[k] != [] && Unique(rounds[k])
    && Members(rounds[k]) == Ready(Played(base, mimics, rounds[..k]).Keys, Left(mimics, rounds[..k]))
  }

  ghost predicate IsWholeRun(base: map<string, real>, mimics: Mimics, rounds: seq<seq<string>>) {
    IsRun(base, mimics, rounds) && Left(mimics, rounds) == map[]
  }

  method ExpandMimics(base: map<string, real>, mimics: Mimics) returns (r: Expansion, ghost rounds: seq<seq<string>>)
    ensures r.Expanded? <==> AllGrounded(base.Keys, mimics) && forall name :: name in mimics ==> mimics[name].finite
    ensures r.Expanded? && base.Keys !! mimics.Keys ==> IsExtension(base, mimics, r.positions)
    ensures r.Expanded? ==> IsWholeRun(base, mimics, rounds) && r.positions == Played(base, mimics, rounds)
    ensures r.Unresolved? ==> !AllGrounded(base.Keys, mimics)
    ensures r.Expanded? && base.Keys !! mimics.Keys ==>
      && (forall name :: name in base ==> name in r.positions && r.positions[name] == base[name])
      && forall name :: name in mimics ==>
           && name in r.positions && mimics[name].parent in r.positions
           && r.positions[name] == r.positions[mimics[name].parent] * mimics[name].scale + mimics[name].offset
  {
    hide AllGrounded, IsExtension, IsWholeRun, Played;
    r, rounds := PlayRounds(base, mimics);
    if r.Expanded? && base.Keys !! mimics.Keys { ExtensionInValues(base, mimics, r.positions); }
  }

  /** Round after round, until nothing is pending or nothing pending has a known source. */
  method PlayRounds(base: map<string, real>, mimics: Mimics) returns (r: Expansion, ghost rounds: seq<seq<string>>)
    ensures r.Expanded? <==> AllGrounded(base.Keys, mimics) && forall name :: name in mimics ==> mimics[name].finite
    ensures r.Expanded? && base.Keys !! mimics.Keys ==> IsExtension(base, mimics, r.positions)
    ensures r.Expanded? ==> IsWholeRun(base, mimics, rounds) && r.positions == Played(base, mimics, rounds)
    ensures r.Unresolved? ==> !AllGrounded(base.Keys, mimics)
  {
    hide Progress, Follow, Grounded, IsRun, Played, Left, Applied, IsPending, IsExtension;
    var result, pending := base, mimics;
    rounds := [];
    RunBegins(base, mimics);
    while pending != map[]
      invariant Progress(base, mimics, result, pending) && IsRun(base, mimics, rounds)
      invariant result == Played(base, mimics, rounds) && pending == Left(mimics, rounds)
      decreases |pending|
    {
      var ready := set name | name in pending && pending[name].parent in result;
      if ready == {} {
        PendingShown(base, mimics, result, pending);
        StuckFails(base, mimics, result, pending);
        return Unresolved, rounds;
      }
      var ok, next, rest, order := ResolveReady(base, mimics, result, pending, ready);
      if !ok { return InvalidTransform, rounds; }
      Fewer(pending, rest, ready);
      RunGrows(base, mimics, rounds, order);
      rounds := rounds + [order];
      result, pending := next, rest;
    }
    ProgressEnds(base, mimics, result);
    return Expanded(result), rounds;
  }

  lemma ExtensionInValues(base: map<string, real>, mimics: Mimics, full: map<string, real>)
    requires IsExtension(base, mimics, full)
    ensures forall name :: name in base ==> name in full && full[name] == base[name]
    ensures forall name :: name in mimics ==>
      && name in full && mimics[name].parent in full
      && full[name] == full[mimics[name].parent] * mimics[name].scale + mimics[name].offset
  {
  }

  lemma RunBegins(base: map<string, real>, mimics: Mimics)
    ensures Progress(base, mimics, base, mimics) && IsRun(base, mimics, [])
    ensures Played(base, mimics, []) == base && Left(mimics, []) == mimics
  {
    hide Grounded;
  }

  lemma PlayedGrows(base: map<string, real>, mimics: Mimics, rounds: seq<seq<string>>, order: seq<string>)
    ensures Played(base, mimics, rounds + [order]) == Applied(Played(base, mimics, rounds), mimics, order)
    ensures Left(mimics, rounds + [order]) == Left(mimics, rounds) - Members(order)
  {
    hide Applied, Members;
    assert (rounds + [order])[..|rounds|] == rounds;
  }

  /** One more round. */
  lemma RunGrows(base: map<string, real>, mimics: Mimics, rounds: seq<seq<string>>, order: seq<string>)
    requires IsRun(base, mimics, rounds) && order != [] && Unique(order)
    requires Members(order) == Ready(Played(base, mimics, rounds).Keys, Left(mimics, rounds))
    ensures IsRun(base, mimics, rounds + [order])
    ensures Played(base, mimics, rounds + [order]) == Applied(Played(base, mimics, rounds), mimics, order)
    ensures Left(mimics, rounds + [order]) == Left(mimics, rounds) - Members(order)
  {
    hide Applied, Ready, Unique, Played, Left, Members;
    PlayedGrows(base, mimics, rounds, order);
    var more := rounds + [order];
    assert more[..|rounds|] == rounds && more[|rounds|] == order;
    forall k | 0 <= k < |more| ensures IsRound(base, mimics, more, k) {
      if k < |rounds| {
        assert IsRound(base, mimics, rounds, k) && more[..k] == rounds[..k];
      }
    }
  }

  /** One round: every mimic whose source was known at its start. */
  method ResolveReady(
    ghost base: map<string, real>, ghost mimics: Mimics, start: map<string, real>, waiting: Mimics, ready: set<string>)
    returns (ok: bool, result: map<string, real>, pending: Mimics, ghost order: seq<string>)
    requires Progress(base, mimics, start, waiting) && ready == Ready(start.Keys, waiting) && ready != {}
    ensures ok ==> Progress(base, mimics, result, pending) && pending == waiting - ready
    ensures ok ==> result == Applied(start, mimics, order) && Unique(order) && Members(order) == ready && order != []
    ensures !ok ==> exists name :: name in mimics && !mimics[name].finite
  {
    hide Progress, Follow, Applied;
    result, pending, order := start, waiting, [];
    NothingApplied(start, mimics);
    var left := ready;
    while left != {}
      invariant left <= ready && pending == waiting - (ready - left)
      invariant Progress(base, mimics, result, pending) && start.Keys <= result.Keys
      invariant result == Applied(start, mimics, order) && Unique(order) && Members(order) == ready - left
      decreases left
    {
      var name :| name in left;
      var mimic := pending[name];
      PopKeeps(base, mimics, result, pending, name);
      if !mimic.finite { return false, result, pending, order; }
      OneMore(start, mimics, order, name);
      result := result[name := Follow(mimic, result[mimic.parent])];
      order, left := order + [name], left - {name};
      assert pending - {name} == waiting - (ready - left);
      pending := pending - {name};
    }
    assert ready - left == ready;
    return true, result, pending, order;
  }

  lemma NothingApplied(result: map<string, real>, mimics: Mimics)
    ensures Applied(result, mimics, []) == result
  {
  }

  lemma OneMore(start: map<string, real>, mimics: Mimics, order: seq<string>, name: string)
    ensures Applied(start, mimics, order + [name]) == Resolve(Applied(start, mimics, order), mimics, name)
    ensures Unique(order) && name !in order ==> Unique(order + [name])
    ensures Members(order + [name]) == Members(order) + {name}
  {
    assert (order + [name])[..|order|] == order;
  }

  /** Everything popped so far is grounded and satisfies its equation; what is pending is untouched. */
  ghost predicate Progress(base: map<string, real>, mimics: Mimics, result: map<string, real>, pending: Mimics) {
    && pending.Keys <= mimics.Keys && (forall name :: name in pending ==> pending[name] == mimics[name])
    && result.Keys == base.Keys + (mimics.Keys - pending.Keys)
    && (forall name :: name in mimics && name !in pending ==> mimics[name].finite && Grounded(base.Keys, mimics, name))
    && (base.Keys !! mimics.Keys ==> Solved(base, mimics, result, pending))
  }

  ghost predicate Solved(base: map<string, real>, mimics: Mimics, result: map<string, real>, pending: Mimics)
    requires result.Keys == base.Keys + (mimics.Keys - pending.Keys)
  {
    && (forall name :: name in base ==> result[name] == base[name])
    && (forall name :: name in mimics && name !in pending ==>
          mimics[name].parent in result && result[name] == Follow(mimics[name], result[mimics[name].parent]))
  }

  lemma PopSolves(base: map<string, real>, mimics: Mimics, result: map<string, real>, pending: Mimics, name: string)
    requires result.Keys == base.Keys + (mimics.Keys - pending.Keys) && base.Keys !! mimics.Keys
    requires pending.Keys <= mimics.Keys
    requires Solved(base, mimics, result, pending) && name in pending && mimics[name].parent in result
    ensures var next, rest := result[name := Follow(mimics[name], result[mimics[name].parent])], pending - {name};
            next.Keys == base.Keys + (mimics.Keys - rest.Keys) && Solved(base, mimics, next, rest)
  {
    hide Follow;
    var next, rest := result[name := Follow(mimics[name], result[mimics[name].parent])], pending - {name};
    assert next.Keys == base.Keys + (mimics.Keys - rest.Keys);
    assert name !in result.Keys;
    forall m | m in mimics && m !in rest
      ensures mimics[m].parent in next && next[m] == Follow(mimics[m], next[mimics[m].parent])
    {
      if m != name {
        assert m !in pending;
        assert mimics[m].parent in result && mimics[m].parent != name;
      }
    }
  }

  lemma ProgressEnds(base: map<string, real>, mimics: Mimics, result: map<string, real>)
    requires Progress(base, mimics, result, map[])
    ensures AllGrounded(base.Keys, mimics) && forall name :: name in mimics ==> mimics[name].finite
    ensures base.Keys !! mimics.Keys ==> IsExtension(base, mimics, result)
  {
    hide Follow, Grounded, Resolvable;
    var none: Mimics := map[];
    assert none.Keys == {} && mimics.Keys - none.Keys == mimics.Keys;
    assert forall name :: name in mimics ==> name !in none;
  }

  lemma PopKeeps(base: map<string, real>, mimics: Mimics, result: map<string, real>, pending: Mimics, name: string)
    requires Progress(base, mimics, result, pending) && name in pending && pending[name].parent in result
    ensures name in mimics && pending[name] == mimics[name]
    ensures mimics[name].finite ==>
      Progress(base, mimics, result[name := Follow(mimics[name], result[mimics[name].parent])], pending - {name})
    ensures result.Keys <= result[name := Follow(mimics[name], result[mimics[name].parent])].Keys
  {
    hide Follow, Grounded, Solved;
    GroundedParent(base.Keys, mimics, name);
    if base.Keys !! mimics.Keys { PopSolves(base, mimics, result, pending, name); }
    var next := result[name := Follow(mimics[name], result[mimics[name].parent])];
    assert next.Keys == base.Keys + (mimics.Keys - (pending - {name}).Keys);
  }

  /** What is pending, and that everything else is known. */
  ghost predicate IsPending(base: map<string, real>, mimics: Mimics, result: map<string, real>, pending: Mimics) {
    && pending.Keys <= mimics.Keys && (forall name :: name in pending ==> pending[name] == mimics[name])
    && result.Keys == base.Keys + (mimics.Keys - pending.Keys)
  }

  lemma PendingShown(base: map<string, real>, mimics: Mimics, result: map<string, real>, pending: Mimics)
    requires Progress(base, mimics, result, pending)
    ensures IsPending(base, mimics, result, pending)
  {
    hide Grounded;
  }

  /** Mimics that wait for each other, or for unknown names, are never resolved. */
  lemma StuckFails(base: map<string, real>, mimics: Mimics, result: map<string, real>, pending: Mimics)
    requires IsPending(base, mimics, result, pending) && pending != map[]
    requires Ready(result.Keys, pending) == {}
    ensures !AllGrounded(base.Keys, mimics)
  {
    var name :| name in pending;
    assert forall m :: m in pending && pending[m].parent in result ==> m in Ready(result.Keys, pending);
    forall n: nat ensures !Resolvable(base.Keys, mimics, name, n) {
      StuckNeverGrounded(base.Keys, mimics, pending.Keys, name, n);
    }
  }

  lemma Fewer(before: Mimics, after: Mimics, gone: set<string>)
    requires gone != {} && gone <= before.Keys && after == before - gone
    ensures |after| < |before|
  {
    assert after.Keys == before.Keys - gone;
    assert |before.Keys| == |before.Keys - gone| + |gone| by {
      assert before.Keys == (before.Keys - gone) + gone;
    }
  }

  // ---- Uniqueness ----

  lemma {:induction false} ExtensionsAgree(
    base: map<string, real>, mimics: Mimics, one: map<string, real>, two: map<string, real>, name: string, n: nat)
    requires IsExtension(base, mimics, one) && IsExtension(base, mimics, two) && Resolvable(base.Keys, mimics, name, n)
    ensures one[name] == two[name]
    decreases n
  {
    hide Follow;
    if mimics[name].parent !in base {
      ExtensionsAgree(base, mimics, one, two, mimics[name].parent, n - 1);
    }
  }

  /** When every chain is grounded there is one extension, so no order of resolution can give another. */
  lemma ExtensionIsUnique(base: map<string, real>, mimics: Mimics, one: map<string, real>, two: map<string, real>)
    requires IsExtension(base, mimics, one) && IsExtension(base, mimics, two) && AllGrounded(base.Keys, mimics)
    ensures one == two
  {
    forall name | name in one ensures one[name] == two[name] {
      if name in mimics {
        assert Grounded(base.Keys, mimics, name);
        var n: nat :| Resolvable(base.Keys, mimics, name, n);
        ExtensionsAgree(base, mimics, one, two, name, n);
      }
    }
  }

  // ---- Mimics that are base positions too ----

  /** A mimic of a mimic, both known from the start, that would see another source once its own was resolved. */
  ghost predicate Conflict(base: map<string, real>, mimics: Mimics, first: string, second: string) {
    && first in mimics && second in mimics && first != second && mimics[first].parent == second
    && second in base && mimics[second].parent in base
    && mimics[first].scale != 0.0 && base[second] != Follow(mimics[second], base[mimics[second].parent])
  }

  /** Every name follows its source as it was at the round's start. */
  ghost function AllAtOnce(result: map<string, real>, mimics: Mimics, names: set<string>): map<string, real>
    requires forall name :: name in names ==> name in mimics && mimics[name].parent in result
  {
    result + map name | name in names :: Follow(mimics[name], result[mimics[name].parent])
  }

  /** What a name sees of its source does not depend on whether the source was resolved before it. */
  ghost predicate SeesTheSame(result: map<string, real>, mimics: Mimics, names: set<string>)
    requires forall name :: name in names ==> name in mimics && mimics[name].parent in result
  {
    forall x, y :: x in names && y in names && x != y && mimics[x].parent == y ==>
      mimics[x].scale == 0.0 || result[y] == Follow(mimics[y], result[mimics[y].parent])
  }

  lemma {:induction false} RoundIsAllAtOnce(result: map<string, real>, mimics: Mimics, order: seq<string>)
    requires Unique(order) && forall name :: name in order ==> name in mimics && mimics[name].parent in result
    requires SeesTheSame(result, mimics, Members(order))
    ensures Applied(result, mimics, order) == AllAtOnce(result, mimics, Members(order))
    decreases |order|
  {
    hide Follow, AllAtOnce, SeesTheSame;
    if order == [] {
      NobodyMoves(result, mimics);
    } else {
      var n := |order| - 1;
      var front, last := order[..n], order[n];
      assert order == front + [last] && last !in front;
      FewerSeeTheSame(result, mimics, front, last);
      RoundIsAllAtOnce(result, mimics, front);
      LastSeesTheSame(result, mimics, front, last);
      OneMoreAtOnce(result, mimics, front, last);
    }
  }

  lemma NobodyMoves(result: map<string, real>, mimics: Mimics)
    ensures AllAtOnce(result, mimics, Members([])) == result
  {
  }

  lemma FewerSeeTheSame(result: map<string, real>, mimics: Mimics, front: seq<string>, last: string)
    requires forall name :: name in front + [last] ==> name in mimics && mimics[name].parent in result
    requires SeesTheSame(result, mimics, Members(front + [last]))
    ensures SeesTheSame(result, mimics, Members(front))
  {
    hide Follow;
  }

  lemma OneMoreAtOnce(result: map<string, real>, mimics: Mimics, front: seq<string>, last: string)
    requires forall name :: name in front + [last] ==> name in mimics && mimics[name].parent in result
    ensures AllAtOnce(result, mimics, Members(front + [last])) ==
            AllAtOnce(result, mimics, Members(front))[last := Follow(mimics[last], result[mimics[last].parent])]
  {
    hide Follow;
    assert Members(front + [last]) == Members(front) + {last};
  }

  lemma LastSeesTheSame(result: map<string, real>, mimics: Mimics, front: seq<string>, last: string)
    requires forall name :: name in front + [last] ==> name in mimics && mimics[name].parent in result
    requires last !in front && SeesTheSame(result, mimics, Members(front + [last]))
    ensures var before := AllAtOnce(result, mimics, Members(front));
            mimics[last].parent in before &&
            Follow(mimics[last], before[mimics[last].parent]) == Follow(mimics[last], result[mimics[last].parent])
  {
    var source := mimics[last].parent;
    if source in front {
      hide Follow;
      assert mimics[last].scale == 0.0 || result[source] == Follow(mimics[source], result[mimics[source].parent]);
      IgnoredSource(mimics[last], AllAtOnce(result, mimics, Members(front))[source], result[source]);
    }
  }

  lemma IgnoredSource(mimic: Mimic, a: real, b: real)
    ensures mimic.scale == 0.0 ==> Follow(mimic, a) == Follow(mimic, b)
    ensures mimic.scale != 0.0 && a != b ==> Follow(mimic, a) != Follow(mimic, b)
  {
    if mimic.scale != 0.0 && Follow(mimic, a) == Follow(mimic, b) {
      assert (a - b) * mimic.scale == 0.0;
    }
  }

  /** What is known after some rounds; once a round was played, only mimics of unknown sources are left. */
  lemma {:induction false} RunShape(base: map<string, real>, mimics: Mimics, rounds: seq<seq<string>>)
    requires IsRun(base, mimics, rounds)
    ensures var left := Left(mimics, rounds);
            && IsPending(base, mimics, Played(base, mimics, rounds), left)
            && (rounds != [] ==> forall name :: name in left ==> mimics[name].parent !in base)
    decreases |rounds|
  {
    hide Applied, Follow;
    if rounds != [] {
      var n := |rounds| - 1;
      var front := rounds[..n];
      FrontIsRun(base, mimics, rounds);
      RunShape(base, mimics, front);
      assert IsRound(base, mimics, rounds, n);
      AppliedKeys(Played(base, mimics, front), mimics, rounds[n]);
    }
  }

  lemma FrontIsRun(base: map<string, real>, mimics: Mimics, rounds: seq<seq<string>>)
    requires IsRun(base, mimics, rounds) && rounds != []
    ensures IsRun(base, mimics, rounds[..|rounds| - 1])
  {
    hide Played, Left, Ready, Unique;
    var front := rounds[..|rounds| - 1];
    forall k | 0 <= k < |front| ensures IsRound(base, mimics, front, k) {
      assert IsRound(base, mimics, rounds, k) && front[..k] == rounds[..k];
    }
  }

  lemma {:induction false} AppliedKeys(result: map<string, real>, mimics: Mimics, order: seq<string>)
    requires forall name :: name in order ==> name in mimics && mimics[name].parent in result
    ensures Applied(result, mimics, order).Keys == result.Keys + Members(order)
    decreases |order|
  {
    hide Follow;
    if order != [] {
      AppliedKeys(result, mimics, order[..|order| - 1]);
      assert order == order[..|order| - 1] + [order[|order| - 1]];
    }
  }

  /** In any round of a run without conflicts a name sees the same source whenever its turn comes. */
  lemma RoundSeesTheSame(base: map<string, real>, mimics: Mimics, rounds: seq<seq<string>>, k: nat)
    requires IsRun(base, mimics, rounds) && k < |rounds|
    requires forall first, second :: !Conflict(base, mimics, first, second)
    ensures var before := Played(base, mimics, rounds[..k]);
            && (forall name :: name in rounds[k] ==> name in mimics && mimics[name].parent in before)
            && Played(base, mimics, rounds[..k + 1]) == AllAtOnce(before, mimics, Members(rounds[k]))
  {
    hide Follow, Played, Left, Applied;
    assert IsRound(base, mimics, rounds, k);
    var front := rounds[..k];
    PrefixIsRun(base, mimics, rounds, k);
    RunShape(base, mimics, front);
    RunBegins(base, mimics);
    var before := Played(base, mimics, front);
    forall x, y | x in rounds[k] && y in rounds[k] && x != y && mimics[x].parent == y
      ensures mimics[x].scale == 0.0 || before[y] == Follow(mimics[y], before[mimics[y].parent])
    {
      assert y in base;
      assert k == 0 && front == [];
      assert !Conflict(base, mimics, x, y);
    }
    RoundIsAllAtOnce(before, mimics, rounds[k]);
    assert rounds[..k + 1][..k] == front && rounds[..k + 1][k] == rounds[k];
    PlayedLast(base, mimics, rounds[..k + 1]);
  }

  lemma PlayedLast(base: map<string, real>, mimics: Mimics, rounds: seq<seq<string>>)
    requires rounds != []
    ensures var n := |rounds| - 1;
            && Played(base, mimics, rounds) == Applied(Played(base, mimics, rounds[..n]), mimics, rounds[n])
            && Left(mimics, rounds) == Left(mimics, rounds[..n]) - Members(rounds[n])
  {
  }

  lemma {:induction false} PrefixIsRun(base: map<string, real>, mimics: Mimics, rounds: seq<seq<string>>, k: nat)
    requires IsRun(base, mimics, rounds) && k <= |rounds|
    ensures IsRun(base, mimics, rounds[..k])
    decreases |rounds|
  {
    hide Played, Left, Ready, Unique;
    if k < |rounds| {
      FrontIsRun(base, mimics, rounds);
      PrefixIsRun(base, mimics, rounds[..|rounds| - 1], k);
      assert rounds[..|rounds| - 1][..k] == rounds[..k];
    } else {
      assert rounds[..k] == rounds;
    }
  }

  /** Without conflicts two runs agree round by round. */
  lemma {:induction false} RunsAgree(
    base: map<string, real>, mimics: Mimics, one: seq<seq<string>>, two: seq<seq<string>>, n: nat)
    requires IsRun(base, mimics, one) && IsRun(base, mimics, two) && n <= |one| && n <= |two|
    requires forall first, second :: !Conflict(base, mimics, first, second)
    ensures Played(base, mimics, one[..n]) == Played(base, mimics, two[..n])
    ensures Left(mimics, one[..n]) == Left(mimics, two[..n])
    decreases n
  {
    hide Played, Left, Applied, Follow, Conflict, AllAtOnce;
    if n > 0 {
      RunsAgree(base, mimics, one, two, n - 1);
      assert IsRound(base, mimics, one, n - 1) && IsRound(base, mimics, two, n - 1);
      RoundSeesTheSame(base, mimics, one, n - 1);
      RoundSeesTheSame(base, mimics, two, n - 1);
      PlayedLast(base, mimics, one[..n]);
      PlayedLast(base, mimics, two[..n]);
      assert one[..n][..n - 1] == one[..n - 1] && two[..n][..n - 1] == two[..n - 1];
    } else {
      assert one[..0] == [] && two[..0] == [];
    }
  }

  lemma WholeRunsAgree(base: map<string, real>, mimics: Mimics, one: seq<seq<string>>, two: seq<seq<string>>)
    requires IsWholeRun(base, mimics, one) && IsWholeRun(base, mimics, two) && |one| <= |two|
    requires forall first, second :: !Conflict(base, mimics, first, second)
    ensures Played(base, mimics, one) == Played(base, mimics, two)
  {
    hide Played, Left, Applied, Follow, Conflict, Ready;
    var n := |one|;
    RunsAgree(base, mimics, one, two, n);
    assert one[..n] == one;
    if n < |two| {
      RoundTakesSome(base, mimics, two, n);
      assert false;
    }
    assert two[..n] == two;
  }

  lemma RoundTakesSome(base: map<string, real>, mimics: Mimics, rounds: seq<seq<string>>, k: nat)
    requires IsRun(base, mimics, rounds) && k < |rounds|
    ensures Left(mimics, rounds[..k]) != map[]
  {
    hide Played, Left;
    assert IsRound(base, mimics, rounds, k);
    assert rounds[k][0] in Members(rounds[k]);
  }

  // ---- Finishing a run ----

  lemma {:induction false} Listed(names: set<string>) returns (order: seq<string>)
    ensures Unique(order) && Members(order) == names
    decreases names
  {
    order := [];
    if names != {} {
      var name :| name in names;
      var rest := Listed(names - {name});
      order := rest + [name];
      assert Members(order) == Members(rest) + {name};
    }
  }

  /** When every chain is grounded any run can be carried on to the end. */
  lemma {:induction false} RunFinishes(base: map<string, real>, mimics: Mimics, rounds: seq<seq<string>>)
    returns (whole: seq<seq<string>>)
    requires IsRun(base, mimics, rounds) && AllGrounded(base.Keys, mimics)
    ensures IsWholeRun(base, mimics, whole) && rounds <= whole
    decreases |Left(mimics, rounds)|
  {
    hide Played, Applied, Follow, Grounded, IsRun, Unique;
    var left := Left(mimics, rounds);
    if left == map[] { return rounds; }
    var ready := Ready(Played(base, mimics, rounds).Keys, left);
    if ready == {} {
      RunShape(base, mimics, rounds);
      StuckFails(base, mimics, Played(base, mimics, rounds), left);
      assert false;
    }
    var order := Listed(ready);
    assert order != [];
    RunGrows(base, mimics, rounds, order);
    assert left - Members(order) == left - ready;
    Fewer(left, left - ready, ready);
    whole := RunFinishes(base, mimics, rounds + [order]);
  }

  /** Once resolved, a name is not touched again. */
  lemma {:induction false} ResolvedStays(
    base: map<string, real>, mimics: Mimics, rounds: seq<seq<string>>, k: nat, name: string)
    requires IsRun(base, mimics, rounds) && k <= |rounds| && name in mimics && name !in Left(mimics, rounds[..k])
    requires name in Played(base, mimics, rounds[..k])
    ensures name !in Left(mimics, rounds) && name in Played(base, mimics, rounds)
    ensures Played(base, mimics, rounds)[name] == Played(base, mimics, rounds[..k])[name]
    decreases |rounds|
  {
    hide Applied, Follow, Played, Left, IsRun;
    if k < |rounds| {
      var n := |rounds| - 1;
      FrontIsRun(base, mimics, rounds);
      assert rounds[..n][..k] == rounds[..k];
      ResolvedStays(base, mimics, rounds[..n], k, name);
      NotInRound(base, mimics, rounds, n, name);
      PlayedLast(base, mimics, rounds);
      AppliedElsewhere(Played(base, mimics, rounds[..n]), mimics, rounds[n], name);
    } else {
      assert rounds[..k] == rounds;
    }
  }

  lemma NotInRound(base: map<string, real>, mimics: Mimics, rounds: seq<seq<string>>, k: nat, name: string)
    requires IsRun(base, mimics, rounds) && k < |rounds| && name !in Left(mimics, rounds[..k])
    ensures name !in rounds[k]
  {
    hide Played, Left;
    assert IsRound(base, mimics, rounds, k);
  }

  lemma {:induction false} AppliedElsewhere(result: map<string, real>, mimics: Mimics, order: seq<string>, name: string)
    requires name !in order && name in result
    ensures name in Applied(result, mimics, order) && Applied(result, mimics, order)[name] == result[name]
    decreases |order|
  {
    hide Follow;
    if order != [] {
      AppliedElsewhere(result, mimics, order[..|order| - 1], name);
    }
  }

  /** A run that begins with two names in this order. */
  lemma RunStarting(base: map<string, real>, mimics: Mimics, x: string, y: string) returns (whole: seq<seq<string>>)
    requires AllGrounded(base.Keys, mimics) && x != y && x in mimics && y in mimics
    requires mimics[x].parent in base && mimics[y].parent in base
    ensures IsWholeRun(base, mimics, whole)
    ensures var pair := Applied(base, mimics, [x, y]);
            forall name :: (name == x || name == y) ==>
              name in pair && name in Played(base, mimics, whole) && Played(base, mimics, whole)[name] == pair[name]
  {
    hide Follow, Grounded, IsRun, Played, Left, Applied;
    RunBegins(base, mimics);
    var ready := Ready(base.Keys, mimics);
    var rest := Listed(ready - {x, y});
    var order := [x, y] + rest;
    assert Members(order) == {x, y} + Members(rest) == ready;
    assert Unique(order);
    RunGrows(base, mimics, [], order);
    assert [] + [order] == [order];
    whole := RunFinishes(base, mimics, [order]);
    assert whole[..1] == [order];
    PairFirst(base, mimics, x, y, rest);
    ResolvedStays(base, mimics, whole, 1, x);
    ResolvedStays(base, mimics, whole, 1, y);
  }

  lemma {:induction false} PairFirst(base: map<string, real>, mimics: Mimics, x: string, y: string, rest: seq<string>)
    requires x != y && x in mimics && y in mimics && mimics[x].parent in base && mimics[y].parent in base
    requires x !in rest && y !in rest
    ensures var pair := Applied(base, mimics, [x, y]);
            var more := Applied(base, mimics, [x, y] + rest);
            x in pair && y in pair && x in more && y in more && more[x] == pair[x] && more[y] == pair[y]
    decreases |rest|
  {
    hide Follow;
    var order := [x, y] + rest;
    if rest == [] {
      assert order == [x, y];
      AppliedTwo(base, mimics, x, y);
    } else {
      assert order[..|order| - 1] == [x, y] + rest[..|rest| - 1];
      PairFirst(base, mimics, x, y, rest[..|rest| - 1]);
    }
  }

  lemma AppliedTwo(result: map<string, real>, mimics: Mimics, x: string, y: string)
    requires x in mimics && y in mimics && mimics[x].parent in result && mimics[y].parent in result
    ensures var first := result[x := Follow(mimics[x], result[mimics[x].parent])];
            Applied(result, mimics, [x, y]) == first[y := Follow(mimics[y], first[mimics[y].parent])]
  {
    hide Follow;
    assert [x, y][..1] == [x] && [x][..0] == [];
    assert Applied(result, mimics, [x]) == result[x := Follow(mimics[x], result[mimics[x].parent])];
  }

  lemma ConflictMatters(base: map<string, real>, mimics: Mimics, first: string, second: string)
    returns (one: seq<seq<string>>, two: seq<seq<string>>)
    requires AllGrounded(base.Keys, mimics) && Conflict(base, mimics, first, second)
    ensures IsWholeRun(base, mimics, one) && IsWholeRun(base, mimics, two)
    ensures Played(base, mimics, one) != Played(base, mimics, two)
  {
    hide Follow, Grounded, IsWholeRun, Played, Applied;
    one := RunStarting(base, mimics, first, second);
    two := RunStarting(base, mimics, second, first);
    AppliedTwo(base, mimics, first, second);
    AppliedTwo(base, mimics, second, first);
    IgnoredSource(mimics[first], base[second], Follow(mimics[second], base[mimics[second].parent]));
    assert Applied(base, mimics, [first, second])[first] == Follow(mimics[first], base[second]);
  }

  /**
    Mimics may be base positions too. All orders in which the rounds can be played agree if and
    only if no mimic of a mimic, both known from the start, would see another source afterwards.
  */
  lemma OrderMattersExactly(base: map<string, real>, mimics: Mimics)
    requires AllGrounded(base.Keys, mimics)
    ensures (forall one, two :: IsWholeRun(base, mimics, one) && IsWholeRun(base, mimics, two) ==>
               Played(base, mimics, one) == Played(base, mimics, two))
            <==> forall first, second :: !Conflict(base, mimics, first, second)
  {
    hide AllGrounded, IsWholeRun, Played, Conflict;
    if exists first, second :: Conflict(base, mimics, first, second) {
      var first, second :| Conflict(base, mimics, first, second);
      var one, two := ConflictMatters(base, mimics, first, second);
    } else {
      forall one, two | IsWholeRun(base, mimics, one) && IsWholeRun(base, mimics, two)
        ensures Played(base, mimics, one) == Played(base, mimics, two)
      {
        if |one| <= |two| { WholeRunsAgree(base, mimics, one, two); } else { WholeRunsAgree(base, mimics, two, one); }
      }
    }
  }

  /** Two arm joints, each a mimic and a base position: what the first becomes depends on who comes first. */
  lemma OverlapDependsOnOrder(drive: string, link: string, tip: string)
    returns (base: map<string, real>, mimics: Mimics, one: seq<seq<string>>, two: seq<seq<string>>)
    requires drive != link && link != tip && tip != drive
    ensures AllGrounded(base.Keys, mimics) && mimics.Keys <= base.Keys
    ensures IsWholeRun(base, mimics, one) && IsWholeRun(base, mimics, two)
    ensures Played(base, mimics, one) != Played(base, mimics, two)
  {
    hide IsWholeRun, Played, Grounded;
    base := map[drive := 1.0, link := 2.0, tip := 3.0];
    mimics := map[link := Mimic(drive, 1.0, 0.0, true), tip := Mimic(link, 1.0, 0.0, true)];
    GroundedParent(base.Keys, mimics, link);
    GroundedParent(base.Keys, mimics, tip);
    assert Conflict(base, mimics, tip, link);
    one, two := ConflictMatters(base, mimics, tip, link);
  }

  // ---- Why an expansion fails ----

  /** The name reached by following `k` sources; a name that is no mimic has none. */
  function Walk(mimics: Mimics, name: string, k: nat): Option<string>
    decreases k
  {
    if k == 0 then Some(name)
    else if name in mimics then Walk(mimics, mimics[name].parent, k - 1)
    else None
  }

  ghost predicate Cyclic(mimics: Mimics, name: string) {
    exists i, j :: RepeatsAt(mimics, name, i, j)
  }

  ghost predicate RepeatsAt(mimics: Mimics, name: string, i: nat, j: nat) {
    i < j && Walk(mimics, name, i).Some? && Walk(mimics, name, i) == Walk(mimics, name, j)
  }

  ghost predicate UnknownSource(base: set<string>, mimics: Mimics, name: string) {
    exists k :: EndsUnknown(base, mimics, name, k)
  }

  ghost predicate EndsUnknown(base: set<string>, mimics: Mimics, name: string, k: nat) {
    var at := Walk(mimics, name, k);
    at.Some? && at.value !in base && at.value !in mimics
  }

  lemma {:induction false} WalkNext(mimics: Mimics, name: string, k: nat)
    ensures Walk(mimics, name, k + 1) ==
      (var at := Walk(mimics, name, k); if at.Some? && at.value in mimics then Some(mimics[at.value].parent) else None)
    decreases k
  {
    if k > 0 && name in mimics {
      WalkNext(mimics, mimics[name].parent, k - 1);
    }
  }

  /** A resolved chain walks through mimics straight into a base position. */
  lemma {:induction false} ResolvedWalk(base: set<string>, mimics: Mimics, name: string, n: nat) returns (r: nat)
    requires Resolvable(base, mimics, name, n) && base !! mimics.Keys
    ensures r > 0 && Walk(mimics, name, r).Some? && Walk(mimics, name, r).value in base
    ensures forall k: nat :: k < r ==> Walk(mimics, name, k).Some? && Walk(mimics, name, k).value in mimics
    ensures forall k: nat :: k > r ==> Walk(mimics, name, k).None?
    decreases n
  {
    if mimics[name].parent in base {
      r := 1;
      assert Walk(mimics, name, 1) == Walk(mimics, mimics[name].parent, 0);
    } else {
      var rest := ResolvedWalk(base, mimics, mimics[name].parent, n - 1);
      r := rest + 1;
    }
    forall k: nat | k < r ensures Walk(mimics, name, k).Some? && Walk(mimics, name, k).value in mimics {
      if k > 0 { assert Walk(mimics, name, k) == Walk(mimics, mimics[name].parent, k - 1); }
    }
  }

  lemma {:induction false} RepeatsOn(mimics: Mimics, name: string, i: nat, j: nat, t: nat)
    requires Walk(mimics, name, i) == Walk(mimics, name, j)
    ensures Walk(mimics, name, i + t) == Walk(mimics, name, j + t)
    decreases t
  {
    if t > 0 {
      RepeatsOn(mimics, name, i, j, t - 1);
      WalkNext(mimics, name, i + t - 1);
      WalkNext(mimics, name, j + t - 1);
    }
  }

  lemma GroundedIsSound(base: set<string>, mimics: Mimics, name: string)
    requires Grounded(base, mimics, name) && base !! mimics.Keys
    ensures !Cyclic(mimics, name) && !UnknownSource(base, mimics, name)
  {
    var n: nat :| Resolvable(base, mimics, name, n);
    var r := ResolvedWalk(base, mimics, name, n);
    forall i: nat, j: nat | i < j && Walk(mimics, name, i).Some?
      ensures Walk(mimics, name, i) != Walk(mimics, name, j)
    {
      if j <= r { RepeatsNever(mimics, name, i, j, r); }
    }
  }

  /** If two places before the end agreed, so would the end and a place before it. */
  lemma RepeatsNever(mimics: Mimics, name: string, i: nat, j: nat, r: nat)
    requires i < j <= r && Walk(mimics, name, r).Some? && Walk(mimics, name, r).value !in mimics
    requires forall k: nat :: k < r ==> Walk(mimics, name, k).Some? && Walk(mimics, name, k).value in mimics
    ensures Walk(mimics, name, i) != Walk(mimics, name, j)
  {
    if Walk(mimics, name, i) == Walk(mimics, name, j) {
      RepeatsOn(mimics, name, i, j, r - j);
      assert false;
    }
  }

  function WalkSeq(mimics: Mimics, name: string, n: nat): (s: seq<string>)
    requires forall k: nat :: k < n ==> Walk(mimics, name, k).Some?
    ensures |s| == n && forall k :: 0 <= k < n ==> s[k] == Walk(mimics, name, k).value
  {
    seq(n, k requires 0 <= k < n => Walk(mimics, name, k).value)
  }

  lemma {:induction false} UniqueCounted(s: seq<string>)
    requires Unique(s)
    ensures |Members(s)| == |s|
    decreases |s|
  {
    if s != [] {
      var last := |s| - 1;
      UniqueCounted(s[..last]);
      assert s == s[..last] + [s[last]];
      assert s[last] !in Members(s[..last]);
      assert Members(s) == Members(s[..last]) + {s[last]};
    }
  }

  lemma SubsetSmaller(small: set<string>, big: set<string>)
    requires small <= big
    ensures |small| <= |big|
  {
    assert big == small + (big - small);
  }

  lemma Pigeonhole(s: seq<string>, holes: set<string>)
    requires |s| > |holes| && forall x :: x in s ==> x in holes
    ensures exists i, j :: 0 <= i < j < |s| && s[i] == s[j]
  {
    if Unique(s) {
      UniqueCounted(s);
      SubsetSmaller(Members(s), holes);
    }
  }

  /** A chain that never resolves either leaves for an unknown name or stays among the mimics. */
  lemma {:induction false} UngroundedWalk(base: set<string>, mimics: Mimics, name: string, k: nat)
    requires name in mimics && !Grounded(base, mimics, name) && !UnknownSource(base, mimics, name)
    ensures Walk(mimics, name, k).Some? && Walk(mimics, name, k).value in mimics
    ensures !Grounded(base, mimics, Walk(mimics, name, k).value)
    decreases k
  {
    if k > 0 {
      UngroundedWalk(base, mimics, name, k - 1);
      WalkNext(mimics, name, k - 1);
      var at := Walk(mimics, name, k - 1).value;
      GroundedParent(base, mimics, at);
      assert !EndsUnknown(base, mimics, name, k);
    }
  }

  lemma UngroundedIsBroken(base: set<string>, mimics: Mimics, name: string)
    requires name in mimics && !Grounded(base, mimics, name)
    ensures Cyclic(mimics, name) || UnknownSource(base, mimics, name)
  {
    if !UnknownSource(base, mimics, name) {
      forall k: nat ensures Walk(mimics, name, k).Some? && Walk(mimics, name, k).value in mimics {
        UngroundedWalk(base, mimics, name, k);
      }
      var walk := WalkSeq(mimics, name, |mimics.Keys| + 1);
      Pigeonhole(walk, mimics.Keys);
      var i, j :| 0 <= i < j < |walk| && walk[i] == walk[j];
      assert RepeatsAt(mimics, name, i, j);
    }
  }

  /**
    For base positions apart from the mimics, some chain cannot be resolved exactly when one
    is cyclic or ends at an unknown name.
  */
  lemma FailsExactlyWhenBroken(base: set<string>, mimics: Mimics)
    requires base !! mimics.Keys
    ensures !AllGrounded(base, mimics) <==>
            exists name :: name in mimics && (Cyclic(mimics, name) || UnknownSource(base, mimics, name))
  {
    forall name | name in mimics
      ensures Grounded(base, mimics, name) <==> !Cyclic(mimics, name) && !UnknownSource(base, mimics, name)
    {
      if Grounded(base, mimics, name) { GroundedIsSound(base, mimics, name); }
      else { UngroundedIsBroken(base, mimics, name); }
    }
  }
}
