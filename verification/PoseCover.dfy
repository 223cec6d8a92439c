/**
  Representing a joint snapshot as a named pose: an exact cover of the requested joints
  by MoveJ groups, and what resolving the pose by channel name gives back.
*/
module PoseCover {
  import opened MotionTypes

  datatype Channel = Channel(name: string, moveJ: bool, group: string, endpoint: string)

  datatype Resources = Resources(
    channels: seq<Channel>, groups: map<string, seq<Joint>>, lower: map<string, seq<real>>,
    upper: map<string, seq<real>>)

  /** A MoveJ channel's group: its joints as a set, and in the order of the group. */
  datatype Candidate = Candidate(names: set<Joint>, channel: string, joints: seq<Joint>)

  // ---- The smallest joint ----

  predicate Less(a: string, b: string) {
    if b == "" then false
    else if a == "" then true
    else a[0] < b[0] || (a[0] == b[0] && Less(a[1..], b[1..]))
  }

  lemma {:induction false} LessTotal(a: string, b: string)
    ensures a != b ==> Less(a, b) || Less(b, a)
    ensures !(Less(a, b) && Less(b, a))
  {
    if a != "" && b != "" {
      LessTotal(a[1..], b[1..]);
      assert a == [a[0]] + a[1..] && b == [b[0]] + b[1..];
    }
  }

  lemma {:induction false} LessTransitive(a: string, b: string, c: string)
    requires Less(a, b) && Less(b, c)
    ensures Less(a, c)
  {
    if a != "" && a[0] == b[0] && b[0] == c[0] {
      LessTransitive(a[1..], b[1..], c[1..]);
    }
  }

  predicate IsSmallest(joint: Joint, joints: set<Joint>) {
    joint in joints && forall other :: other in joints ==> !Less(other, joint)
  }

  lemma {:induction false} SmallestExists(joints: set<Joint>)
    requires joints != {}
    ensures exists least :: IsSmallest(least, joints)
    decreases |joints|
  {
    var one :| one in joints;
    var others := joints - {one};
    LessTotal(one, one);
    if others == {} {
      forall other | other in joints ensures other == one { assert other !in others; }
      assert IsSmallest(one, joints);
    } else {
      SmallestExists(others);
      var rest :| IsSmallest(rest, others);
      LessTotal(one, rest);
      assert forall other :: other in joints ==> other == one || other in others;
      var least := if Less(one, rest) then one else rest;
      forall other | other in joints ensures !Less(other, least) {
        if least == one && other != one && Less(other, one) {
          LessTransitive(other, one, rest);
        }
      }
      assert IsSmallest(least, joints);
    }
  }

  lemma SmallestIsOnly(joints: set<Joint>)
    ensures forall a, b :: IsSmallest(a, joints) && IsSmallest(b, joints) ==> a == b
  {
    forall a, b | IsSmallest(a, joints) && IsSmallest(b, joints) ensures a == b { LessTotal(a, b); }
  }

  function Smallest(joints: set<Joint>): (joint: Joint)
    requires joints != {}
    ensures joint in joints
  {
    SmallestExists(joints);
    SmallestIsOnly(joints);
    var joint :| IsSmallest(joint, joints);
    joint
  }

  // ---- The search ----

  /** A cover of the remaining joints, the candidates tried in order for the smallest joint. */
  function Cover(remaining: set<Joint>, candidates: seq<Candidate>): Option<seq<Candidate>>
    decreases |remaining|, |candidates| + 1
  {
    if remaining == {} then Some([]) else CoverFrom(remaining, Smallest(remaining), candidates, 0)
  }

  function CoverFrom(remaining: set<Joint>, joint: Joint, candidates: seq<Candidate>, k: nat): Option<seq<Candidate>>
    requires joint in remaining && k <= |candidates|
    decreases |remaining|, |candidates| - k
  {
    if k == |candidates| then None
    else
      var c := candidates[k];
      if joint in c.names && c.names <= remaining then
        FewerRemain(remaining, c.names, joint);
        var rest := Cover(remaining - c.names, candidates);
        if rest.Some? then Some([c] + rest.value) else CoverFrom(remaining, joint, candidates, k + 1)
      else CoverFrom(remaining, joint, candidates, k + 1)
  }

  lemma FewerRemain(remaining: set<Joint>, names: set<Joint>, joint: Joint)
    requires joint in names && names <= remaining
    ensures |remaining - names| < |remaining|
  {
    assert remaining == (remaining - names) + names;
    assert |names| > 0;
  }

  /** The chosen candidates are disjoint and together name exactly these joints. */
  ghost predicate IsExactCover(chosen: seq<Candidate>, candidates: seq<Candidate>, joints: set<Joint>) {
    && (forall i :: 0 <= i < |chosen| ==> chosen[i] in candidates && chosen[i].names <= joints)
    && (forall i, j :: 0 <= i < j < |chosen| ==> chosen[i].names !! chosen[j].names)
    && (forall joint :: joint in joints ==> exists i :: 0 <= i < |chosen| && joint in chosen[i].names)
  }

  lemma {:induction false} CoverIsSound(remaining: set<Joint>, candidates: seq<Candidate>)
    ensures var found := Cover(remaining, candidates); found.Some? ==> IsExactCover(found.value, candidates, remaining)
    decreases |remaining|, |candidates| + 1
  {
    if remaining != {} {
      CoverFromIsSound(remaining, Smallest(remaining), candidates, 0);
    }
  }

  lemma {:induction false} CoverFromIsSound(remaining: set<Joint>, joint: Joint, candidates: seq<Candidate>, k: nat)
    requires joint in remaining && k <= |candidates|
    ensures var found := CoverFrom(remaining, joint, candidates, k);
            found.Some? ==> IsExactCover(found.value, candidates, remaining)
    decreases |remaining|, |candidates| - k
  {
    if k < |candidates| {
      var c := candidates[k];
      CoverFromIsSound(remaining, joint, candidates, k + 1);
      if joint in c.names && c.names <= remaining {
        FewerRemain(remaining, c.names, joint);
        CoverIsSound(remaining - c.names, candidates);
        var rest := Cover(remaining - c.names, candidates);
        if rest.Some? { CoverExtends(rest.value, candidates, remaining, c); }
      }
    }
  }

  lemma CoverExtends(rest: seq<Candidate>, candidates: seq<Candidate>, joints: set<Joint>, c: Candidate)
    requires c in candidates && c.names <= joints && IsExactCover(rest, candidates, joints - c.names)
    ensures IsExactCover([c] + rest, candidates, joints)
  {
    hide IsExactCover;
    var all := [c] + rest;
    forall i | 0 <= i < |all| ensures all[i] in candidates && all[i].names <= joints {
      if i > 0 { ChosenWithin(rest, candidates, joints - c.names, i - 1); }
    }
    forall i, j | 0 <= i < j < |all| ensures all[i].names !! all[j].names {
      ChosenWithin(rest, candidates, joints - c.names, j - 1);
      if i > 0 { ChosenApart(rest, candidates, joints - c.names, i - 1, j - 1); }
    }
    forall joint | joint in joints ensures exists i :: 0 <= i < |all| && joint in all[i].names {
      if joint in c.names {
        assert joint in all[0].names;
      } else {
        var i := CoveredAt(rest, candidates, joints - c.names, joint);
        assert joint in all[i + 1].names;
      }
    }
    MakesExactCover(all, candidates, joints);
  }

  lemma CoveredAt(chosen: seq<Candidate>, candidates: seq<Candidate>, joints: set<Joint>, joint: Joint) returns (i: nat)
    requires IsExactCover(chosen, candidates, joints) && joint in joints
    ensures i < |chosen| && joint in chosen[i].names
  {
    i :| 0 <= i < |chosen| && joint in chosen[i].names;
  }

  lemma CoverShrinks(chosen: seq<Candidate>, candidates: seq<Candidate>, joints: set<Joint>, i: nat)
    requires IsExactCover(chosen, candidates, joints) && i < |chosen|
    ensures IsExactCover(chosen[..i] + chosen[i + 1..], candidates, joints - chosen[i].names)
  {
    hide IsExactCover;
    var rest := chosen[..i] + chosen[i + 1..];
    forall j | 0 <= j < |rest| ensures rest[j] in candidates && rest[j].names <= joints - chosen[i].names {
      var at := if j < i then j else j + 1;
      assert rest[j] == chosen[at];
      ChosenApart(chosen, candidates, joints, at, i);
    }
    forall j, k | 0 <= j < k < |rest| ensures rest[j].names !! rest[k].names {
      ChosenApart(chosen, candidates, joints, if j < i then j else j + 1, if k < i then k else k + 1);
    }
    RestCovers(chosen, candidates, joints, i);
    MakesExactCover(rest, candidates, joints - chosen[i].names);
  }

  lemma MakesExactCover(chosen: seq<Candidate>, candidates: seq<Candidate>, joints: set<Joint>)
    requires forall i :: 0 <= i < |chosen| ==> chosen[i] in candidates && chosen[i].names <= joints
    requires forall i, j :: 0 <= i < j < |chosen| ==> chosen[i].names !! chosen[j].names
    requires forall joint :: joint in joints ==> exists i :: 0 <= i < |chosen| && joint in chosen[i].names
    ensures IsExactCover(chosen, candidates, joints)
  {
  }

  lemma ChosenApart(chosen: seq<Candidate>, candidates: seq<Candidate>, joints: set<Joint>, a: nat, b: nat)
    requires IsExactCover(chosen, candidates, joints) && a < |chosen| && b < |chosen| && a != b
    ensures chosen[a].names !! chosen[b].names && chosen[a] in candidates && chosen[a].names <= joints
  {
  }

  lemma RestCovers(chosen: seq<Candidate>, candidates: seq<Candidate>, joints: set<Joint>, i: nat)
    requires IsExactCover(chosen, candidates, joints) && i < |chosen|
    ensures var rest := chosen[..i] + chosen[i + 1..];
            forall joint :: joint in joints - chosen[i].names ==> exists j :: 0 <= j < |rest| && joint in rest[j].names
  {
    hide IsExactCover;
    var rest := chosen[..i] + chosen[i + 1..];
    forall joint | joint in joints - chosen[i].names ensures exists j :: 0 <= j < |rest| && joint in rest[j].names {
      var j := CoveredAt(chosen, candidates, joints, joint);
      var at := if j < i then j else j - 1;
      assert rest[at] == chosen[j];
    }
  }

  /** Whenever an exact cover exists the search finds one. */
  lemma {:induction false} CoverIsComplete(remaining: set<Joint>, candidates: seq<Candidate>, chosen: seq<Candidate>)
    requires IsExactCover(chosen, candidates, remaining)
    ensures Cover(remaining, candidates).Some?
    decreases |remaining|, |candidates| + 1
  {
    if remaining != {} {
      var joint := Smallest(remaining);
      var i :| 0 <= i < |chosen| && joint in chosen[i].names;
      var k :| 0 <= k < |candidates| && candidates[k] == chosen[i];
      CoverFromIsComplete(remaining, joint, candidates, 0, chosen, i, k);
    }
  }

  lemma ChosenWithin(chosen: seq<Candidate>, candidates: seq<Candidate>, joints: set<Joint>, i: nat)
    requires IsExactCover(chosen, candidates, joints) && i < |chosen|
    ensures chosen[i] in candidates && chosen[i].names <= joints
  {
  }

  lemma {:induction false} CoverFromIsComplete(
    remaining: set<Joint>, joint: Joint, candidates: seq<Candidate>, from: nat, chosen: seq<Candidate>, i: nat, k: nat)
    requires joint in remaining && IsExactCover(chosen, candidates, remaining)
    requires i < |chosen| && joint in chosen[i].names && from <= k < |candidates| && candidates[k] == chosen[i]
    ensures CoverFrom(remaining, joint, candidates, from).Some?
    decreases |remaining|, |candidates| - from
  {
    hide IsExactCover;
    if from < k {
      CoverFromIsComplete(remaining, joint, candidates, from + 1, chosen, i, k);
    } else {
      CoverShrinks(chosen, candidates, remaining, i);
      ChosenWithin(chosen, candidates, remaining, i);
      FewerRemain(remaining, chosen[i].names, joint);
      CoverIsComplete(remaining - chosen[i].names, candidates, chosen[..i] + chosen[i + 1..]);
    }
  }

  // ---- The candidates ----

  /** The names of a MoveJ channel's group, if it may take part in a cover of these joints. */
  predicate Suits(resources: Resources, channel: Channel, joints: set<Joint>) {
    && channel.moveJ && channel.group in resources.groups
    && resources.groups[channel.group] != [] && Members(resources.groups[channel.group]) <= joints
  }

  function CandidateOf(resources: Resources, channel: Channel): Candidate
    requires channel.group in resources.groups
  {
    Candidate(Members(resources.groups[channel.group]), channel.name, resources.groups[channel.group])
  }

  /** Every candidate is a suitable channel's, and every suitable channel's joints are some candidate's. */
  ghost predicate Represents(candidates: seq<Candidate>, resources: Resources, joints: set<Joint>, n: nat)
    requires n <= |resources.channels|
  {
    && (forall i :: 0 <= i < |candidates| ==> FromChannel(candidates[i], resources, joints, n))
    && (forall k :: 0 <= k < n && Suits(resources, resources.channels[k], joints) ==>
          HasNames(candidates, Members(resources.groups[resources.channels[k].group])))
  }

  /** It stands for the first suitable channel with its joints. */
  ghost predicate FromChannel(c: Candidate, resources: Resources, joints: set<Joint>, n: nat)
    requires n <= |resources.channels|
  {
    exists k :: 0 <= k < n && IsFirst(c, resources, joints, k)
  }

  ghost predicate IsFirst(c: Candidate, resources: Resources, joints: set<Joint>, k: nat)
    requires k < |resources.channels|
  {
    && Suits(resources, resources.channels[k], joints) && c == CandidateOf(resources, resources.channels[k])
    && forall j :: 0 <= j < k && Suits(resources, resources.channels[j], joints) ==>
         Members(resources.groups[resources.channels[j].group]) != c.names
  }

  /** No set of joints occurs twice. */
  ghost predicate OneEach(candidates: seq<Candidate>) {
    forall i, j :: 0 <= i < j < |candidates| ==> candidates[i].names != candidates[j].names
  }

  predicate HasNames(candidates: seq<Candidate>, names: set<Joint>) {
    exists i :: 0 <= i < |candidates| && candidates[i].names == names
  }

  /** Stable insertion by decreasing number of joints. */
  function Insert(sorted: seq<Candidate>, c: Candidate): (r: seq<Candidate>)
    ensures forall x :: x in r <==> x == c || x in sorted
  {
    if sorted == [] then [c]
    else if |sorted[|sorted| - 1].names| >= |c.names| then sorted + [c]
    else Insert(sorted[..|sorted| - 1], c) + [sorted[|sorted| - 1]]
  }

  ghost predicate BySize(candidates: seq<Candidate>) {
    forall i, j :: 0 <= i < j < |candidates| ==> |candidates[i].names| >= |candidates[j].names|
  }

  lemma {:induction false} InsertBySize(sorted: seq<Candidate>, c: Candidate)
    requires BySize(sorted)
    ensures BySize(Insert(sorted, c))
    decreases |sorted|
  {
    if sorted != [] && |sorted[|sorted| - 1].names| < |c.names| {
      var front := sorted[..|sorted| - 1];
      InsertBySize(front, c);
      var more := Insert(front, c);
      forall i | 0 <= i < |more| ensures |more[i].names| >= |sorted[|sorted| - 1].names| {
        assert more[i] in more;
      }
    }
  }

  lemma {:induction false} InsertOneEach(sorted: seq<Candidate>, c: Candidate)
    requires OneEach(sorted) && forall x :: x in sorted ==> x.names != c.names
    ensures OneEach(Insert(sorted, c))
    decreases |sorted|
  {
    if sorted != [] && |sorted[|sorted| - 1].names| < |c.names| {
      var front, last := sorted[..|sorted| - 1], sorted[|sorted| - 1];
      InsertOneEach(front, c);
      var more := Insert(front, c);
      forall i | 0 <= i < |more| ensures more[i].names != last.names {
        assert more[i] in more;
      }
    }
  }

  method CollectCandidates(resources: Resources, joints: set<Joint>) returns (ok: bool, candidates: seq<Candidate>)
    ensures ok <==> forall k :: 0 <= k < |resources.channels| && resources.channels[k].moveJ ==>
      resources.channels[k].group in resources.groups
    ensures ok ==>
      Represents(candidates, resources, joints, |resources.channels|) && BySize(candidates) && OneEach(candidates)
  {
    hide Represents, OneEach, BySize;
    NoCandidates(resources, joints);
    candidates := [];
    var seen: set<set<Joint>> := {};
    for k := 0 to |resources.channels|
      invariant forall i :: 0 <= i < k && resources.channels[i].moveJ ==>
        resources.channels[i].group in resources.groups
      invariant Represents(candidates, resources, joints, k) && BySize(candidates) && OneEach(candidates)
      invariant forall names :: names in seen <==> HasNames(candidates, names)
    {
      var channel := resources.channels[k];
      if !channel.moveJ {
        SkipRepresents(candidates, resources, joints, k);
        continue;
      }
      if channel.group !in resources.groups { return false, candidates; }
      var names := Members(resources.groups[channel.group]);
      if resources.groups[channel.group] != [] && names <= joints && names !in seen {
        InsertRepresents(candidates, resources, joints, k);
        InsertBySize(candidates, CandidateOf(resources, channel));
        forall x | x in candidates ensures x.names != names {
          assert HasNames(candidates, x.names);
        }
        InsertOneEach(candidates, CandidateOf(resources, channel));
        seen := seen + {names};
        candidates := Insert(candidates, CandidateOf(resources, channel));
      } else {
        SkipRepresents(candidates, resources, joints, k);
      }
    }
    return true, candidates;
  }

  lemma NoCandidates(resources: Resources, joints: set<Joint>)
    ensures Represents([], resources, joints, 0) && BySize([]) && OneEach([])
  {
  }

  lemma SkipRepresents(candidates: seq<Candidate>, resources: Resources, joints: set<Joint>, k: nat)
    requires k < |resources.channels| && Represents(candidates, resources, joints, k)
    requires Suits(resources, resources.channels[k], joints) ==>
      HasNames(candidates, Members(resources.groups[resources.channels[k].group]))
    ensures Represents(candidates, resources, joints, k + 1)
  {
    hide IsFirst, HasNames;
    forall i | 0 <= i < |candidates| ensures FromChannel(candidates[i], resources, joints, k + 1) {
      assert FromChannel(candidates[i], resources, joints, k);
    }
  }

  lemma InsertRepresents(candidates: seq<Candidate>, resources: Resources, joints: set<Joint>, k: nat)
    requires k < |resources.channels| && Represents(candidates, resources, joints, k)
    requires Suits(resources, resources.channels[k], joints)
    requires !HasNames(candidates, Members(resources.groups[resources.channels[k].group]))
    ensures var c := CandidateOf(resources, resources.channels[k]);
            var more := Insert(candidates, c);
            && Represents(more, resources, joints, k + 1)
            && forall names :: HasNames(more, names) <==> names == c.names || HasNames(candidates, names)
  {
    var c := CandidateOf(resources, resources.channels[k]);
    var more := Insert(candidates, c);
    forall names ensures HasNames(more, names) <==> names == c.names || HasNames(candidates, names) {
      if names == c.names {
        assert c in more;
      }
      if HasNames(candidates, names) {
        var i :| 0 <= i < |candidates| && candidates[i].names == names;
        assert candidates[i] in more;
      }
      if HasNames(more, names) {
        var i :| 0 <= i < |more| && more[i].names == names;
        assert more[i] in more;
      }
    }
    forall i | 0 <= i < |more| ensures FromChannel(more[i], resources, joints, k + 1) {
      assert more[i] in more;
      if more[i] == c {
        assert IsFirst(c, resources, joints, k);
      } else {
        var j :| 0 <= j < |candidates| && candidates[j] == more[i];
        assert FromChannel(candidates[j], resources, joints, k);
      }
    }
  }

  // ---- From joints to targets ----

  /** Disjoint groups of MoveJ channels that name exactly these joints. */
  ghost predicate IsChannelCover(chosen: seq<Channel>, resources: Resources, joints: set<Joint>) {
    && (forall i :: 0 <= i < |chosen| ==> chosen[i] in resources.channels && Suits(resources, chosen[i], joints))
    && (forall i, j :: 0 <= i < j < |chosen| ==>
          Members(resources.groups[chosen[i].group]) !! Members(resources.groups[chosen[j].group]))
    && (forall joint :: joint in joints ==>
          exists i :: 0 <= i < |chosen| && joint in Members(resources.groups[chosen[i].group]))
  }

  lemma {:induction false} ChannelsToCandidates(
    chosen: seq<Channel>, resources: Resources, joints: set<Joint>, candidates: seq<Candidate>)
    returns (picked: seq<Candidate>)
    requires Represents(candidates, resources, joints, |resources.channels|)
    requires forall i :: 0 <= i < |chosen| ==> chosen[i] in resources.channels && Suits(resources, chosen[i], joints)
    ensures |picked| == |chosen|
    ensures forall i :: 0 <= i < |chosen| ==>
      picked[i] in candidates && picked[i].names == Members(resources.groups[chosen[i].group])
  {
    picked := [];
    if chosen != [] {
      var front := ChannelsToCandidates(chosen[..|chosen| - 1], resources, joints, candidates);
      var last := chosen[|chosen| - 1];
      var k :| 0 <= k < |resources.channels| && resources.channels[k] == last;
      assert Suits(resources, resources.channels[k], joints);
      var i :| 0 <= i < |candidates| && candidates[i].names == Members(resources.groups[last.group]);
      picked := front + [candidates[i]];
    }
  }

  /** The search fails only if no choice of MoveJ channels covers the joints exactly. */
  lemma ChannelCoverIsFound(resources: Resources, joints: set<Joint>, candidates: seq<Candidate>, chosen: seq<Channel>)
    requires Represents(candidates, resources, joints, |resources.channels|)
    requires IsChannelCover(chosen, resources, joints)
    ensures Cover(joints, candidates).Some?
  {
    var picked := ChannelsToCandidates(chosen, resources, joints, candidates);
    forall joint | joint in joints ensures exists i :: 0 <= i < |picked| && joint in picked[i].names {
      var i :| 0 <= i < |chosen| && joint in Members(resources.groups[chosen[i].group]);
      assert joint in picked[i].names;
    }
    CoverIsComplete(joints, candidates, picked);
  }

  datatype Target = Target(channel: string, positions: seq<real>)

  datatype Goal = Goal(channel: string, endpoint: string, group: string, joints: seq<Joint>, positions: seq<real>)

  datatype PoseResult = Pose(targets: seq<Target>) | NoCover | Invalid | UnknownGroup

  function TargetOf(c: Candidate, positions: map<Joint, real>): Target
    requires c.names == Members(c.joints) && c.names <= positions.Keys
  {
    Target(c.channel, seq(|c.joints|, i requires 0 <= i < |c.joints| =>
      assert c.joints[i] in c.joints; positions[c.joints[i]]))
  }

  ghost predicate Targets(targets: seq<Target>, chosen: seq<Candidate>, positions: map<Joint, real>) {
    && |targets| == |chosen|
    && forall i :: 0 <= i < |chosen| ==>
         chosen[i].names == Members(chosen[i].joints) && chosen[i].names <= positions.Keys
           && targets[i] == TargetOf(chosen[i], positions)
  }

  lemma TargetsAreDetermined(
    some: seq<Target>, others: seq<Target>, chosen: seq<Candidate>, positions: map<Joint, real>)
    requires Targets(some, chosen, positions) && Targets(others, chosen, positions)
    ensures some == others
  {
    forall i | 0 <= i < |chosen| ensures some[i] == others[i] {
      assert chosen[i].names <= positions.Keys;
    }
  }

  /** `optionsOk` is the outcome of validating the pose's id, name and scales. */
  method PoseFromJointPositions(resources: Resources, positions: map<Joint, real>, optionsOk: bool)
    returns (r: PoseResult, ghost candidates: seq<Candidate>)
    ensures r.UnknownGroup? <==>
      exists k ::
        0 <= k < |resources.channels| && resources.channels[k].moveJ && resources.channels[k].group !in resources.groups
    ensures !r.UnknownGroup? ==>
      && Represents(candidates, resources, positions.Keys, |resources.channels|)
      && (r.NoCover? <==> positions == map[] || Cover(positions.Keys, candidates).None?)
      && BySize(candidates) && OneEach(candidates)
    ensures r.Pose? || r.Invalid? ==> IsExactCover(Cover(positions.Keys, candidates).value, candidates, positions.Keys)
    ensures r.Pose? ==> Targets(r.targets, Cover(positions.Keys, candidates).value, positions)
    ensures r.Pose? ==> optionsOk && TargetsOk(resources, r.targets)
    ensures r.Invalid? ==>
      !optionsOk
      || exists targets ::
         Targets(targets, Cover(positions.Keys, candidates).value, positions) && !TargetsOk(resources, targets)
  {
    hide Cover, Represents, IsExactCover, TargetsOk, Targets, BySize, OneEach;
    var ok, list := CollectCandidates(resources, positions.Keys);
    candidates := list;
    if !ok { return UnknownGroup, candidates; }
    var found := Cover(positions.Keys, list);
    CoverIsSound(positions.Keys, list);
    EmptyCover(positions, list);
    if found.None? || found.value == [] { return NoCover, candidates; }
    var targets := MakeTargets(resources, positions, list, found.value);
    var valid := ValidateTargets(resources, targets);
    return if optionsOk && valid then Pose(targets) else Invalid, candidates;
  }

  method MakeTargets(
    resources: Resources, positions: map<Joint, real>, ghost candidates: seq<Candidate>, chosen: seq<Candidate>)
    returns (targets: seq<Target>)
    requires Represents(candidates, resources, positions.Keys, |resources.channels|)
    requires IsExactCover(chosen, candidates, positions.Keys)
    ensures Targets(targets, chosen, positions)
  {
    hide Represents;
    CandidatesShaped(candidates, resources, positions.Keys);
    targets := [];
    for i := 0 to |chosen|
      invariant Targets(targets, chosen[..i], positions)
    {
      assert chosen[i] in candidates;
      targets := targets + [TargetOf(chosen[i], positions)];
    }
    assert chosen[..|chosen|] == chosen;
  }

  lemma EmptyCover(positions: map<Joint, real>, candidates: seq<Candidate>)
    ensures Cover(positions.Keys, candidates).Some? ==>
      (Cover(positions.Keys, candidates).value == [] <==> positions == map[])
  {
    CoverIsSound(positions.Keys, candidates);
    if Cover(positions.Keys, candidates).Some? && Cover(positions.Keys, candidates).value == [] {
      assert positions.Keys == {};
    }
    if positions == map[] { assert positions.Keys == {}; }
  }

  lemma CandidatesShaped(candidates: seq<Candidate>, resources: Resources, joints: set<Joint>)
    requires Represents(candidates, resources, joints, |resources.channels|)
    ensures forall c :: c in candidates ==> c.names == Members(c.joints) && c.names <= joints && c.joints != []
  {
    forall c | c in candidates ensures c.names == Members(c.joints) && c.names <= joints && c.joints != [] {
      var i :| 0 <= i < |candidates| && candidates[i] == c;
      assert FromChannel(candidates[i], resources, joints, |resources.channels|);
    }
  }

  // ---- Validation and resolution by name ----

  /** The last channel of that name, as a dictionary built from the list holds it. */
  function Lookup(channels: seq<Channel>, name: string): Option<Channel> {
    if channels == [] then None
    else if channels[|channels| - 1].name == name then Some(channels[|channels| - 1])
    else Lookup(channels[..|channels| - 1], name)
  }

  ghost predicate TargetOk(resources: Resources, target: Target) {
    var found := Lookup(resources.channels, target.channel);
    && found.Some? && found.value.moveJ && found.value.group != ""
    && var group := found.value.group;
       && group in resources.groups && group in resources.lower && group in resources.upper
       && |resources.groups[group]| == |resources.lower[group]| == |resources.upper[group]| == |target.positions|
       && resources.groups[group] != []
       && forall i :: 0 <= i < |target.positions| ==>
            resources.lower[group][i] <= target.positions[i] <= resources.upper[group][i]
  }

  ghost function JointsFor(resources: Resources, target: Target): seq<Joint> {
    var found := Lookup(resources.channels, target.channel);
    if found.Some? && found.value.group in resources.groups then resources.groups[found.value.group] else []
  }

  ghost predicate TargetsOk(resources: Resources, targets: seq<Target>) {
    && 0 < |targets| <= 16
    && (forall i :: 0 <= i < |targets| ==> TargetOk(resources, targets[i]))
    && (forall i, j :: 0 <= i < j < |targets| ==> targets[i].channel != targets[j].channel)
    && (forall i, j :: 0 <= i < j < |targets| ==>
          !Overlaps(JointsFor(resources, targets[i]), JointsFor(resources, targets[j])))
  }

  method ValidateTarget(resources: Resources, target: Target) returns (ok: bool, joints: seq<Joint>)
    ensures ok <==> TargetOk(resources, target)
    ensures ok ==> joints == JointsFor(resources, target)
  {
    joints := [];
    var found := Lookup(resources.channels, target.channel);
    if found.None? || !found.value.moveJ || found.value.group == "" { return false, joints; }
    var group := found.value.group;
    if group !in resources.groups || group !in resources.lower || group !in resources.upper { return false, joints; }
    joints := resources.groups[group];
    var lower, upper := resources.lower[group], resources.upper[group];
    if |joints| != |lower| || |lower| != |upper| || joints == []
      || |target.positions| != |joints| { return false, joints; }
    for i := 0 to |joints|
      invariant forall k :: 0 <= k < i ==> lower[k] <= target.positions[k] <= upper[k]
    {
      if target.positions[i] < lower[i] || target.positions[i] > upper[i] { return false, joints; }
    }
    return true, joints;
  }

  /** The channels and joints of the first `k` targets. */
  ghost predicate Used(resources: Resources, targets: seq<Target>, k: nat, channels: set<string>, joints: set<Joint>)
    requires k <= |targets|
  {
    && (forall name :: name in channels <==> exists i :: 0 <= i < k && targets[i].channel == name)
    && (forall joint :: joint in joints <==> exists i :: 0 <= i < k && joint in JointsFor(resources, targets[i]))
  }

  /** The channel at `k` is the last one of that name. */
  ghost predicate IsLast(channels: seq<Channel>, k: int, name: string) {
    0 <= k < |channels| && channels[k].name == name && forall l :: k < l < |channels| ==> channels[l].name != name
  }

  /** The positions are one for each joint of the channel's group, between its limits. */
  ghost predicate Fits(resources: Resources, channel: Channel, positions: seq<real>) {
    && channel.moveJ && channel.group != "" && channel.group in resources.groups
    && channel.group in resources.lower && channel.group in resources.upper
    && 0 < |positions| == |resources.groups[channel.group]|
    && |positions| == |resources.lower[channel.group]| == |resources.upper[channel.group]|
    && forall j :: 0 <= j < |positions| ==>
         resources.lower[channel.group][j] <= positions[j] <= resources.upper[channel.group][j]
  }

  lemma {:induction false} LookupIsLast(channels: seq<Channel>, name: string)
    ensures Lookup(channels, name).Some? <==> exists k :: IsLast(channels, k, name)
    ensures forall k :: IsLast(channels, k, name) ==> Lookup(channels, name) == Some(channels[k])
  {
    if channels == [] {
    } else if channels[|channels| - 1].name == name {
      assert IsLast(channels, |channels| - 1, name);
    } else {
      var front := channels[..|channels| - 1];
      LookupIsLast(front, name);
      forall k ensures IsLast(channels, k, name) <==> IsLast(front, k, name) {
        assert forall l :: 0 <= l < |front| ==> front[l] == channels[l];
      }
    }
  }

  lemma TargetFitsLast(resources: Resources, target: Target)
    ensures TargetOk(resources, target) <==>
      exists k ::
        IsLast(resources.channels, k, target.channel) && Fits(resources, resources.channels[k], target.positions)
    ensures forall k :: IsLast(resources.channels, k, target.channel) && TargetOk(resources, target) ==>
      JointsFor(resources, target) == resources.groups[resources.channels[k].group]
  {
    hide Lookup, IsLast;
    LookupIsLast(resources.channels, target.channel);
  }

  ghost predicate AllFit(resources: Resources, targets: seq<Target>) {
    forall i :: 0 <= i < |targets| ==>
      exists k ::
        && IsLast(resources.channels, k, targets[i].channel)
        && Fits(resources, resources.channels[k], targets[i].positions)
  }

  ghost predicate NothingShared(resources: Resources, targets: seq<Target>) {
    forall i, j, k, l ::
      && 0 <= i < j < |targets| && IsLast(resources.channels, k, targets[i].channel)
      && IsLast(resources.channels, l, targets[j].channel) ==>
        Apart(resources, targets[i], targets[j], resources.channels[k], resources.channels[l])
  }

  ghost predicate Apart(resources: Resources, a: Target, b: Target, left: Channel, right: Channel) {
    && a.channel != b.channel && left.group in resources.groups && right.group in resources.groups
    && forall joint :: joint in resources.groups[left.group] ==> joint !in resources.groups[right.group]
  }

  lemma LastIsOne(channels: seq<Channel>, k: int, l: int, name: string)
    requires IsLast(channels, k, name) && IsLast(channels, l, name)
    ensures k == l
  {
  }

  lemma TargetsFitLast(resources: Resources, targets: seq<Target>)
    ensures 0 < |targets| <= 16 && AllFit(resources, targets) && NothingShared(resources, targets) <==>
      TargetsOk(resources, targets)
  {
    hide TargetOk, JointsFor, Lookup;
    forall i | 0 <= i < |targets| { TargetFitsLast(resources, targets[i]); }
    assert AllFit(resources, targets) <==> forall i :: 0 <= i < |targets| ==> TargetOk(resources, targets[i]);
    if AllFit(resources, targets) {
      forall i, j | 0 <= i < j < |targets| { PairApart(resources, targets, i, j); }
    }
  }

  lemma PairApart(resources: Resources, targets: seq<Target>, i: nat, j: nat)
    requires i < j < |targets| && TargetOk(resources, targets[i]) && TargetOk(resources, targets[j])
    ensures
      && targets[i].channel != targets[j].channel
      && !Overlaps(JointsFor(resources, targets[i]), JointsFor(resources, targets[j])) <==>
      forall k, l ::
        IsLast(resources.channels, k, targets[i].channel) && IsLast(resources.channels, l, targets[j].channel) ==>
          Apart(resources, targets[i], targets[j], resources.channels[k], resources.channels[l])
  {
    hide TargetOk, JointsFor, Lookup;
    TargetFitsLast(resources, targets[i]);
    TargetFitsLast(resources, targets[j]);
    var k :| IsLast(resources.channels, k, targets[i].channel) &&
      Fits(resources, resources.channels[k], targets[i].positions);
    var l :| IsLast(resources.channels, l, targets[j].channel) &&
      Fits(resources, resources.channels[l], targets[j].positions);
    hide IsLast, Fits;
    assert Apart(resources, targets[i], targets[j], resources.channels[k], resources.channels[l]) <==>
      targets[i].channel != targets[j].channel &&
      !Overlaps(JointsFor(resources, targets[i]), JointsFor(resources, targets[j]));
    forall a, b | IsLast(resources.channels, a, targets[i].channel) && IsLast(resources.channels, b, targets[j].channel)
      ensures a == k && b == l
    {
      LastIsOne(resources.channels, a, k, targets[i].channel);
      LastIsOne(resources.channels, b, l, targets[j].channel);
    }
  }

  method ValidateTargets(resources: Resources, targets: seq<Target>) returns (ok: bool)
    ensures ok <==> TargetsOk(resources, targets)
    // Every target fits the last channel of its name, and no two share a name or a joint.
    ensures ok <==> 0 < |targets| <= 16 && AllFit(resources, targets) && NothingShared(resources, targets)
  {
    TargetsFitLast(resources, targets);
    ok := CheckTargets(resources, targets);
  }

  method CheckTargets(resources: Resources, targets: seq<Target>) returns (ok: bool)
    ensures ok <==> TargetsOk(resources, targets)
  {
    if targets == [] || |targets| > 16 { return false; }
    var usedChannels: set<string>, usedJoints: set<Joint> := {}, {};
    for k := 0 to |targets|
      invariant TargetsFit(resources, targets, k) && Used(resources, targets, k, usedChannels, usedJoints)
    {
      hide TargetOk, JointsFor, Used, TargetsFit, TargetsOk;
      var each, joints := ValidateTarget(resources, targets[k]);
      if targets[k].channel in usedChannels || !each || exists joint :: joint in joints && joint in usedJoints {
        TargetRefused(resources, targets, k, each, joints, usedChannels, usedJoints);
        return false;
      }
      TargetFits(resources, targets, k, joints, usedChannels, usedJoints);
      usedChannels := usedChannels + {targets[k].channel};
      usedJoints := usedJoints + Members(joints);
    }
    return true;
  }

  lemma TargetRefused(
    resources: Resources, targets: seq<Target>, k: nat, each: bool, joints: seq<Joint>, channels: set<string>,
    used: set<Joint>)
    requires k < |targets| && Used(resources, targets, k, channels, used)
    requires (each <==> TargetOk(resources, targets[k])) && (each ==> joints == JointsFor(resources, targets[k]))
    requires targets[k].channel in channels || !each || exists joint :: joint in joints && joint in used
    ensures !TargetsOk(resources, targets)
  {
    hide TargetOk, JointsFor;
    if each && targets[k].channel !in channels { OverlapFound(resources, targets, k, joints, used); }
  }

  lemma TargetFits(
    resources: Resources, targets: seq<Target>, k: nat, joints: seq<Joint>, channels: set<string>, used: set<Joint>)
    requires k < |targets| && TargetsFit(resources, targets, k) && Used(resources, targets, k, channels, used)
    requires TargetOk(resources, targets[k]) && joints == JointsFor(resources, targets[k])
    requires targets[k].channel !in channels && !exists joint :: joint in joints && joint in used
    ensures TargetsFit(resources, targets, k + 1)
    ensures Used(resources, targets, k + 1, channels + {targets[k].channel}, used + Members(joints))
  {
    hide TargetOk, JointsFor, Overlaps;
    NoOverlapWith(resources, targets, k, joints, used);
  }

  ghost predicate TargetsFit(resources: Resources, targets: seq<Target>, k: nat)
    requires k <= |targets|
  {
    && (forall i :: 0 <= i < k ==> TargetOk(resources, targets[i]))
    && (forall i, j :: 0 <= i < j < k ==> targets[i].channel != targets[j].channel)
    && (forall i, j :: 0 <= i < j < k ==> !Overlaps(JointsFor(resources, targets[i]), JointsFor(resources, targets[j])))
  }

  lemma OverlapFound(resources: Resources, targets: seq<Target>, k: nat, joints: seq<Joint>, used: set<Joint>)
    requires k < |targets| && joints == JointsFor(resources, targets[k])
    requires forall joint :: joint in used <==> exists i :: 0 <= i < k && joint in JointsFor(resources, targets[i])
    requires exists joint :: joint in joints && joint in used
    ensures exists i :: 0 <= i < k && Overlaps(JointsFor(resources, targets[i]), JointsFor(resources, targets[k]))
  {
    var joint :| joint in joints && joint in used;
    var i :| 0 <= i < k && joint in JointsFor(resources, targets[i]);
    assert Overlaps(JointsFor(resources, targets[i]), joints);
  }

  lemma NoOverlapWith(resources: Resources, targets: seq<Target>, k: nat, joints: seq<Joint>, used: set<Joint>)
    requires k < |targets| && joints == JointsFor(resources, targets[k])
    requires forall joint :: joint in used <==> exists i :: 0 <= i < k && joint in JointsFor(resources, targets[i])
    requires !exists joint :: joint in joints && joint in used
    ensures forall i :: 0 <= i < k ==> !Overlaps(JointsFor(resources, targets[i]), JointsFor(resources, targets[k]))
  {
  }

  function ResolvedGoal(resources: Resources, target: Target): Goal
    requires var found := Lookup(resources.channels, target.channel);
             found.Some? && found.value.group in resources.groups
  {
    var channel := Lookup(resources.channels, target.channel).value;
    Goal(channel.name, channel.endpoint, channel.group, resources.groups[channel.group], target.positions)
  }

  method ResolveTargets(resources: Resources, targets: seq<Target>) returns (goals: Option<seq<Goal>>)
    ensures goals.Some? <==> TargetsOk(resources, targets)
    ensures goals.Some? ==>
      && |goals.value| == |targets|
      && forall i :: 0 <= i < |targets| ==>
           TargetOk(resources, targets[i]) && goals.value[i] == ResolvedGoal(resources, targets[i])
  {
    var ok := ValidateTargets(resources, targets);
    if !ok { return None; }
    var list: seq<Goal> := [];
    for k := 0 to |targets|
      invariant |list| == k
      invariant forall i :: 0 <= i < k ==>
        TargetOk(resources, targets[i]) && list[i] == ResolvedGoal(resources, targets[i])
    {
      assert TargetOk(resources, targets[k]);
      list := list + [ResolvedGoal(resources, targets[k])];
    }
    return Some(list);
  }

  // ---- Giving back the requested positions ----

  /** The target's channel name leads to the very joints the candidate was made from. */
  ghost predicate LeadsBack(resources: Resources, c: Candidate) {
    var found := Lookup(resources.channels, c.channel);
    found.Some? && found.value.group in resources.groups && resources.groups[found.value.group] == c.joints
  }

  ghost predicate Leads(resources: Resources, c: Candidate) {
    var found := Lookup(resources.channels, c.channel);
    found.Some? && found.value.group in resources.groups && |resources.groups[found.value.group]| == |c.joints|
  }

  /** The goal moves its joints to the positions requested for them. */
  ghost predicate Gives(goal: Goal, positions: map<Joint, real>) {
    && |goal.joints| == |goal.positions|
    && forall i :: 0 <= i < |goal.joints| ==>
         goal.joints[i] in positions && goal.positions[i] == positions[goal.joints[i]]
  }

  /**
    Resolving a chosen target gives back the requested positions, for every choice of
    positions, exactly when its channel's name leads back to the same joints.
  */
  lemma ResolvesBackExactly(resources: Resources, c: Candidate, joints: set<Joint>)
    requires c.names == Members(c.joints) && c.names <= joints && Leads(resources, c)
    ensures LeadsBack(resources, c) <==>
            forall positions: map<Joint, real> :: positions.Keys == joints ==>
              Gives(ResolvedGoal(resources, TargetOf(c, positions)), positions)
  {
    var others := resources.groups[Lookup(resources.channels, c.channel).value.group];
    forall positions: map<Joint, real> | LeadsBack(resources, c) && positions.Keys == joints
      ensures Gives(ResolvedGoal(resources, TargetOf(c, positions)), positions)
    {
      assert forall i :: 0 <= i < |c.joints| ==> c.joints[i] in c.joints;
    }
    if !LeadsBack(resources, c) {
      var i :| 0 <= i < |c.joints| && others[i] != c.joints[i];
      assert c.joints[i] in c.joints;
      var positions := map joint | joint in joints :: if joint == c.joints[i] then 1.0 else 0.0;
      var goal := ResolvedGoal(resources, TargetOf(c, positions));
      assert goal.positions[i] == 1.0 && goal.joints[i] == others[i];
      assert !Gives(goal, positions);
    }
  }

  lemma {:induction false} LookupUnique(channels: seq<Channel>, k: nat)
    requires k < |channels| && forall i, j :: 0 <= i < j < |channels| ==> channels[i].name != channels[j].name
    ensures Lookup(channels, channels[k].name) == Some(channels[k])
    decreases |channels|
  {
    if k < |channels| - 1 { LookupUnique(channels[..|channels| - 1], k); }
  }

  /** With unique channel names every candidate leads back. */
  lemma UniqueNamesLeadBack(resources: Resources, joints: set<Joint>, candidates: seq<Candidate>, c: Candidate)
    requires Represents(candidates, resources, joints, |resources.channels|) && c in candidates
    requires forall i, j :: 0 <= i < j < |resources.channels| ==>
      resources.channels[i].name != resources.channels[j].name
    ensures LeadsBack(resources, c)
  {
    var i :| 0 <= i < |candidates| && candidates[i] == c;
    assert FromChannel(candidates[i], resources, joints, |resources.channels|);
    var k :| 0 <= k < |resources.channels| && IsFirst(c, resources, joints, k);
    LookupUnique(resources.channels, k);
  }

  /**
    With unique channel names, the goals of an accepted pose move exactly the requested joints
    to their requested positions.
  */
  lemma AcceptedPoseGivesBack(
    resources: Resources, positions: map<Joint, real>, candidates: seq<Candidate>, targets: seq<Target>,
    goals: seq<Goal>)
    requires Represents(candidates, resources, positions.Keys, |resources.channels|)
    requires Cover(positions.Keys, candidates).Some?
    requires Targets(targets, Cover(positions.Keys, candidates).value, positions)
    requires forall i, j :: 0 <= i < j < |resources.channels| ==>
      resources.channels[i].name != resources.channels[j].name
    requires |goals| == |targets|
    requires forall i :: 0 <= i < |targets| ==>
      TargetOk(resources, targets[i]) && goals[i] == ResolvedGoal(resources, targets[i])
    ensures forall i :: 0 <= i < |goals| ==> Gives(goals[i], positions)
    ensures forall joint :: joint in positions <==> exists i :: 0 <= i < |goals| && joint in goals[i].joints
    ensures forall i, j :: 0 <= i < j < |goals| ==> !Overlaps(goals[i].joints, goals[j].joints)
  {
    hide Cover, Gives, ResolvedGoal, Represents, TargetOk, IsExactCover, TargetOf, LeadsBack;
    var chosen := Cover(positions.Keys, candidates).value;
    CoverIsSound(positions.Keys, candidates);
    forall i | 0 <= i < |goals| ensures Gives(goals[i], positions) && goals[i].joints == chosen[i].joints {
      ChosenIsCandidate(chosen, candidates, positions.Keys, i);
      UniqueNamesLeadBack(resources, positions.Keys, candidates, chosen[i]);
      GivesHere(resources, chosen[i], positions);
    }
    GoalsCover(chosen, candidates, positions.Keys, goals);
  }

  lemma ChosenIsCandidate(chosen: seq<Candidate>, candidates: seq<Candidate>, joints: set<Joint>, i: nat)
    requires IsExactCover(chosen, candidates, joints) && i < |chosen|
    ensures chosen[i] in candidates
  {
  }

  lemma GoalsCover(chosen: seq<Candidate>, candidates: seq<Candidate>, joints: set<Joint>, goals: seq<Goal>)
    requires IsExactCover(chosen, candidates, joints) && |goals| == |chosen|
    requires forall i :: 0 <= i < |chosen| ==>
      chosen[i].names == Members(chosen[i].joints) && goals[i].joints == chosen[i].joints
    ensures forall joint :: joint in joints <==> exists i :: 0 <= i < |goals| && joint in goals[i].joints
    ensures forall i, j :: 0 <= i < j < |goals| ==> !Overlaps(goals[i].joints, goals[j].joints)
  {
    forall joint ensures joint in joints <==> exists i :: 0 <= i < |goals| && joint in goals[i].joints {
      if joint in joints {
        var i :| 0 <= i < |chosen| && joint in chosen[i].names;
        assert joint in goals[i].joints;
      }
      if i :| 0 <= i < |goals| && joint in goals[i].joints {
        assert joint in chosen[i].names;
      }
    }
    forall i, j | 0 <= i < j < |goals| ensures !Overlaps(goals[i].joints, goals[j].joints) {
      assert chosen[i].names !! chosen[j].names;
    }
  }

  lemma GivesHere(resources: Resources, c: Candidate, positions: map<Joint, real>)
    requires c.names == Members(c.joints) && c.names <= positions.Keys && LeadsBack(resources, c)
    ensures Gives(ResolvedGoal(resources, TargetOf(c, positions)), positions)
    ensures ResolvedGoal(resources, TargetOf(c, positions)).joints == c.joints
  {
    assert forall i :: 0 <= i < |c.joints| ==> c.joints[i] in c.joints;
  }
}
