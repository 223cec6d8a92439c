/**
  The ownership handover between the permit receiver and the control tick.

  The receiver takes a message in one locked section and then, outside the lock, disables
  the pipeline, drops queued input, enables the pipeline for a grant and acknowledges. The
  control tick withdraws an expired permission, captures the generation and key before any
  kinematics, and checks them again when it publishes. Every access to a shared variable
  outside a lock is a step of its own; the steps of the two threads interleave freely.
*/
module OwnershipPermit {
  import opened MotionTypes

  const PERMIT_LIFE: Time := 300_000_000
  const EARLIEST: Time := -50_000_000
  const FRAME_SEPARATOR: char := '#'
  const KEY_SEPARATOR: char := ':'

  datatype Phase = Unset | Revoke | Grant | Off

  datatype Message = Message(key: string, phase: Phase, source: string)

  datatype Change = Change(key: string, phase: Phase)

  /** Where the receiver stands in handling a change; loads and calls on the pipeline are separate steps. */
  datatype Receiver = Waiting | Disabling | DisablingWith(generation: nat) | Clearing | Granting
    | GrantingWith(generation: nat)
    | Permitting | Acknowledging

  datatype Ticker = Idle | Expired | Withdrawn | WithdrawnWith(generation: nat) | Checked
    | Captured(generation: nat, key: string, changesSeen: nat)

  datatype Publication = Publication(key: string, at: Time)

  datatype Shared = Shared(
    now: Time, enabled: bool, generation: nat, key: string, phase: Phase, ack: Option<Change>,
    sourceStamp: int, receivedAt: Time, cutoff: int, intervention: bool, normal: bool,
    pipelineEnabled: bool, pipelineGeneration: nat, queueEmpty: bool,
    receiver: Receiver, ticker: Ticker,
    changes: seq<Change>, published: seq<Publication>)

  /** A permit topic is configured and nothing has been received. */
  function Start(now: Time): Shared {
    Shared(now, false, 0, "", Unset, None, 0, 0, 0, false, true, false, 0, true, Waiting, Idle, [], [])
  }

  // ---- Reading a message ----

  function IndexOf(text: string, separator: char): (n: nat)
    ensures n <= |text| && (n < |text| ==> text[n] == separator)
  {
    if text == "" || text[0] == separator then 0 else 1 + IndexOf(text[1..], separator)
  }

  /** The fields between separators; nothing follows a final separator. */
  function Split(text: string, separator: char): seq<string> {
    if text == "" then []
    else
      var n := IndexOf(text, separator);
      if n == |text| then [text] else [text[..n]] + Split(text[n + 1..], separator)
  }

  function Identity(key: string): seq<string> {
    if key != "" && key[|key| - 1] == KEY_SEPARATOR then Split(key, KEY_SEPARATOR) + [""] else Split(key, KEY_SEPARATOR)
  }

  function PhaseOf(name: string): Phase {
    if name == "revoke" then Revoke else if name == "grant" then Grant else if name == "off" then Off else Unset
  }

  function Parse(frame: string, instance: string): Option<Message> {
    var fields := Split(frame, FRAME_SEPARATOR);
    if |fields| != 4 || fields[2] != instance then None
    else
      var phase, identity := PhaseOf(fields[1]), Identity(fields[0]);
      if phase == Unset then None
      else if |identity| != 6 || identity[0] != "hc1" then None
      else if phase == Grant && identity[4] != "motion" && identity[4] != "vr" then None
      else Some(Message(fields[0], phase, identity[4]))
  }

  lemma ParsedHasKey(frame: string, instance: string)
    ensures Parse(frame, instance).Some? ==>
      Parse(frame, instance).value.key != "" && Parse(frame, instance).value.phase != Unset
  {
  }

  predicate InTime(s: Shared, stamp: int, rosNow: int) {
    stamp > s.sourceStamp && EARLIEST <= rosNow - stamp <= PERMIT_LIFE
  }

  /** A grant counts only for the current key, after it was revoked and not switched off. */
  predicate Refused(s: Shared, m: Message) {
    m.phase == Grant && (m.key != s.key || s.phase == Off)
  }

  predicate Changes(s: Shared, m: Message) { m.key != s.key || m.phase != s.phase }

  // ---- The steps ----

  /** The locked section: take the message over; a change withdraws the permission at once. */
  function Take(s: Shared, m: Message, stamp: int): Shared {
    var refreshed := s.(
      sourceStamp := stamp, intervention := m.phase != Off, normal := m.source == "motion", receivedAt := s.now);
    if !Changes(s, m) then refreshed
    else refreshed.(
      enabled := false, generation := s.generation + 1, key := m.key, phase := m.phase, ack := None, cutoff := stamp,
      receiver := Disabling, changes := s.changes + [Change(m.key, m.phase)])
  }

  function Receive(s: Shared, frame: string, instance: string, stamp: int, rosNow: int): Shared {
    var parsed := Parse(frame, instance);
    if s.receiver != Waiting || parsed.None? || !InTime(s, stamp, rosNow) || Refused(s, parsed.value) then s
    else Take(s, parsed.value, stamp)
  }

  function ReceiverStep(s: Shared): Shared {
    match s.receiver
    case Waiting => s
    case Disabling => s.(receiver := DisablingWith(s.generation))
    case DisablingWith(g) => s.(pipelineEnabled := false, pipelineGeneration := g, receiver := Clearing)
    case Clearing => s.(queueEmpty := true, receiver := if s.phase == Grant then Granting else Acknowledging)
    case Granting => s.(receiver := GrantingWith(s.generation))
    case GrantingWith(g) => s.(pipelineEnabled := true, pipelineGeneration := g, receiver := Permitting)
    case Permitting => s.(enabled := true, receiver := Acknowledging)
    case Acknowledging => s.(ack := Some(Change(s.key, s.phase)), receiver := Waiting)
  }

  /** The age of the permission as the tick sees it; its clock was read no later than now. */
  function ReadExpiry(s: Shared, lag: nat): Shared {
    if s.ticker != Idle then s
    else s.(ticker := if s.now - lag - s.receivedAt > PERMIT_LIFE then Expired else Checked)
  }

  function TickerStep(s: Shared): Shared {
    match s.ticker
    case Expired => s.(enabled := false, ticker := if s.enabled then Withdrawn else Checked)
    case Withdrawn => s.(generation := s.generation + 1, ticker := WithdrawnWith(s.generation + 1))
    case WithdrawnWith(g) => s.(pipelineEnabled := false, pipelineGeneration := g, ticker := Checked)
    case Checked => s.(ticker := Captured(s.generation, s.key, |s.changes|))
    case _ => s
  }

  /** The guard at publication, under both locks; the age is checked again right before the message leaves. */
  predicate MayPublish(s: Shared, took: nat) {
    && s.ticker.Captured? && s.pipelineEnabled && s.enabled && s.ticker.generation == s.generation
    && s.intervention && s.now + took - s.receivedAt <= PERMIT_LIFE
  }

  function Publish(s: Shared, took: nat): Shared {
    if !s.ticker.Captured? then s
    else if MayPublish(s, took) then
      s.(now := s.now + took, ticker := Idle, published := s.published + [Publication(s.ticker.key, s.now + took)])
    else s.(now := s.now + took, ticker := Idle)
  }

  datatype Action =
    | PassTime(span: nat)
    | ReceiveAct(frame: string, stamp: int, rosNow: int)
    | ReceiverAct
    | QueueAct
    | ReadAct(lag: nat)
    | TickerAct
    | PublishAct(took: nat)

  function Apply(s: Shared, instance: string, a: Action): Shared {
    match a
    case PassTime(span) => s.(now := s.now + span)
    case ReceiveAct(frame, stamp, rosNow) => Receive(s, frame, instance, stamp, rosNow)
    case ReceiverAct => ReceiverStep(s)
    case QueueAct => s.(queueEmpty := false)
    case ReadAct(lag) => ReadExpiry(s, lag)
    case TickerAct => TickerStep(s)
    case PublishAct(took) => Publish(s, took)
  }

  function Run(s: Shared, instance: string, actions: seq<Action>): Shared {
    if actions == [] then s else Apply(Run(s, instance, actions[..|actions| - 1]), instance, actions[|actions| - 1])
  }

  // ---- What every interleaving keeps ----

  /** The current key was revoked, and since then neither another key nor an "off" was taken over. */
  ghost predicate EarnedGrant(changes: seq<Change>, key: string) {
    exists i :: RevokedAt(changes, key, i)
  }

  ghost predicate RevokedAt(changes: seq<Change>, key: string, i: int) {
    && 0 <= i < |changes| && changes[i] == Change(key, Revoke)
    && forall j :: i < j < |changes| ==> changes[j].key == key && changes[j].phase != Off
  }

  ghost predicate ReceiverOk(s: Shared) {
    && (s.enabled ==> s.phase == Grant && (s.receiver == Waiting || s.receiver == Acknowledging))
    && (s.pipelineEnabled ==> s.phase == Grant || s.receiver == Disabling || s.receiver.DisablingWith?)
    && ((s.receiver == Granting || s.receiver.GrantingWith? || s.receiver == Permitting) ==> s.phase == Grant)
    && (s.ack.Some? ==> s.ack.value == Change(s.key, s.phase) && s.receiver == Waiting && s.phase != Unset)
    && (s.receiver != Waiting ==> s.phase != Unset)
    && (s.intervention <==> s.phase == Revoke || s.phase == Grant)
  }

  ghost predicate ChangesOk(changes: seq<Change>, key: string, phase: Phase) {
    && (if changes == [] then key == "" && phase == Unset
        else changes[|changes| - 1] == Change(key, phase) && key != "" && phase != Unset)
    && (phase == Revoke || phase == Grant ==> EarnedGrant(changes, key))
  }

  /** Every change after the capture moved the generation on. */
  ghost predicate CaptureOk(s: Shared) {
    s.ticker.Captured? ==>
      && s.ticker.changesSeen <= |s.changes|
      && s.generation - s.ticker.generation >= |s.changes| - s.ticker.changesSeen
      && (s.ticker.changesSeen == |s.changes| ==> s.ticker.key == s.key)
  }

  ghost predicate Inv(s: Shared) { ReceiverOk(s) && ChangesOk(s.changes, s.key, s.phase) && CaptureOk(s) }

  lemma TakeKeeps(s: Shared, m: Message, stamp: int)
    requires Inv(s) && s.receiver == Waiting && m.key != "" && m.phase != Unset && !Refused(s, m)
    ensures Inv(Take(s, m, stamp))
  {
    var t := Take(s, m, stamp);
    if Changes(s, m) {
      if m.phase == Revoke {
        assert RevokedAt(t.changes, t.key, |s.changes|);
      } else if m.phase == Grant {
        var i :| RevokedAt(s.changes, s.key, i);
        assert RevokedAt(t.changes, t.key, i);
      }
    }
  }

  lemma StepKeeps(s: Shared, instance: string, a: Action)
    requires Inv(s)
    ensures Inv(Apply(s, instance, a))
  {
    match a
    case ReceiveAct(frame, stamp, rosNow) =>
      ParsedHasKey(frame, instance);
      if Receive(s, frame, instance, stamp, rosNow) != s {
        hide Parse, Inv;
        TakeKeeps(s, Parse(frame, instance).value, stamp);
      }
    case ReceiverAct => ReceiverStepKeeps(s);
    case TickerAct => TickerStepKeeps(s);
    case _ =>
  }

  lemma ReceiverStepKeeps(s: Shared)
    requires Inv(s)
    ensures Inv(ReceiverStep(s))
  {
    hide ChangesOk;
  }

  lemma TickerStepKeeps(s: Shared)
    requires Inv(s)
    ensures Inv(TickerStep(s))
  {
    hide ChangesOk, ReceiverOk, CaptureOk;
    WithdrawalKeepsReceiver(s);
    TickerKeepsCapture(s);
  }

  lemma WithdrawalKeepsReceiver(s: Shared)
    requires ReceiverOk(s)
    ensures ReceiverOk(TickerStep(s))
  {
  }

  lemma TickerKeepsCapture(s: Shared)
    requires CaptureOk(s)
    ensures CaptureOk(TickerStep(s))
  {
  }

  lemma {:induction false} RunKeeps(s: Shared, instance: string, actions: seq<Action>)
    requires Inv(s)
    ensures Inv(Run(s, instance, actions))
    decreases |actions|
  {
    hide Inv, Apply;
    if actions != [] {
      RunKeeps(s, instance, actions[..|actions| - 1]);
      StepKeeps(Run(s, instance, actions[..|actions| - 1]), instance, actions[|actions| - 1]);
    }
  }

  lemma StartHolds(now: Time)
    ensures Inv(Start(now))
  {
  }

  // ---- The handover, in every interleaving ----

  /** A key is granted only after it was revoked, with no other key and no "off" taken over since. */
  lemma GrantFollowsRevoke(now: Time, instance: string, actions: seq<Action>)
    ensures var s := Run(Start(now), instance, actions);
            (s.phase == Grant || s.enabled || MayPublish(s, 0)) ==> EarnedGrant(s.changes, s.key)
  {
    hide Run, Apply;
    StartHolds(now);
    RunKeeps(Start(now), instance, actions);
  }

  /** Once a revoke or "off" is acknowledged, nothing is permitted and the pipeline is disabled. */
  lemma AcknowledgedRevokeIsSilent(now: Time, instance: string, actions: seq<Action>)
    ensures var s := Run(Start(now), instance, actions);
            s.ack.Some? ==>
              && s.ack.value == Change(s.key, s.phase)
              && (s.ack.value.phase != Grant ==> !s.enabled && !s.pipelineEnabled)
  {
    StartHolds(now);
    RunKeeps(Start(now), instance, actions);
  }

  /**
    An owned command is tagged with the key that is current when it is published, under a
    grant, within the permission's life, and no message changed key or phase since the tag
    was captured.
  */
  lemma PublishedUnderCurrentKey(now: Time, instance: string, actions: seq<Action>, took: nat)
    ensures var s := Run(Start(now), instance, actions);
            var t := Publish(s, took);
            t.published != s.published ==>
              && t.published == s.published + [Publication(t.key, t.now)]
              && s.ticker.Captured? && s.ticker.changesSeen == |s.changes| && t.changes == s.changes
              && t.key == s.key && t.phase == Grant && EarnedGrant(t.changes, t.key)
              && t.now - t.receivedAt <= PERMIT_LIFE
  {
    hide Run, Apply, EarnedGrant;
    StartHolds(now);
    RunKeeps(Start(now), instance, actions);
  }

  // ---- Expiry ----

  ghost predicate OnlyRepeats(s: Shared, instance: string, actions: seq<Action>) {
    forall i :: 0 <= i < |actions| && actions[i].ReceiveAct? && Parse(actions[i].frame, instance).Some? ==>
      Parse(actions[i].frame, instance).value.key == s.key && Parse(actions[i].frame, instance).value.phase == s.phase
  }

  /** A withdrawn grant: nothing is under way that could enable it again. */
  ghost predicate WithdrawnGrant(s: Shared) {
    s.phase == Grant && !s.enabled && (s.receiver == Waiting || s.receiver == Acknowledging)
  }

  /** The tick's withdrawal leaves such a state. */
  lemma ExpiryWithdraws(s: Shared)
    requires Inv(s) && s.ticker == Expired && s.enabled
    ensures WithdrawnGrant(TickerStep(s)) && TickerStep(s).key == s.key
  {
  }

  /** However the same grant is repeated, a withdrawn permission stays withdrawn. */
  lemma {:induction false} RepeatsDoNotRevive(s: Shared, instance: string, actions: seq<Action>)
    requires WithdrawnGrant(s) && OnlyRepeats(s, instance, actions)
    ensures var t := Run(s, instance, actions);
            WithdrawnGrant(t) && t.key == s.key && t.phase == s.phase && t.published == s.published
    decreases |actions|
  {
    if actions != [] {
      var n := |actions| - 1;
      RepeatsDoNotRevive(s, instance, actions[..n]);
      hide WithdrawnGrant, Apply;
      WithdrawnStep(Run(s, instance, actions[..n]), instance, actions[n]);
    }
  }

  lemma WithdrawnStep(s: Shared, instance: string, a: Action)
    requires WithdrawnGrant(s)
    requires a.ReceiveAct? && Parse(a.frame, instance).Some? ==> !Changes(s, Parse(a.frame, instance).value)
    ensures var t := Apply(s, instance, a);
            WithdrawnGrant(t) && t.key == s.key && t.phase == s.phase && t.published == s.published
  {
    hide Parse;
    if a.TickerAct? { WithdrawnTicker(s); }
    hide TickerStep;
  }

  lemma WithdrawnTicker(s: Shared)
    requires WithdrawnGrant(s)
    ensures var t := TickerStep(s);
            WithdrawnGrant(t) && t.key == s.key && t.phase == s.phase && t.published == s.published
  {
  }

  predicate Permitted(s: Shared) { s.enabled && s.now - s.receivedAt <= PERMIT_LIFE }

  /**
    What repeating the grant does for a permission past its life: it is restored exactly when
    no control tick has withdrawn it in the meantime.
  */
  lemma RepeatRestoresExactlyUnwithdrawn(s: Shared, frame: string, instance: string, stamp: int, rosNow: int)
    requires s.receiver == Waiting && s.phase == Grant && InTime(s, stamp, rosNow)
    requires Parse(frame, instance).Some? && !Changes(s, Parse(frame, instance).value)
    ensures Permitted(Receive(s, frame, instance, stamp, rosNow)) <==> s.enabled
  {
    hide Parse;
  }

  // ---- The receiver undisturbed ----

  function StepsLeft(r: Receiver): nat {
    match r
    case Waiting => 0
    case Acknowledging => 1
    case Permitting => 2
    case GrantingWith(_) => 3
    case Granting => 4
    case Clearing => 5
    case DisablingWith(_) => 6
    case Disabling => 7
  }

  lemma StepMovesOn(s: Shared)
    ensures s.receiver != Waiting ==> StepsLeft(ReceiverStep(s).receiver) < StepsLeft(s.receiver)
  {
  }

  /** The receiver's remaining steps, with nothing in between. */
  function FollowedThrough(s: Shared): Shared
    decreases StepsLeft(s.receiver)
  {
    StepMovesOn(s);
    hide ReceiverStep;
    if s.receiver == Waiting then s else FollowedThrough(ReceiverStep(s))
  }

  lemma FollowsThrough(s: Shared)
    requires s.receiver == Disabling
    ensures var grant, g := s.phase == Grant, s.generation;
            FollowedThrough(s) == s.(
              pipelineEnabled := grant, pipelineGeneration := g, queueEmpty := true, enabled := s.enabled || grant,
              ack := Some(Change(s.key, s.phase)), receiver := Waiting)
  {
    hide FollowedThrough;
    FollowedStep(s);
    FollowedStep(ReceiverStep(s));
    var clearing := s.(pipelineEnabled := false, pipelineGeneration := s.generation, receiver := Clearing);
    FollowedStep(clearing);
    var cleared := ReceiverStep(clearing);
    if s.phase == Grant {
      FollowedStep(cleared);
      FollowedStep(ReceiverStep(cleared));
      var permitting := cleared.(pipelineEnabled := true, receiver := Permitting);
      FollowedStep(permitting);
      FollowedEnd(ReceiverStep(permitting));
    } else {
      FollowedEnd(cleared);
    }
  }

  lemma FollowedStep(s: Shared)
    requires s.receiver != Waiting
    ensures FollowedThrough(s) == FollowedThrough(ReceiverStep(s))
  {
  }

  lemma FollowedEnd(s: Shared)
    requires s.receiver == Acknowledging
    ensures FollowedThrough(s) == s.(ack := Some(Change(s.key, s.phase)), receiver := Waiting)
  {
  }

  /** A fresh "off" silences everything once it is followed through, whatever was permitted. */
  lemma OffIsObeyed(s: Shared, frame: string, instance: string, stamp: int, rosNow: int)
    requires Inv(s) && s.receiver == Waiting && stamp > s.sourceStamp
    requires -50_000_000 <= rosNow - stamp <= 300_000_000
    requires Parse(frame, instance).Some? && Parse(frame, instance).value.phase == Off
    ensures var t := FollowedThrough(Receive(s, frame, instance, stamp, rosNow));
            && !t.enabled && !t.intervention && t.phase == Off && t.key == Parse(frame, instance).value.key
            && (Changes(s, Parse(frame, instance).value) ==>
                  !t.pipelineEnabled && t.queueEmpty && t.ack == Some(Change(t.key, Off)))
  {
    hide Parse;
    var taken := Receive(s, frame, instance, stamp, rosNow);
    if taken.receiver == Disabling { FollowsThrough(taken); }
  }

  /** A fresh grant of the key that was revoked permits publication once it is followed through. */
  lemma GrantIsObeyed(s: Shared, frame: string, instance: string, stamp: int, rosNow: int)
    requires Inv(s) && s.receiver == Waiting && stamp > s.sourceStamp && s.phase == Revoke
    requires -50_000_000 <= rosNow - stamp <= 300_000_000
    requires Parse(frame, instance).Some? && Parse(frame, instance).value.phase == Grant
    requires Parse(frame, instance).value.key == s.key
    ensures var t := FollowedThrough(Receive(s, frame, instance, stamp, rosNow));
            && t.enabled && t.pipelineEnabled && t.intervention && t.receivedAt == s.now
            && t.ack == Some(Change(s.key, Grant)) && t.receiver == Waiting
  {
    hide Parse;
    FollowsThrough(Receive(s, frame, instance, stamp, rosNow));
  }

  /** What is computed in a control tick under a permission that lives on is published, under its key. */
  lemma PermittedIsPublished(s: Shared, instance: string, lag: nat, took: nat)
    requires Inv(s) && s.ticker == Idle && s.enabled && s.pipelineEnabled
    requires s.now + took <= s.receivedAt + 300_000_000
    ensures var t := Run(s, instance, [ReadAct(lag), TickerAct, PublishAct(took)]);
            t.published == s.published + [Publication(s.key, s.now + took)]
  {
    hide Inv;
    var actions := [ReadAct(lag), TickerAct, PublishAct(took)];
    assert actions[..2] == [ReadAct(lag), TickerAct] && [ReadAct(lag), TickerAct][..1] == [ReadAct(lag)];
    assert [ReadAct(lag)][..0] == [];
    EnabledIsIntervention(s);
    assert Run(s, instance, [ReadAct(lag)]) == s.(ticker := Checked);
    assert Run(s, instance, [ReadAct(lag), TickerAct]) ==
      s.(ticker := Captured(s.generation, s.key, |s.changes|));
  }

  lemma EnabledIsIntervention(s: Shared)
    requires Inv(s) && s.enabled
    ensures s.intervention
  {
  }

  // ---- A run that revives an expired permission ----

  lemma {:induction false} RunOn(s: Shared, instance: string, some: seq<Action>, more: seq<Action>)
    ensures Run(s, instance, some + more) == Run(Run(s, instance, some), instance, more)
    decreases |more|
  {
    hide Apply;
    if more == [] {
      assert some + more == some;
    } else {
      var n := |more| - 1;
      assert (some + more)[..|some| + n] == some + more[..n];
      RunOn(s, instance, some, more[..n]);
    }
  }

  lemma RunOne(s: Shared, instance: string, a: Action)
    ensures Run(s, instance, [a]) == Apply(s, instance, a)
  {
    assert [a][..0] == [];
  }

  /** The receiver's own steps, one after the other. */
  lemma {:induction false} FollowRun(s: Shared, instance: string) returns (steps: seq<Action>)
    ensures Run(s, instance, steps) == FollowedThrough(s)
    decreases StepsLeft(s.receiver)
  {
    if s.receiver == Waiting {
      steps := [];
    } else {
      var rest := FollowRun(ReceiverStep(s), instance);
      steps := [ReceiverAct] + rest;
      RunOne(s, instance, ReceiverAct);
      RunOn(s, instance, [ReceiverAct], rest);
    }
  }

  lemma {:induction false} IndexOfEnd(text: string, separator: char, rest: string)
    requires separator !in text
    ensures IndexOf(text, separator) == |text| && IndexOf(text + [separator] + rest, separator) == |text|
    decreases |text|
  {
    if text != "" {
      IndexOfEnd(text[1..], separator, rest);
      assert (text + [separator] + rest)[1..] == text[1..] + [separator] + rest;
    }
  }

  lemma SplitFirst(text: string, separator: char, rest: string)
    requires separator !in text
    ensures Split(text + [separator] + rest, separator) == [text] + Split(rest, separator)
    ensures text != "" ==> Split(text, separator) == [text]
  {
    var all := text + [separator] + rest;
    IndexOfEnd(text, separator, rest);
    assert all[..|text|] == text && all[|text| + 1..] == rest;
  }

  function KeyOf(source: string): string { "hc1:" + ("a:" + ("b:" + ("c:" + (source + (":" + "1"))))) }

  function FrameOf(source: string, phase: string, instance: string): string {
    KeyOf(source) + ("#" + (phase + ("#" + (instance + ("#" + "1")))))
  }

  lemma KeyParses(source: string)
    requires KEY_SEPARATOR !in source
    ensures Identity(KeyOf(source)) == ["hc1", "a", "b", "c", source, "1"]
  {
    hide Split, KeyOf;
    KeySplits(source);
    KeyEnds(source);
  }

  lemma KeyEnds(source: string)
    ensures var key := KeyOf(source); key != "" && key[|key| - 1] != KEY_SEPARATOR
  {
    var tail := source + (":" + "1");
    assert tail[|tail| - 1] == '1';
    EndOf("c:", tail);
    EndOf("b:", "c:" + tail);
    EndOf("a:", "b:" + ("c:" + tail));
    EndOf("hc1:", "a:" + ("b:" + ("c:" + tail)));
  }

  lemma EndOf(head: string, tail: string)
    requires tail != ""
    ensures head + tail != "" && (head + tail)[|head + tail| - 1] == tail[|tail| - 1]
  {
  }

  lemma KeySplits(source: string)
    requires KEY_SEPARATOR !in source
    ensures Split(KeyOf(source), KEY_SEPARATOR) == ["hc1", "a", "b", "c", source, "1"]
  {
    hide Split;
    SplitNext("hc1:", "hc1", KEY_SEPARATOR, "a:" + ("b:" + ("c:" + (source + (":" + "1")))));
    SplitNext("a:", "a", KEY_SEPARATOR, "b:" + ("c:" + (source + (":" + "1"))));
    SplitNext("b:", "b", KEY_SEPARATOR, "c:" + (source + (":" + "1")));
    SplitNext("c:", "c", KEY_SEPARATOR, source + (":" + "1"));
    SplitNext(source + ":", source, KEY_SEPARATOR, "1");
    assert source + (":" + "1") == source + ":" + "1";
    SplitFirst("1", KEY_SEPARATOR, "");
  }

  lemma SplitNext(head: string, text: string, separator: char, rest: string)
    requires separator !in text && head == text + [separator]
    ensures Split(head + rest, separator) == [text] + Split(rest, separator)
  {
    SplitFirst(text, separator, rest);
  }

  /** A keyed frame for this instance is read as what it says. */
  lemma FrameParses(source: string, name: string, instance: string)
    requires (source == "motion" || source == "vr") && PhaseOf(name) != Unset
    requires FRAME_SEPARATOR !in instance && FRAME_SEPARATOR !in name
    ensures Parse(FrameOf(source, name, instance), instance) == Some(Message(KeyOf(source), PhaseOf(name), source))
  {
    hide Split, Identity, PhaseOf, KeyOf;
    assert KEY_SEPARATOR !in source;
    KeyParses(source);
    KeyIsPlain(source);
    var key := KeyOf(source);
    SplitNext(key + "#", key, FRAME_SEPARATOR, name + ("#" + (instance + ("#" + "1"))));
    assert FrameOf(source, name, instance) == key + "#" + (name + ("#" + (instance + ("#" + "1"))));
    SplitNext(name + "#", name, FRAME_SEPARATOR, instance + ("#" + "1"));
    assert name + ("#" + (instance + ("#" + "1"))) == name + "#" + (instance + ("#" + "1"));
    SplitNext(instance + "#", instance, FRAME_SEPARATOR, "1");
    assert instance + ("#" + "1") == instance + "#" + "1";
    SplitFirst("1", FRAME_SEPARATOR, "");
  }

  lemma KeyIsPlain(source: string)
    requires source == "motion" || source == "vr"
    ensures FRAME_SEPARATOR !in KeyOf(source)
  {
  }

  /** Take over a change of phase and let the receiver finish it. */
  lemma Delivered(s: Shared, instance: string, name: string, stamp: int) returns (steps: seq<Action>)
    requires s.receiver == Waiting && stamp > s.sourceStamp && FRAME_SEPARATOR !in instance
    requires name == "revoke" || (name == "grant" && s.key == KeyOf("vr") && s.phase == Revoke)
    requires s.key != KeyOf("vr") || s.phase != PhaseOf(name)
    ensures var t := Run(s, instance, steps);
            && t.receiver == Waiting && t.key == KeyOf("vr") && t.phase == PhaseOf(name)
            && t.receivedAt == s.now == t.now
            && t.sourceStamp == stamp && t.enabled == (name == "grant")
  {
    hide Parse, FollowedThrough, KeyOf, Run;
    var frame := FrameOf("vr", name, instance);
    FrameParses("vr", name, instance);
    var receive := ReceiveAct(frame, stamp, stamp);
    var taken := Apply(s, instance, receive);
    RunOne(s, instance, receive);
    FollowsThrough(taken);
    var rest := FollowRun(taken, instance);
    steps := [receive] + rest;
    RunOn(s, instance, [receive], rest);
  }

  /**
    An expiry that no tick has seen is undone by the next repeat of the grant: after a
    revoke and a grant of the same key, both followed through, the permission outlives
    its life, and the same grant restores it.
  */
  lemma UnseenExpiryIsRevived(now: Time, instance: string) returns (actions: seq<Action>, again: Action)
    requires FRAME_SEPARATOR !in instance
    ensures var s := Run(Start(now), instance, actions);
            && Inv(s) && !Permitted(s) && again.ReceiveAct? && Parse(again.frame, instance).Some?
            && !Changes(s, Parse(again.frame, instance).value)
            && Permitted(Run(Start(now), instance, actions + [again]))
  {
    hide Parse, Run, KeyOf, Inv;
    var start := Start(now);
    assert "vr" != "" && KeyOf("vr") != "" by { KeyParses("vr"); }
    var revoke := Delivered(start, instance, "revoke", 1);
    var revoked := Run(start, instance, revoke);
    var grant := Delivered(revoked, instance, "grant", 2);
    RunOn(start, instance, revoke, grant);
    var granted := Run(revoked, instance, grant);
    var wait := PassTime((PERMIT_LIFE + 1) as nat);
    actions := revoke + grant + [wait];
    RunOn(start, instance, revoke + grant, [wait]);
    RunOne(granted, instance, wait);
    var expired := Apply(granted, instance, wait);
    again := ReceiveAct(FrameOf("vr", "grant", instance), 3, 3);
    FrameParses("vr", "grant", instance);
    RunOn(start, instance, actions, [again]);
    RunOne(expired, instance, again);
    RunKeeps(start, instance, actions) by { StartHolds(now); }
  }

  // ---- The class ----

  class OwnershipGate {
    var shared: Shared
    const instance: string

    constructor (instance: string, now: Time)
      ensures shared == Start(now) && this.instance == instance
    {
      this.instance := instance;
      shared := Start(now);
    }

    /** The locked section of the receiver; what follows a change is up to the steps below. */
    method ReceivePermit(frame: string, stamp: int, rosNow: int) returns (changed: bool)
      requires shared.receiver == Waiting
      modifies this
      ensures shared == Receive(old(shared), frame, instance, stamp, rosNow)
      ensures changed <==> shared.receiver != Waiting
      // A fresh "off" or "revoke" is always obeyed; a fresh grant only for the key that was revoked last.
      ensures var parsed := Parse(frame, instance);
        if parsed.None? || stamp <= old(shared).sourceStamp || rosNow - stamp > 300_000_000
          || stamp - rosNow > 50_000_000
          || (parsed.value.phase == Grant && (parsed.value.key != old(shared).key || old(shared).phase == Off))
        then shared == old(shared)
        else
          && shared.key == parsed.value.key && shared.phase == parsed.value.phase && shared.sourceStamp == stamp
          && shared.receivedAt == old(shared).now
          && (parsed.value.key != old(shared).key || parsed.value.phase != old(shared).phase ==>
                !shared.enabled && shared.ack == None && shared.receiver == Disabling
                && shared.generation == old(shared).generation + 1)
          && (parsed.value.key == old(shared).key && parsed.value.phase == old(shared).phase ==>
                shared.enabled == old(shared).enabled && shared.generation == old(shared).generation)
    {
      hide Parse, Take;
      var parsed := ParseFrame(frame);
      if parsed.None? { return false; }
      var age := rosNow - stamp;
      if stamp <= shared.sourceStamp || age < EARLIEST || age > PERMIT_LIFE { return false; }
      var key, phase, source := parsed.value.key, parsed.value.phase, parsed.value.source;
      if phase == Grant && (key != shared.key || shared.phase == Off) { return false; }
      changed := key != shared.key || phase != shared.phase;
      TakeShows(shared, parsed.value, stamp);
      TakeOver(parsed.value, stamp, changed);
    }

    static lemma TakeShows(s: Shared, m: Message, stamp: int)
      requires s.receiver == Waiting
      ensures var t := Take(s, m, stamp);
              && t.key == m.key && t.phase == m.phase && t.sourceStamp == stamp && t.receivedAt == s.now
              && (m.key != s.key || m.phase != s.phase ==>
                    !t.enabled && t.ack == None && t.receiver == Disabling && t.generation == s.generation + 1)
              && (m.key == s.key && m.phase == s.phase ==> t.enabled == s.enabled && t.generation == s.generation)
    {
    }

    method TakeOver(m: Message, stamp: int, changed: bool)
      requires shared.receiver == Waiting && (changed <==> Changes(shared, m))
      modifies this
      ensures shared == Take(old(shared), m, stamp) && (changed <==> shared.receiver != Waiting)
    {
      var next := shared.(sourceStamp := stamp);
      if changed {
        next := next.(
          enabled := false, generation := next.generation + 1, key := m.key, phase := m.phase, ack := None,
          cutoff := stamp,
          receiver := Disabling, changes := next.changes + [Change(m.key, m.phase)]);
      }
      shared := next.(intervention := m.phase != Off, normal := m.source == "motion", receivedAt := next.now);
    }

    method ParseFrame(frame: string) returns (parsed: Option<Message>)
      ensures parsed == Parse(frame, instance)
    {
      hide Split, Identity, PhaseOf;
      var fields := Split(frame, FRAME_SEPARATOR);
      if |fields| != 4 || fields[2] != instance { return None; }
      var key, phase := fields[0], PhaseOf(fields[1]);
      if phase == Unset { return None; }
      var identity := Identity(key);
      if |identity| != 6 || identity[0] != "hc1" { return None; }
      var source := identity[4];
      if phase == Grant && source != "motion" && source != "vr" { return None; }
      return Some(Message(key, phase, source));
    }

    /**
      What follows a change: the pipeline is disabled, queued input dropped, a grant enabled,
      the change acknowledged.
    */
    method FollowChange()
      requires shared.receiver == Disabling
      modifies this
      ensures shared == FollowedThrough(old(shared))
      ensures shared.pipelineEnabled == (old(shared).phase == Grant) && shared.queueEmpty
      ensures shared.pipelineGeneration == old(shared).generation == shared.generation
      ensures shared.enabled == (old(shared).enabled || old(shared).phase == Grant)
      ensures shared.receiver == Waiting && shared.ack == Some(Change(old(shared).key, old(shared).phase))
    {
      FollowsThrough(shared);
      var grant := shared.phase == Grant;
      shared := shared.(pipelineEnabled := false, pipelineGeneration := shared.generation);
      shared := shared.(queueEmpty := true);
      if grant {
        shared := shared.(pipelineEnabled := true, pipelineGeneration := shared.generation);
        shared := shared.(enabled := true);
      }
      shared := shared.(ack := Some(Change(shared.key, shared.phase)), receiver := Waiting);
    }

    /** The first part of a control tick: withdraw an expired permission, then capture the generation and key. */
    method BeginTick(steadyNow: Time) returns (generation: nat, key: string)
      requires shared.ticker == Idle && steadyNow <= shared.now
      modifies this
      ensures shared == (
        var expired := steadyNow - old(shared).receivedAt > PERMIT_LIFE && old(shared).enabled;
        var g := if expired then old(shared).generation + 1 else old(shared).generation;
        var checked := if expired
          then old(shared).(enabled := false, generation := g, pipelineEnabled := false, pipelineGeneration := g)
          else old(shared);
        checked.(ticker := Captured(g, old(shared).key, |old(shared).changes|)))
      ensures generation == shared.generation && key == shared.key
    {
      shared := ReadExpiry(shared, shared.now - steadyNow);
      if shared.ticker == Expired {
        var was := shared.enabled;
        shared := TickerStep(shared);
        if was {
          shared := TickerStep(shared);
          shared := TickerStep(shared);
        }
      }
      shared := TickerStep(shared);
      generation, key := shared.generation, shared.key;
    }

    /** The publication guard. */
    method PublishOwned(took: nat) returns (sent: bool)
      requires shared.ticker.Captured?
      modifies this
      ensures shared == Publish(old(shared), took)
      ensures sent <==> MayPublish(old(shared), took)
      // A command is published, under the captured key, exactly while it is permitted.
      ensures sent <==>
        && old(shared).enabled && old(shared).pipelineEnabled && old(shared).intervention
        && old(shared).ticker.generation == old(shared).generation
        && old(shared).now + took <= old(shared).receivedAt + 300_000_000
      ensures shared.published == old(shared).published +
        if sent then [Publication(old(shared).ticker.key, old(shared).now + took)] else []
    {
      var start := shared;
      sent := false;
      shared := shared.(now := shared.now + took, ticker := Idle);
      if !start.pipelineEnabled || !start.enabled || start.ticker.generation != start.generation
        || !start.intervention { return; }
      if shared.now - shared.receivedAt > PERMIT_LIFE { return; }
      shared := shared.(published := shared.published + [Publication(start.ticker.key, shared.now)]);
      sent := true;
    }
  }
}
