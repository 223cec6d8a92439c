/**
  Executing a pose by several MoveJ goals while holding the teleop control. What the
  action servers answer, and when, is arbitrary; answers arrive only while the executor
  spins. Control is given back only once every goal that was sent was refused or has a
  finished result.
*/
module PoseExecution {
  import opened MotionTypes

  datatype Acceptance = Undecided | Accepted | Refused | Broken

  datatype Result = Running | Finished(succeeded: bool) | Failed

  /** Answers are final. */
  ghost predicate Later(before: seq<Acceptance>, results: seq<Result>, after: seq<Acceptance>, later: seq<Result>) {
    && |after| == |before| && |later| == |results|
    && (forall i :: 0 <= i < |before| && before[i] != Undecided ==> after[i] == before[i])
    && (forall i :: 0 <= i < |results| && results[i] != Running ==> later[i] == results[i])
  }

  /** The goal was accepted and has no result yet. */
  ghost predicate Runs(acceptance: seq<Acceptance>, results: seq<Result>, i: nat) {
    i < |acceptance| && i < |results| && acceptance[i] == Accepted && results[i] == Running
  }

  /**
    The goals that were sent, what is known of them, and which were asked to cancel. `trouble`
    tells whether preparing, sending or waiting failed or ran out of time.
  */
  class Goals {
    var acceptance: seq<Acceptance>
    var results: seq<Result>
    var canceled: set<nat>
    ghost var trouble: bool

    constructor ()
      ensures acceptance == [] && results == [] && canceled == {} && !trouble
    {
      acceptance, results, canceled, trouble := [], [], {}, false;
    }

    ghost predicate Valid()
      reads this
    {
      |acceptance| == |results|
    }

    /** Refused, or accepted with a finished result. */
    ghost predicate Settled()
      reads this
    {
      && Valid()
      && forall i :: 0 <= i < |acceptance| ==>
           acceptance[i] == Refused || (acceptance[i] == Accepted && results[i].Finished?)
    }

    ghost predicate AllSucceeded()
      reads this
    {
      Valid() && forall i :: 0 <= i < |acceptance| ==> acceptance[i] == Accepted && results[i] == Finished(true)
    }

    /** Some goal was answered for good, and not by success. */
    ghost predicate SomeFailed()
      reads this
    {
      && Valid()
      && exists i ::
           && 0 <= i < |acceptance|
           && (acceptance[i] in {Refused, Broken} || results[i] in {Failed, Finished(false)})
    }

    /** Sending may raise; then the goal does not count as sent. */
    method Send() returns (sent: bool)
      requires Valid()
      modifies this`acceptance, this`results, this`trouble
      ensures Valid() && trouble == (old(trouble) || !sent)
      ensures acceptance == old(acceptance) + (if sent then [Undecided] else [])
      ensures results == old(results) + (if sent then [Running] else [])
    {
      sent := *;
      if !sent {
        trouble := true;
        return;
      }
      acceptance, results := acceptance + [Undecided], results + [Running];
    }

    /** Preparing the node and its clients may raise. */
    method Prepare() returns (prepared: bool)
      modifies this`trouble
      ensures trouble == (old(trouble) || !prepared)
    {
      prepared := *;
      if !prepared { trouble := true; }
    }

    /** Time may run out at any moment, and is over after so many spins. */
    method OutOfTime(spins: int) returns (late: bool)
      modifies this`trouble
      ensures trouble == (old(trouble) || late) && (spins <= 0 ==> late)
    {
      late := *;
      if spins <= 0 { late := true; }
      if late { trouble := true; }
    }

    /** Ask the goal to cancel; asking may raise. */
    method Cancel(i: nat) returns (raised: bool)
      modifies this`canceled
      ensures canceled == old(canceled) + {i}
    {
      canceled := canceled + {i};
      raised := *;
    }

    /** Any answers may arrive. */
    method Spin()
      requires Valid()
      modifies this`acceptance, this`results
      ensures Valid() && Later(old(acceptance), old(results), acceptance, results)
    {
      var k := 0;
      while k < |acceptance|
        invariant Valid() && Later(old(acceptance), old(results), acceptance, results) && k <= |acceptance|
        decreases |acceptance| - k
      {
        var decided: Acceptance := *;
        var result: Result := *;
        if acceptance[k] == Undecided { acceptance := acceptance[k := decided]; }
        if results[k] == Running { results := results[k := result]; }
        k := k + 1;
      }
    }

    predicate AllDecided()
      reads this
    {
      forall i :: 0 <= i < |acceptance| ==> acceptance[i] != Undecided
    }
  }

  /** Cancellation may be requested at any moment and is never taken back. */
  class CancelEvent {
    var requested: bool

    constructor () { requested := false; }

    method IsSet() returns (b: bool)
      modifies this
      ensures b == requested && (old(requested) ==> requested)
    {
      var now: bool := *;
      requested := requested || now;
      b := requested;
    }
  }

  datatype Outcome = Completed | Error(mayBeActive: bool)

  // ---- The goals of one pose ----

  /** Spin until every goal is decided or the time is up; any number of spins may fit into it. */
  method SpinUntilDecided(goals: Goals) returns (complete: bool)
    requires goals.Valid()
    modifies goals`acceptance, goals`results, goals`trouble
    ensures goals.Valid() && Later(old(goals.acceptance), old(goals.results), goals.acceptance, goals.results)
    ensures complete <==> goals.AllDecided()
    ensures !complete ==> goals.trouble
    ensures complete ==> goals.trouble == old(goals.trouble)
  {
    var spins :| spins >= 0;
    while !goals.AllDecided()
      invariant goals.Valid() && Later(old(goals.acceptance), old(goals.results), goals.acceptance, goals.results)
      invariant goals.trouble == old(goals.trouble)
      decreases spins
    {
      var late := goals.OutOfTime(spins);
      if late { return false; }
      goals.Spin();
      spins := spins - 1;
    }
    complete := true;
  }

  /** The goals accepted so far, each listed once. */
  ghost predicate Lists(accepted: seq<nat>, goals: Goals)
    reads goals
  {
    && goals.Valid() && Unique(accepted)
    && forall i :: i in accepted ==> i < |goals.acceptance| && goals.acceptance[i] == Accepted
  }

  method ReadAcceptance(goals: Goals) returns (accepted: seq<nat>, errors: bool)
    requires goals.Valid()
    ensures Lists(accepted, goals)
    ensures forall i :: 0 <= i < |goals.acceptance| && goals.acceptance[i] == Accepted ==> i in accepted
    ensures errors <==>
      exists i :: 0 <= i < |goals.acceptance| && (goals.acceptance[i] == Broken || goals.acceptance[i] == Refused)
  {
    accepted, errors := [], false;
    for k := 0 to |goals.acceptance|
      invariant Lists(accepted, goals) && forall i :: i in accepted ==> i < k
      invariant forall i :: 0 <= i < k && goals.acceptance[i] == Accepted ==> i in accepted
      invariant errors <==> exists i :: 0 <= i < k && (goals.acceptance[i] == Broken || goals.acceptance[i] == Refused)
    {
      match goals.acceptance[k]
      case Undecided =>
      case Accepted => accepted := accepted + [k];
      case _ => errors := true;
    }
  }

  /** Wait for the results of the accepted goals; any failure, cancellation or timeout raises. */
  method WaitForResults(goals: Goals, accepted: seq<nat>, cancel: CancelEvent) returns (ok: bool)
    requires goals.Valid() && Lists(accepted, goals)
    modifies goals`acceptance, goals`results, goals`trouble, cancel
    ensures goals.Valid() && Later(old(goals.acceptance), old(goals.results), goals.acceptance, goals.results)
    ensures Lists(accepted, goals) && (old(cancel.requested) ==> cancel.requested)
    ensures ok ==> forall i :: i in accepted ==> goals.results[i] == Finished(true)
    ensures !ok ==> cancel.requested || goals.trouble || goals.SomeFailed()
  {
    var spins :| spins >= 0;
    while exists i :: i in accepted && goals.results[i] == Running
      invariant goals.Valid() && Later(old(goals.acceptance), old(goals.results), goals.acceptance, goals.results)
      invariant Lists(accepted, goals) && (old(cancel.requested) ==> cancel.requested)
      decreases spins
    {
      var canceled := cancel.IsSet();
      if canceled { return false; }
      var late := goals.OutOfTime(spins);
      if late { return false; }
      goals.Spin();
      spins := spins - 1;
      if exists i :: i in accepted && goals.results[i] != Running && goals.results[i] != Finished(true) {
        return false;
      }
    }
    ok := forall i :: i in accepted ==> goals.results[i] == Finished(true);
  }

  /** Goals accepted late are owned too. */
  method AddLateAcceptances(goals: Goals, accepted: seq<nat>) returns (all: seq<nat>)
    requires Lists(accepted, goals)
    ensures Lists(all, goals)
    ensures forall i :: 0 <= i < |goals.acceptance| && goals.acceptance[i] == Accepted ==> i in all
  {
    all := accepted;
    for k := 0 to |goals.acceptance|
      invariant Lists(all, goals)
      invariant forall i :: 0 <= i < k && goals.acceptance[i] == Accepted ==> i in all
    {
      if goals.acceptance[k] == Accepted && k !in all {
        all := all + [k];
      }
    }
  }

  /**
    After a failure: request cancellation of every accepted goal and wait for all of them.
    The motion is uncertain exactly if asking or waiting raised an exception or some goal sent
    is neither refused nor accepted and finished. Whatever runs on was asked to cancel.
  */
  method CleanUp(goals: Goals, accepted: seq<nat>) returns (uncertain: bool, ghost raised: bool)
    requires Lists(accepted, goals)
    modifies goals`acceptance, goals`results, goals`canceled
    ensures goals.Valid() && Later(old(goals.acceptance), old(goals.results), goals.acceptance, goals.results)
    ensures uncertain <==> raised || !goals.Settled()
    ensures forall i :: Runs(old(goals.acceptance), old(goals.results), i) ==> i in goals.canceled
    ensures !raised ==> forall i :: Runs(goals.acceptance, goals.results, i) ==> i in goals.canceled
  {
    uncertain, raised := false, false;
    var owned := accepted;
    var spins :| spins >= 0;
    var asked := false;
    while goals.acceptance != []
      invariant Lists(owned, goals) && uncertain == raised
      invariant Later(old(goals.acceptance), old(goals.results), goals.acceptance, goals.results)
      invariant !asked ==> goals.acceptance == old(goals.acceptance) && goals.results == old(goals.results)
      invariant asked ==> forall i :: Runs(old(goals.acceptance), old(goals.results), i) ==> i in goals.canceled
      decreases spins
    {
      owned := AddLateAcceptances(goals, owned);
      var refused := CancelRunning(goals, owned);
      asked := true;
      uncertain, raised := uncertain || refused, raised || refused;
      if (goals.AllDecided() && forall i :: i in owned ==> goals.results[i] != Running) || spins <= 0 { break; }
      goals.Spin();
      spins := spins - 1;
      var interrupted: bool := *;
      if interrupted { return true, true; }
    }
    uncertain := uncertain
      || (exists i ::
         0 <= i < |goals.acceptance| && (goals.acceptance[i] == Undecided || goals.acceptance[i] == Broken))
      || (exists i :: i in owned && !goals.results[i].Finished?);
  }

  /** Each running goal is asked to cancel once; asking may fail. */
  method CancelRunning(goals: Goals, owned: seq<nat>) returns (failed: bool)
    requires Lists(owned, goals)
    modifies goals`canceled
    ensures Lists(owned, goals)
    ensures forall i :: i in owned && goals.results[i] == Running ==> i in goals.canceled
    ensures old(goals.canceled) <= goals.canceled
  {
    failed := false;
    for k := 0 to |owned|
      invariant Lists(owned, goals) && old(goals.canceled) <= goals.canceled
      invariant forall i :: i in owned[..k] ==> i in owned && (goals.results[i] == Running ==> i in goals.canceled)
    {
      assert owned[k] in owned && owned[..k + 1] == owned[..k] + [owned[k]];
      if goals.results[owned[k]] == Running && owned[k] !in goals.canceled {
        var raised := goals.Cancel(owned[k]);
        failed := failed || raised;
      }
    }
    assert owned[..|owned|] == owned;
  }

  /** Send the goals and see them through; preparing or sending may fail half way. */
  method SendAndWait(goals: Goals, count: nat, cancel: CancelEvent) returns (ok: bool, accepted: seq<nat>)
    requires goals.acceptance == [] && goals.results == [] && !goals.trouble
    modifies goals`acceptance, goals`results, goals`trouble, cancel
    ensures Lists(accepted, goals) && |goals.acceptance| <= count && (old(cancel.requested) ==> cancel.requested)
    ensures ok ==> |goals.acceptance| == count && goals.AllSucceeded()
    ensures !ok ==> cancel.requested || goals.trouble || goals.SomeFailed()
  {
    accepted := [];
    var prepared := goals.Prepare();
    var canceled := cancel.IsSet();
    if !prepared || canceled { return false, accepted; }
    for k := 0 to count
      invariant goals.Valid() && |goals.acceptance| == k && (old(cancel.requested) ==> cancel.requested)
    {
      var sent := goals.Send();
      if !sent { return false, accepted; }
    }
    var complete := SpinUntilDecided(goals);
    var errors: bool;
    accepted, errors := ReadAcceptance(goals);
    if !complete || errors { return false, accepted; }
    assert forall i :: 0 <= i < |goals.acceptance| ==> goals.acceptance[i] == Accepted;
    ok := WaitForResults(goals, accepted, cancel);
  }

  /**
    Every error says whether a goal may still be active; it says no exactly when every goal
    sent was refused or has a finished result and the cleanup raised no exception. Nothing is
    asked to cancel unless there is an error, and then whatever was accepted and runs on. Without
    trouble or cancellation, goals that all succeed complete the pose.
  */
  method ExecuteMoveJPose(count: nat, cancel: CancelEvent) returns (outcome: Outcome, goals: Goals, ghost raised: bool)
    modifies cancel
    ensures fresh(goals) && goals.Valid() && |goals.acceptance| <= count && (old(cancel.requested) ==> cancel.requested)
    ensures outcome.Completed? ==> count > 0 && |goals.acceptance| == count && goals.AllSucceeded()
    ensures outcome.Error? ==> (outcome.mayBeActive <==> raised || !goals.Settled())
    ensures outcome.Completed? ==> goals.canceled == {}
    ensures outcome.Error? && !raised ==>
      forall i :: Runs(goals.acceptance, goals.results, i) ==> i in goals.canceled
    ensures count > 0 && |goals.acceptance| == count && goals.AllSucceeded() && !goals.trouble && !cancel.requested ==>
      outcome.Completed?
  {
    goals := new Goals();
    raised := false;
    if count == 0 { return Error(false), goals, raised; }
    var ok, accepted := SendAndWait(goals, count, cancel);
    if ok { return Completed, goals, raised; }
    var uncertain: bool;
    uncertain, raised := CleanUp(goals, accepted);
    return Error(uncertain), goals, raised;
  }

  // ---- Holding the teleop control ----

  datatype Control = Acquire | Release | Resume

  /** The control requests made, and whether each was confirmed. */
  datatype Request = Request(control: Control, confirmed: bool)

  class Receiver {
    var requests: seq<Request>

    constructor ()
      ensures requests == []
    {
      requests := [];
    }

    method Ask(control: Control) returns (confirmed: bool)
      modifies this
      ensures requests == old(requests) + [Request(control, confirmed)]
    {
      confirmed := *;
      requests := requests + [Request(control, confirmed)];
    }
  }

  predicate Asked(requests: seq<Request>, control: Control) {
    exists i :: 0 <= i < |requests| && requests[i].control == control
  }

  /** What may have been asked of the receiver, by how the motion ended. */
  ghost predicate Protocol(requests: seq<Request>, outcome: Outcome, goals: Goals?)
    reads goals
  {
    && |requests| <= 3
    && (|requests| > 0 ==> requests[0].control == Acquire)
    && (|requests| > 1 ==>
          && requests[0].confirmed && requests[1].control == Release
          && (goals != null ==> goals.Settled()))
    && (|requests| > 2 ==>
          && requests[1].confirmed && requests[2].control == Resume
          && goals != null && goals.AllSucceeded())
    && (outcome.Completed? ==> goals != null && goals.AllSucceeded())
  }

  /**
    Own the teleop control through completion or cancellation. It is released only when
    every goal sent was refused or is finished, and resumed only after complete success
    that was not cancelled.
  */
  method ExecutePoseWithTeleop(count: nat, cancel: CancelEvent, receiver: Receiver, present: bool, resumeAfter: bool)
    returns (outcome: Outcome, goals: Goals?)
    requires receiver.requests == []
    modifies cancel, receiver
    ensures Protocol(receiver.requests, outcome, goals)
    ensures goals != null && !goals.Settled() ==>
      !Asked(receiver.requests, Release) && !Asked(receiver.requests, Resume)
    ensures Asked(receiver.requests, Resume) ==> resumeAfter && outcome != Error(true)
    ensures Asked(receiver.requests, Resume) ==> !cancel.requested && !old(cancel.requested)
    ensures present && outcome.Completed? && resumeAfter && !cancel.requested ==> Asked(receiver.requests, Resume)
    ensures !present ==> receiver.requests == []
    ensures present && goals != null && goals.Settled() && !(outcome.Error? && outcome.mayBeActive) ==>
      Asked(receiver.requests, Release)
  {
    goals := null;
    var canceled := cancel.IsSet();
    if canceled { return Error(false), goals; }
    var acquired := false;
    if present {
      acquired := receiver.Ask(Acquire);
      if !acquired { return Error(false), goals; }
    }
    canceled := cancel.IsSet();
    if canceled {
      outcome := GiveBack(cancel, receiver, acquired, false, resumeAfter, Error(false));
      return outcome, goals;
    }
    var ran: Goals;
    ghost var raised: bool;
    outcome, ran, raised := ExecuteMoveJPose(count, cancel);
    goals := ran;
    if outcome.Error? && outcome.mayBeActive { return outcome, goals; }
    SucceededIsSettled(ran);
    outcome := GiveBack(cancel, receiver, acquired, outcome.Completed?, resumeAfter, outcome);
  }

  lemma SucceededIsSettled(goals: Goals)
    ensures goals.AllSucceeded() ==> goals.Settled()
  {
  }

  /** Release the control if it was acquired; a release that is not confirmed leaves the motion uncertain. */
  method GiveBack(
    cancel: CancelEvent, receiver: Receiver, acquired: bool, completed: bool, resumeAfter: bool, outcome: Outcome)
    returns (final: Outcome)
    modifies cancel, receiver
    ensures old(cancel.requested) ==> cancel.requested
    ensures cancel.requested ==> |receiver.requests| <= |old(receiver.requests)| + 1
    ensures acquired && completed && resumeAfter && !cancel.requested && final == outcome && outcome.Completed? ==>
      |receiver.requests| == |old(receiver.requests)| + 2
    ensures !acquired ==> final == outcome && receiver.requests == old(receiver.requests)
    ensures acquired ==>
      exists released ::
        Returned(old(receiver.requests), receiver.requests, released, completed, resumeAfter, outcome, final)
  {
    final := outcome;
    if !acquired { return; }
    var released := receiver.Ask(Release);
    if !released {
      final := Error(true);
      assert Returned(old(receiver.requests), receiver.requests, false, completed, resumeAfter, outcome, final);
      return;
    }
    if completed && resumeAfter {
      var canceled := cancel.IsSet();
      if !canceled {
        var resumed := receiver.Ask(Resume);
        if !resumed { final := Error(false); }
      }
    }
    assert Returned(old(receiver.requests), receiver.requests, true, completed, resumeAfter, outcome, final);
  }

  ghost predicate Returned(
    before: seq<Request>, after: seq<Request>, released: bool, completed: bool, resumeAfter: bool, outcome: Outcome,
    final: Outcome)
  {
    var handed := before + [Request(Release, released)];
    if !released then after == handed && final == Error(true)
    else
      || (after == handed && final == outcome)
      || (completed && resumeAfter && exists resumed ::
            after == handed + [Request(Resume, resumed)] && final == if resumed then outcome else Error(false))
  }
}
