/**
  The SDK adapter. What the closed SDK answers is arbitrary; modelled are the live
  sessions and, for MoveP, the waypoint each tick pursues.
*/
module SdkBackend {
  import opened MotionTypes

  datatype BackendSession = BackendSession(kind: Kind, waypoints: nat, waypointIndex: nat)

  /** The reports of "reached", each tagged with the waypoint then pursued, visit the waypoints in order. */
  ghost predicate InOrder(reports: seq<nat>, pursued: nat) {
    && |reports| >= pursued
    && (forall k :: 0 <= k < pursued ==> reports[k] == k)
    && (forall k :: pursued <= k < |reports| ==> reports[k] == pursued)
  }

  /** Every waypoint was reported reached, the first to the last, before any was repeated. */
  ghost predicate AllReachedInOrder(reports: seq<nat>, waypoints: nat) {
    && |reports| >= waypoints
    && forall k :: 0 <= k < waypoints ==> reports[k] == k
  }

  ghost predicate Progress(session: BackendSession, reports: seq<nat>) {
    session.kind == MoveP ==>
      && (session.waypoints > 0 ==> session.waypointIndex < session.waypoints)
      && InOrder(reports, session.waypointIndex)
      && (session.waypointIndex + 1 < session.waypoints ==> |reports| == session.waypointIndex)
  }

  /**
    One start of a session: whose it is, for which group, what it was asked for, and what the
    SDK has reported reached since.
  */
  datatype Start = Start(owner: nat, group: string, kind: Kind, waypoints: nat, reports: seq<nat>)

  /** The path of a start has been reached: for a MoveP every waypoint in order, else at least once. */
  ghost predicate PathReached(start: Start) {
    && start.reports != []
    && (start.kind == MoveP ==> AllReachedInOrder(start.reports, start.waypoints))
  }

  /** Starts are only added, and what was reported of a start is only added to. */
  ghost predicate StartsGrow(before: seq<Start>, after: seq<Start>) {
    && |before| <= |after|
    && forall k :: 0 <= k < |before| ==>
         after[k] == before[k].(reports := after[k].reports) && before[k].reports <= after[k].reports
  }

  lemma StartsGrowTransitive(a: seq<Start>, b: seq<Start>, c: seq<Start>)
    requires StartsGrow(a, b) && StartsGrow(b, c)
    ensures StartsGrow(a, c)
  {
  }

  lemma PathStaysReached(before: seq<Start>, after: seq<Start>, k: nat)
    requires StartsGrow(before, after) && k < |before| && PathReached(before[k])
    ensures PathReached(after[k])
  {
  }

  /** One more report for the start at `k`, or none. */
  ghost predicate Heard(before: seq<Start>, after: seq<Start>, k: nat)
    requires k < |before|
  {
    && |after| == |before| && after == before[k := after[k]]
    && after[k] == before[k].(reports := after[k].reports)
    && before[k].reports <= after[k].reports && |after[k].reports| <= |before[k].reports| + 1
  }

  /** An answer of the SDK, and what it was asked. */
  datatype Answer =
    | ToStart(id: Id, code: Code)
    | ToReset(group: string, code: Code)
    | ToTick(id: Id, code: Code, candidate: JointCommand)
    | ToShape(group: string, asked: JointCommand, code: Code, output: JointCommand)
    | ToRebase(group: string, state: JointTarget, code: Code)

  /** The closed SDK may answer anything; its answers are kept in order, and nothing depends on them. */
  class Sdk {
    ghost var answers: seq<Answer>

    constructor ()
      ensures answers == []
    {
      answers := [];
    }

    method Start(id: Id) returns (code: Code)
      modifies this
      ensures answers == old(answers) + [ToStart(id, code)]
    {
      code := *;
      answers := answers + [ToStart(id, code)];
    }

    method Tick(id: Id) returns (code: Code, candidate: JointCommand, reached: bool)
      modifies this
      ensures answers == old(answers) + [ToTick(id, code, candidate)]
    {
      code, candidate, reached := *, *, *;
      answers := answers + [ToTick(id, code, candidate)];
    }

    method Reset(group: string) returns (code: Code)
      modifies this
      ensures answers == old(answers) + [ToReset(group, code)]
    {
      code := *;
      answers := answers + [ToReset(group, code)];
    }

    method Rebase(group: string, state: JointTarget) returns (code: Code)
      modifies this
      ensures answers == old(answers) + [ToRebase(group, state, code)]
    {
      code := *;
      answers := answers + [ToRebase(group, state, code)];
    }

    method Shape(group: string, asked: JointCommand) returns (code: Code, output: JointCommand)
      modifies this
      ensures answers == old(answers) + [ToShape(group, asked, code, output)]
    {
      code, output := *, *;
      answers := answers + [ToShape(group, asked, code, output)];
    }
  }

  class SdkMotionBackend {
    const sdk: Sdk
    var sessions: map<Id, BackendSession>
    var stopped: set<Id>
    /** Every start ever, and the starts of the live sessions. */
    ghost var starts: seq<Start>
    ghost var current: map<Id, nat>

    ghost predicate Valid()
      reads this
    {
      && current.Keys == sessions.Keys
      && forall id :: id in sessions ==> Runs(id)
    }

    ghost predicate Runs(id: Id)
      requires id in sessions
      reads this
    {
      && id in current && current[id] < |starts|
      && starts[current[id]].kind == sessions[id].kind && starts[current[id]].waypoints == sessions[id].waypoints
      && Progress(sessions[id], starts[current[id]].reports)
      && forall other :: other in current && other != id ==> current[other] != current[id]
    }

    constructor ()
      ensures Valid() && sessions == map[] && stopped == {} && starts == [] && current == map[]
      ensures fresh(sdk) && sdk.answers == []
    {
      sdk := new Sdk();
      sessions, stopped, starts, current := map[], {}, [], map[];
    }

    method StartSession(id: Id, kind: Kind, waypoints: nat, period: real, ghost owner: nat, ghost group: string)
      returns (code: Code)
      requires Valid()
      modifies this, sdk
      ensures Valid()
      ensures id in old(sessions) || id == "" || period <= 0.0 ==> code != OK
      ensures id !in old(sessions) && id != "" && period > 0.0 ==>
        sdk.answers == old(sdk.answers) + [ToStart(id, code)]
      ensures code == OK ==>
        && sessions == old(sessions)[id := BackendSession(kind, waypoints, 0)] && stopped == old(stopped) - {id}
        && starts == old(starts) + [Start(owner, group, kind, waypoints, [])]
        && current == old(current)[id := |old(starts)|]
      ensures code != OK ==>
        sessions == old(sessions) && stopped == old(stopped) && starts == old(starts) && current == old(current)
    {
      if id == "" || period <= 0.0 { return INVALID_ARGUMENT; }
      if id in sessions { return INVALID_ARGUMENT; }
      code := sdk.Start(id);
      if code != OK { return; }
      stopped := stopped - {id};
      sessions := sessions[id := BackendSession(kind, waypoints, 0)];
      current := current[id := |starts|];
      starts := starts + [Start(owner, group, kind, waypoints, [])];
    }

    /** The SDK reported the current waypoint, or the path, reached. */
    method CountReport(id: Id) returns (pathReached: bool)
      requires Valid() && id in sessions && id in current && current[id] < |starts|
      requires sessions[id].kind == MoveP ==> sessions[id].waypointIndex < sessions[id].waypoints
      modifies this`sessions, this`starts
      ensures Valid() && sessions ==
        old(sessions)[id := old(sessions)[id].(waypointIndex := sessions[id].waypointIndex)]
      ensures var k, reported := current[id], [old(sessions)[id].waypointIndex];
              starts == old(starts)[k := old(starts)[k].(reports := old(starts)[k].reports + reported)]
      ensures pathReached <==> PathReached(starts[current[id]])
    {
      assert Runs(id);
      var session := sessions[id];
      ghost var k := current[id];
      pathReached := true;
      starts := starts[k := starts[k].(reports := starts[k].reports + [session.waypointIndex])];
      if session.kind == MoveP && session.waypointIndex + 1 < session.waypoints {
        sessions := sessions[id := session.(waypointIndex := session.waypointIndex + 1)];
        pathReached := false;
      }
      forall other | other in sessions && other != id ensures Runs(other) {
        assert old(Runs(other));
      }
    }

    /** The path counts as reached in the tick whose report completes it: for a MoveP, with every waypoint in order. */
    method TickSession(id: Id, period: real) returns (code: Code, candidate: JointCommand, pathReached: bool)
      requires Valid()
      modifies this, sdk
      ensures Valid() && sessions.Keys == old(sessions).Keys && stopped == old(stopped) && current == old(current)
      ensures forall other :: other in sessions && other != id ==> sessions[other] == old(sessions)[other]
      ensures id !in sessions ==>
        code == NOT_CONFIGURED && sessions == old(sessions) && starts == old(starts) && !pathReached
      ensures id in sessions ==>
        && sessions[id].kind == old(sessions)[id].kind && sessions[id].waypoints == old(sessions)[id].waypoints
        && current[id] < |old(starts)| && Heard(old(starts), starts, current[id])
      ensures pathReached ==> code == OK
      ensures id in sessions && code == OK ==>
        (pathReached <==>
          && |starts[current[id]].reports| > |old(starts)[current[id]].reports|
          && PathReached(starts[current[id]]))
      ensures
        && id in old(sessions) && period > 0.0
        && (old(sessions)[id].kind != MoveP || old(sessions)[id].waypoints > 0) ==>
        sdk.answers == old(sdk.answers) + [ToTick(id, code, candidate)]
    {
      hide Progress, PathReached;
      candidate := *;
      pathReached := false;
      if id !in sessions { code := NOT_CONFIGURED; return; }
      assert Runs(id);
      if period <= 0.0 { code := INVALID_ARGUMENT; return; }
      var session := sessions[id];
      WithinPath(session, starts[current[id]].reports);
      if session.kind == MoveP && session.waypointIndex >= session.waypoints { code := SDK_ERROR; return; }
      var reached: bool;
      code, candidate, reached := sdk.Tick(id);
      // A servo has no path, and a failing SDK reports nothing; an exception may still follow a report.
      if session.kind == ServoJ || (code != OK && code != SDK_ERROR) || !reached { return; }
      var counted := CountReport(id);
      pathReached := counted && code == OK;
    }

    static lemma WithinPath(session: BackendSession, reports: seq<nat>)
      requires Progress(session, reports)
      ensures session.kind == MoveP && session.waypoints > 0 ==> session.waypointIndex < session.waypoints
    {
    }

    method StopSession(id: Id)
      requires Valid()
      modifies this
      ensures Valid() && sessions == old(sessions) - {id} && stopped == old(stopped) + {id}
      ensures starts == old(starts) && current == old(current) - {id}
    {
      sessions := sessions - {id};
      current := current - {id};
      stopped := stopped + {id};
    }

    /** Resetting or rebasing the final RTC of a group; the SDK may refuse. */
    method ResetFinalJointTarget(group: string) returns (code: Code)
      modifies sdk
      ensures sdk.answers == old(sdk.answers) + [ToReset(group, code)]
    {
      code := sdk.Reset(group);
    }

    method RebaseFinalJointTarget(group: string, state: JointTarget) returns (code: Code)
      modifies sdk
      ensures sdk.answers == old(sdk.answers) + [ToRebase(group, state, code)]
    {
      code := sdk.Rebase(group, state);
    }

    /** The final RTC may return anything at all. */
    method UpdateFinalJointTarget(group: string, candidate: JointCommand, period: real)
      returns (code: Code, output: JointCommand)
      modifies sdk
      ensures sdk.answers == old(sdk.answers) + [ToShape(group, candidate, code, output)]
    {
      code, output := sdk.Shape(group, candidate);
    }
  }
}
