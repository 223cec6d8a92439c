/**
  Source timestamps of one input topic. A stamped input is accepted when it is neither
  stale nor too far ahead and newer than every stamp accepted since ROS time last went
  back; its freshness counts from its stamp, an unstamped input's from its receipt.
*/
module InputTimestamps {
  import opened MotionTypes

  datatype Rules = Rules(maxAge: Time, futureTolerance: Time, requireStamp: bool)

  datatype Tracker = Tracker(lastStamp: int, lastRosNow: int)

  datatype Input = Input(stamp: int, rosNow: int, receivedAt: Time)

  datatype Verdict = Negative | NeedsStamp | OutsideAge | OutOfOrder | Accepted(freshAt: Time)

  const FRESH_TRACKER := Tracker(0, 0)

  function Judged(tracker: Tracker, input: Input, rules: Rules): (r: (Tracker, Verdict)) {
    if input.rosNow < 0 || input.stamp < 0 then (tracker, Negative)
    else
      var lastStamp := if input.rosNow < tracker.lastRosNow then 0 else tracker.lastStamp;
      var seen := Tracker(lastStamp, input.rosNow);
      var age := input.rosNow - input.stamp;
      if input.stamp == 0 then (seen, if rules.requireStamp then NeedsStamp else Accepted(input.receivedAt))
      else if age >= rules.maxAge || age < -rules.futureTolerance then (seen, OutsideAge)
      else if input.stamp <= lastStamp then (seen, OutOfOrder)
      else (seen.(lastStamp := input.stamp), Accepted(input.receivedAt - Max(age, 0)))
  }

  class InputTimestamp {
    var lastStamp: int
    var lastRosNow: int

    function State(): Tracker
      reads this
    {
      Tracker(lastStamp, lastRosNow)
    }

    constructor ()
      ensures State() == FRESH_TRACKER
    {
      lastStamp, lastRosNow := 0, 0;
    }

    method Accept(input: Input, rules: Rules) returns (verdict: Verdict)
      modifies this
      ensures (State(), verdict) == Judged(old(State()), input, rules)
      // Accepted exactly in time and in order; fresh since its stamp, or since its receipt.
      ensures verdict.Accepted? <==>
        && input.rosNow >= 0 && input.stamp >= 0
        && if input.stamp == 0 then !rules.requireStamp
           else
             && input.rosNow - input.stamp < rules.maxAge && input.stamp - input.rosNow <= rules.futureTolerance
             && (input.stamp > old(lastStamp) || input.rosNow < old(lastRosNow))
      ensures verdict.Accepted? ==>
        verdict.freshAt ==
          if input.stamp == 0 || input.stamp > input.rosNow then input.receivedAt
          else input.receivedAt - (input.rosNow - input.stamp)
    {
      if input.rosNow < 0 || input.stamp < 0 { return Negative; }
      if input.rosNow < lastRosNow {
        lastStamp := 0;
      }
      lastRosNow := input.rosNow;
      if input.stamp == 0 {
        if rules.requireStamp { return NeedsStamp; }
        return Accepted(input.receivedAt);
      }
      var age := input.rosNow - input.stamp;
      if age >= rules.maxAge || age < -rules.futureTolerance { return OutsideAge; }
      if input.stamp <= lastStamp { return OutOfOrder; }
      lastStamp := input.stamp;
      return Accepted(input.receivedAt - Max(age, 0));
    }
  }

  // ---- Runs ----

  function After(tracker: Tracker, inputs: seq<Input>, rules: Rules): Tracker {
    if inputs == [] then tracker
    else Judged(After(tracker, inputs[..|inputs| - 1], rules), inputs[|inputs| - 1], rules).0
  }

  /** The verdict on the input at `k`. */
  function VerdictAt(tracker: Tracker, inputs: seq<Input>, rules: Rules, k: nat): Verdict
    requires k < |inputs|
  {
    Judged(After(tracker, inputs[..k], rules), inputs[k], rules).1
  }

  ghost predicate RosTimeAdvances(tracker: Tracker, inputs: seq<Input>) {
    && (forall k :: 0 <= k < |inputs| ==> inputs[k].rosNow >= tracker.lastRosNow)
    && (forall i, j :: 0 <= i < j < |inputs| ==> inputs[i].rosNow <= inputs[j].rosNow)
  }

  /** While ROS time advances, the tracker remembers a time not ahead and a stamp no older than any accepted. */
  lemma {:induction false} AfterRemembers(tracker: Tracker, inputs: seq<Input>, rules: Rules, i: nat, at: int)
    requires RosTimeAdvances(tracker, inputs) && i < |inputs|
    requires forall k :: 0 <= k < |inputs| ==> inputs[k].rosNow <= at
    requires VerdictAt(tracker, inputs, rules, i).Accepted? && inputs[i].stamp != 0
    ensures After(tracker, inputs, rules).lastStamp >= inputs[i].stamp
    decreases |inputs|
  {
    var n := |inputs| - 1;
    var front := inputs[..n];
    NotAhead(tracker, front, rules, inputs[n].rosNow);
    if i < n {
      assert front[..i] == inputs[..i];
      AfterRemembers(tracker, front, rules, i, inputs[n].rosNow);
    }
  }

  lemma {:induction false} NotAhead(tracker: Tracker, inputs: seq<Input>, rules: Rules, at: int)
    requires tracker.lastRosNow <= at && forall k :: 0 <= k < |inputs| ==> inputs[k].rosNow <= at
    ensures After(tracker, inputs, rules).lastRosNow <= at
    decreases |inputs|
  {
    if inputs != [] { NotAhead(tracker, inputs[..|inputs| - 1], rules, at); }
  }

  /** While ROS time advances, accepted stamps strictly increase. */
  lemma AcceptedStampsIncrease(tracker: Tracker, inputs: seq<Input>, rules: Rules, i: nat, j: nat)
    requires RosTimeAdvances(tracker, inputs) && i < j < |inputs|
    requires VerdictAt(tracker, inputs, rules, i).Accepted? && inputs[i].stamp != 0
    requires VerdictAt(tracker, inputs, rules, j).Accepted? && inputs[j].stamp != 0
    ensures inputs[i].stamp < inputs[j].stamp
  {
    var front := inputs[..j];
    assert front[..i] == inputs[..i];
    AfterRemembers(tracker, front, rules, i, inputs[j].rosNow);
    NotAhead(tracker, front, rules, inputs[j].rosNow);
  }

  /** Accepted inputs are fresh at their receipt or before, and younger than the allowed age. */
  lemma FreshnessIsHonest(tracker: Tracker, input: Input, rules: Rules)
    requires Judged(tracker, input, rules).1.Accepted? && rules.maxAge > 0
    ensures var freshAt := Judged(tracker, input, rules).1.freshAt;
            && freshAt <= input.receivedAt && input.receivedAt - freshAt < rules.maxAge
            && (input.stamp != 0 && input.stamp <= input.rosNow ==>
                 input.receivedAt - freshAt == input.rosNow - input.stamp)
  {
  }

  // ---- Both clocks together ----

  ghost predicate ClocksAgree(inputs: seq<Input>, offset: int) {
    forall k :: 0 <= k < |inputs| ==> inputs[k].receivedAt == inputs[k].rosNow + offset
  }

  /** The ROS time an input's freshness counts from. */
  function FreshSince(input: Input): int {
    if input.stamp == 0 then input.rosNow else Min(input.stamp, input.rosNow)
  }

  /**
    When both clocks advance together, freshness never goes back between stamped inputs. It
    goes back exactly when a stamped input follows an unstamped one it is older than.
  */
  lemma FreshnessGoesBackExactly(tracker: Tracker, inputs: seq<Input>, rules: Rules, offset: int, i: nat, j: nat)
    requires RosTimeAdvances(tracker, inputs) && ClocksAgree(inputs, offset) && i < j < |inputs|
    requires VerdictAt(tracker, inputs, rules, i).Accepted? && VerdictAt(tracker, inputs, rules, j).Accepted?
    ensures VerdictAt(tracker, inputs, rules, i).freshAt == FreshSince(inputs[i]) + offset
    ensures VerdictAt(tracker, inputs, rules, j).freshAt < VerdictAt(tracker, inputs, rules, i).freshAt <==>
            inputs[i].stamp == 0 && inputs[j].stamp != 0 && inputs[j].stamp < inputs[i].rosNow
  {
    if inputs[i].stamp != 0 && inputs[j].stamp != 0 {
      AcceptedStampsIncrease(tracker, inputs, rules, i, j);
    }
  }

  /** Such a pair of inputs: one unstamped, then one stamped just before it. */
  lemma UnstampedThenStampedGoesBack(rules: Rules, at: int)
    requires !rules.requireStamp && rules.maxAge > 1 && rules.futureTolerance >= 0 && at > 1
    ensures var inputs := [Input(0, at, at), Input(at - 1, at, at)];
            && VerdictAt(FRESH_TRACKER, inputs, rules, 0) == Accepted(at)
            && VerdictAt(FRESH_TRACKER, inputs, rules, 1) == Accepted(at - 1)
  {
    var inputs := [Input(0, at, at), Input(at - 1, at, at)];
    assert inputs[..0] == [] && inputs[..1] == [inputs[0]];
  }
}
