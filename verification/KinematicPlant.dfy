/**
  The velocity-limited position plant of the simulator: per-joint latest targets, a
  watchdog on monotonic time, and a hold when either clock misbehaves.
*/
module KinematicPlants {
  import opened MotionTypes

  /** A missing limit is infinite. */
  datatype PlantJoint = PlantJoint(lower: Option<real>, upper: Option<real>, speed: real) {
    predicate Within(p: real) {
      (lower.Some? ==> lower.value <= p) && (upper.Some? ==> p <= upper.value)
    }
  }

  datatype Number = Finite(value: real) | NonFinite

  /** A missing deadline lies infinitely far in the past. */
  datatype Plant = Plant(
    joints: map<string, PlantJoint>, positions: map<string, real>, targets: map<string, real>,
    velocities: map<string, real>,
    stamps: map<string, int>, deadlines: map<string, Option<real>>, watchdog: real, speedLimit: real,
    lastStep: Option<real>, lastRos: Option<int>)

  /** Positions and targets of exactly the plant's joints lie within their limits. */
  ghost predicate Inv(s: Plant) {
    && s.watchdog > 0.0 && s.speedLimit > 0.0
    && s.positions.Keys == s.joints.Keys && s.targets.Keys == s.joints.Keys && s.velocities.Keys == s.joints.Keys
    && s.stamps.Keys == s.joints.Keys && s.deadlines.Keys == s.joints.Keys
    && (forall name :: name in s.joints ==>
          && s.joints[name].speed > 0.0
          && s.joints[name].Within(s.positions[name]) && s.joints[name].Within(s.targets[name]))
  }

  function Constant<T>(keys: set<string>, value: T): (m: map<string, T>)
    ensures m.Keys == keys && forall name :: name in keys ==> m[name] == value
  {
    map name | name in keys :: value
  }

  predicate StartsWithin(
    joints: map<string, PlantJoint>, initial: map<string, Number>, watchdog: Number, speedLimit: Number)
  {
    && watchdog.Finite? && watchdog.value > 0.0 && speedLimit.Finite? && speedLimit.value > 0.0
    && forall name :: name in joints ==>
         name in initial && initial[name].Finite? && joints[name].Within(initial[name].value)
  }

  function Initial(
    joints: map<string, PlantJoint>, initial: map<string, Number>, watchdog: real, speedLimit: real): Plant
    requires StartsWithin(joints, initial, Finite(watchdog), Finite(speedLimit))
  {
    var positions := map name | name in joints :: initial[name].value;
    Plant(
      joints, positions, positions, Constant(joints.Keys, 0.0), Constant(joints.Keys, 0), Constant(joints.Keys, None),
      watchdog, speedLimit, None, None)
  }

  lemma KeysOf(s: Plant)
    requires Inv(s)
    ensures s.positions.Keys == s.joints.Keys && s.targets.Keys == s.joints.Keys && s.velocities.Keys == s.joints.Keys
    ensures s.stamps.Keys == s.joints.Keys && s.deadlines.Keys == s.joints.Keys
  {
  }

  // ---- The operations ----

  function Held(s: Plant): Plant {
    s.(targets := s.positions, velocities := Constant(s.joints.Keys, 0.0), deadlines := Constant(s.joints.Keys, None))
  }

  predicate ClockWentBack(s: Plant, ros: int) { s.lastRos.Some? && ros < s.lastRos.value }

  /** A ROS clock that went back holds the plant and forgets the stamps. */
  function Observed(s: Plant, ros: int): Plant {
    if ClockWentBack(s, ros) then Held(s).(stamps := Constant(s.joints.Keys, 0), lastRos := Some(ros))
    else s.(lastRos := Some(ros))
  }

  function Age(stamp: int, ros: int): real { (ros - stamp) as real / 1000000000.0 }

  ghost predicate Accepts(s: Plant, names: seq<string>, values: seq<Number>, stamp: int, ros: int)
    requires s.stamps.Keys == s.joints.Keys
  {
    && names != [] && |names| == |values| && Unique(names)
    && stamp > 0 && -0.01 <= Age(stamp, ros) < s.watchdog
    && forall i :: 0 <= i < |names| ==>
         && names[i] in s.joints && values[i].Finite? && s.joints[names[i]].Within(values[i].value)
         && stamp > s.stamps[names[i]]
  }

  /** The targets, stamps and deadlines of the first `n` commanded joints. */
  function Targeted(s: Plant, names: seq<string>, values: seq<Number>, stamp: int, deadline: real, n: nat): Plant
    requires n <= |names| == |values| && forall i :: 0 <= i < n ==> values[i].Finite?
  {
    if n == 0 then s
    else
      var t := Targeted(s, names, values, stamp, deadline, n - 1);
      t.(targets := t.targets[names[n - 1] := values[n - 1].value], stamps := t.stamps[names[n - 1] := stamp],
         deadlines := t.deadlines[names[n - 1] := Some(deadline)])
  }

  /** Each commanded joint has its own target and the deadline. */
  lemma {:induction false} TargetsAreSet(
    s: Plant, names: seq<string>, values: seq<Number>, stamp: int, deadline: real, n: nat)
    requires n <= |names| == |values| && Unique(names) && forall i :: 0 <= i < n ==> values[i].Finite?
    ensures var t := Targeted(s, names, values, stamp, deadline, n);
            forall i | 0 <= i < n ::
              && names[i] in t.targets && t.targets[names[i]] == values[i].value
              && names[i] in t.deadlines && t.deadlines[names[i]] == Some(deadline)
    decreases n
  {
    if n > 0 { TargetsAreSet(s, names, values, stamp, deadline, n - 1); }
  }

  ghost function Commanded(s: Plant, names: seq<string>, values: seq<Number>, stamp: int, ros: int, now: real): Plant
    requires s.stamps.Keys == s.joints.Keys
  {
    var seen := Observed(s, ros);
    if !Accepts(seen, names, values, stamp, ros) then seen
    else Targeted(seen, names, values, stamp, now + s.watchdog - MaxReal(0.0, Age(stamp, ros)), |names|)
  }

  function MaxSpeed(joint: PlantJoint, limit: real): real { MinReal(joint.speed, limit) }

  /** The distance covered at a speed. */
  function Span(speed: real, time: real): real { speed * time }

  function Rate(step: real, dt: real): real { if dt > 0.0 then step / dt else 0.0 }

  function Clamp(distance: real, maximum: real): real { MinReal(MaxReal(distance, -maximum), maximum) }

  /** The target in force at `now`. */
  function TargetAt(s: Plant, name: string, now: real): real
    requires name in s.joints && name in s.deadlines && name in s.targets && name in s.positions
  {
    if s.deadlines[name].None? || now >= s.deadlines[name].value then s.positions[name] else s.targets[name]
  }

  function Increment(s: Plant, name: string, now: real, dt: real): real
    requires name in s.joints && name in s.deadlines && name in s.targets && name in s.positions
  {
    Clamp(TargetAt(s, name, now) - s.positions[name], Span(MaxSpeed(s.joints[name], s.speedLimit), dt))
  }

  function Stepped(s: Plant, now: real): Plant
    requires s.positions.Keys == s.joints.Keys && s.targets.Keys == s.joints.Keys && s.deadlines.Keys == s.joints.Keys
  {
    var dt := if s.lastStep.None? then 0.0 else now - s.lastStep.value;
    var begun := s.(lastStep := Some(now));
    if dt < 0.0 || dt > s.watchdog then Held(begun)
    else begun.(
      targets := map name | name in s.joints :: TargetAt(s, name, now),
      positions := map name | name in s.joints :: s.positions[name] + Increment(s, name, now, dt),
      velocities := map name | name in s.joints :: Rate(Increment(s, name, now, dt), dt))
  }

  // ---- The class ----

  class KinematicPlant {
    const joints: map<string, PlantJoint>
    const watchdog: real
    const speedLimit: real
    var positions: map<string, real>
    var targets: map<string, real>
    var velocities: map<string, real>
    var stamps: map<string, int>
    var deadlines: map<string, Option<real>>
    var lastStep: Option<real>
    var lastRos: Option<int>

    function State(): Plant
      reads this
    {
      Plant(joints, positions, targets, velocities, stamps, deadlines, watchdog, speedLimit, lastStep, lastRos)
    }

    ghost predicate Valid()
      reads this
    {
      Inv(State())
    }

    constructor (joints: map<string, PlantJoint>, initial: map<string, Number>, watchdog: real, speedLimit: real)
      requires StartsWithin(joints, initial, Finite(watchdog), Finite(speedLimit))
      requires forall name :: name in joints ==> joints[name].speed > 0.0
      ensures Valid() && State() == Initial(joints, initial, watchdog, speedLimit)
      ensures forall name :: name in joints ==>
        && positions[name] == targets[name] == initial[name].value && deadlines[name] == None && stamps[name] == 0
    {
      this.joints, this.watchdog, this.speedLimit := joints, watchdog, speedLimit;
      positions := map name | name in joints :: initial[name].value;
      targets := map name | name in joints :: initial[name].value;
      velocities, stamps := Constant(joints.Keys, 0.0), Constant(joints.Keys, 0);
      deadlines := Constant(joints.Keys, None);
      lastStep, lastRos := None, None;
    }

    /** A plant is refused for a non-positive parameter and for an initial position outside its limits. */
    static method Build(
      joints: map<string, PlantJoint>, initial: map<string, Number>, watchdog: Number, speedLimit: Number)
      returns (plant: KinematicPlant?)
      requires forall name :: name in joints ==> joints[name].speed > 0.0
      ensures plant != null <==> StartsWithin(joints, initial, watchdog, speedLimit)
      ensures plant != null ==>
        fresh(plant) && plant.Valid() && plant.State() == Initial(joints, initial, watchdog.value, speedLimit.value)
    {
      if !StartsWithin(joints, initial, watchdog, speedLimit) { return null; }
      plant := new KinematicPlant(joints, initial, watchdog.value, speedLimit.value);
    }

    method Hold()
      requires Valid()
      modifies this
      ensures Valid() && State() == Held(old(State()))
      ensures positions == old(positions) && targets == old(positions) && stamps == old(stamps)
      ensures forall name :: name in joints ==> deadlines[name] == None && velocities[name] == 0.0
    {
      targets := positions;
      velocities := Constant(joints.Keys, 0.0);
      deadlines := Constant(joints.Keys, None);
    }

    method ObserveClock(ros: int)
      requires Valid()
      modifies this
      ensures Valid() && State() == Observed(old(State()), ros)
      ensures if old(lastRos).Some? && ros < old(lastRos).value
              then targets == positions && forall x :: x in joints ==> deadlines[x] == None && stamps[x] == 0
              else targets == old(targets) && deadlines == old(deadlines) && stamps == old(stamps)
    {
      if lastRos.Some? && ros < lastRos.value {
        Hold();
        stamps := Constant(joints.Keys, 0);
      }
      lastRos := Some(ros);
    }

    method Command(names: seq<string>, values: seq<Number>, stamp: int, ros: int, now: real) returns (ok: bool)
      requires Valid()
      modifies this
      ensures Valid() && State() == Commanded(old(State()), names, values, stamp, ros, now)
      // Accepted when young enough, and on every joint known, inside and newer; a clock that went back forgets stamps.
      ensures ok <==>
        && names != [] && |names| == |values| && (forall i, j :: 0 <= i < j < |names| ==> names[i] != names[j])
        && stamp > 0 && -0.01 <= (ros - stamp) as real / 1000000000.0 < watchdog
        && forall i :: 0 <= i < |names| ==>
             && names[i] in joints && values[i].Finite?
             && (joints[names[i]].lower.Some? ==> joints[names[i]].lower.value <= values[i].value)
             && (joints[names[i]].upper.Some? ==> values[i].value <= joints[names[i]].upper.value)
             && (stamp > old(stamps)[names[i]] || (old(lastRos).Some? && ros < old(lastRos).value))
      // The targets of exactly these joints are now the commanded ones, for the watchdog time less the command's age.
      ensures ok ==>
        && (forall i | 0 <= i < |names| ::
              && |values| == |names| && values[i].Finite? && names[i] in targets && names[i] in deadlines
              && targets[names[i]] == values[i].value
              && deadlines[names[i]] ==
                   Some(if stamp > ros then now + watchdog else now + watchdog - (ros - stamp) as real / 1000000000.0))
    {
      hide Inv, Targeted;
      KeysOf(State());
      ghost var seen := Observed(State(), ros);
      ok := TakeCommand(names, values, stamp, ros, now);
      if ok {
        TargetsAreSet(seen, names, values, stamp, now + watchdog - MaxReal(0.0, Age(stamp, ros)), |names|);
      }
    }

    method TakeCommand(names: seq<string>, values: seq<Number>, stamp: int, ros: int, now: real) returns (ok: bool)
      requires Valid()
      modifies this
      ensures Valid() && State() == Commanded(old(State()), names, values, stamp, ros, now)
      ensures ok <==> Accepts(Observed(old(State()), ros), names, values, stamp, ros)
    {
      hide Inv;
      CommandKeepsInv(State(), names, values, stamp, ros, now);
      KeysOf(State());
      ObserveClock(ros);
      KeysOf(State());
      if names == [] || |names| != |values| || !Unique(names) { return false; }
      var age := Age(stamp, ros);
      if stamp <= 0 || age < -0.01 || age >= watchdog { return false; }
      for i := 0 to |names|
        invariant forall k :: 0 <= k < i ==>
          names[k] in joints && values[k].Finite? && joints[names[k]].Within(values[k].value)
            && stamp > stamps[names[k]]
      {
        if names[i] !in joints || values[i].NonFinite? || !joints[names[i]].Within(values[i].value)
          || stamp <= stamps[names[i]] {
          return false;
        }
      }
      SetTargets(names, values, stamp, now + watchdog - MaxReal(0.0, age));
      return true;
    }

    method SetTargets(names: seq<string>, values: seq<Number>, stamp: int, deadline: real)
      requires |names| == |values| && forall i :: 0 <= i < |names| ==> values[i].Finite?
      modifies this
      ensures State() == Targeted(old(State()), names, values, stamp, deadline, |names|)
    {
      for i := 0 to |names|
        invariant State() == Targeted(old(State()), names, values, stamp, deadline, i)
      {
        targets := targets[names[i] := values[i].value];
        stamps := stamps[names[i] := stamp];
        deadlines := deadlines[names[i] := Some(deadline)];
      }
    }

    method Step(now: real)
      requires Valid()
      modifies this
      ensures Valid() && State() == Stepped(old(State()), now)
    {
      hide Inv, Moved, Increment, TargetAt, Rate;
      ghost var s := State();
      KeysOf(s);
      StepKeepsInv(s, now);
      var dt := if lastStep.None? then 0.0 else now - lastStep.value;
      lastStep := Some(now);
      if dt < 0.0 || dt > watchdog {
        HoldKeepsInv(State(), s);
        Hold();
        return;
      }
      MovedNothing(s, now, dt);
      var left := joints.Keys;
      while left != {}
        invariant left <= joints.Keys && State() == Moved(s, now, dt, joints.Keys - left)
        decreases left
      {
        var name :| name in left;
        ghost var done := joints.Keys - left;
        left := left - {name};
        MovedNext(s, now, dt, done, name);
        MoveJoint(name, now, dt);
        assert joints.Keys - left == done + {name};
      }
      MovedAll(s, now, dt);
    }

    method MoveJoint(name: string, now: real, dt: real)
      requires name in joints && name in deadlines && name in targets && name in positions
      modifies this`targets, this`positions, this`velocities
      ensures State() == old(State()).(
        targets := old(targets)[name := TargetAt(old(State()), name, now)],
        positions := old(positions)[name := old(positions)[name] + Increment(old(State()), name, now, dt)],
        velocities := old(velocities)[name := Rate(Increment(old(State()), name, now, dt), dt)])
    {
      if deadlines[name].None? || now >= deadlines[name].value {
        targets := targets[name := positions[name]];
      } else {
        assert targets == targets[name := targets[name]];
      }
      hide Span, Rate, Clamp;
      var maximum := Span(MaxSpeed(joints[name], speedLimit), dt);
      var step := Clamp(targets[name] - positions[name], maximum);
      positions := positions[name := positions[name] + step];
      velocities := velocities[name := Rate(step, dt)];
    }
  }

  /** A step once the joints in `done` have moved. */
  ghost function Moved(s: Plant, now: real, dt: real, done: set<string>): Plant
    requires s.positions.Keys == s.joints.Keys && s.targets.Keys == s.joints.Keys && s.deadlines.Keys == s.joints.Keys
    requires s.velocities.Keys == s.joints.Keys
  {
    s.(lastStep := Some(now),
       targets := map name | name in s.joints :: if name in done then TargetAt(s, name, now) else s.targets[name],
       positions := map name | name in s.joints ::
         if name in done then s.positions[name] + Increment(s, name, now, dt) else s.positions[name],
       velocities := map name | name in s.joints ::
         if name in done then Rate(Increment(s, name, now, dt), dt) else s.velocities[name])
  }

  lemma MovedNothing(s: Plant, now: real, dt: real)
    requires Inv(s)
    ensures Moved(s, now, dt, s.joints.Keys - s.joints.Keys) == s.(lastStep := Some(now))
  {
    var t := Moved(s, now, dt, s.joints.Keys - s.joints.Keys);
    assert t.targets == s.targets && t.positions == s.positions && t.velocities == s.velocities;
  }

  lemma MovedNext(s: Plant, now: real, dt: real, done: set<string>, name: string)
    requires Inv(s) && name in s.joints && name !in done
    ensures var t := Moved(s, now, dt, done);
            && name in t.deadlines && name in t.targets && name in t.positions && t.joints == s.joints
            && Moved(s, now, dt, done + {name}) == t.(
                 targets := t.targets[name := TargetAt(t, name, now)],
                 positions := t.positions[name := t.positions[name] + Increment(t, name, now, dt)],
                 velocities := t.velocities[name := Rate(Increment(t, name, now, dt), dt)])
  {
    KeysOf(s);
    var t, u := Moved(s, now, dt, done), Moved(s, now, dt, done + {name});
    assert TargetAt(t, name, now) == TargetAt(s, name, now)
      && Increment(t, name, now, dt) == Increment(s, name, now, dt);
    hide Increment, TargetAt, Inv, Rate;
    assert u.targets == t.targets[name := TargetAt(t, name, now)];
    assert u.positions == t.positions[name := t.positions[name] + Increment(t, name, now, dt)];
    assert u.velocities == t.velocities[name := Rate(Increment(t, name, now, dt), dt)];
  }

  lemma MovedAll(s: Plant, now: real, dt: real)
    requires Inv(s) && dt == (if s.lastStep.None? then 0.0 else now - s.lastStep.value) && 0.0 <= dt <= s.watchdog
    ensures Moved(s, now, dt, s.joints.Keys - {}) == Stepped(s, now)
  {
    KeysOf(s);
    hide Increment, TargetAt, Inv, Rate;
    var t, u := Moved(s, now, dt, s.joints.Keys - {}), Stepped(s, now);
    assert t.targets == u.targets && t.positions == u.positions && t.velocities == u.velocities;
  }

  lemma HoldKeepsInv(s: Plant, before: Plant)
    requires Inv(before) && s == before.(lastStep := s.lastStep)
    ensures Inv(s) && Inv(Held(s))
  {
  }

  // ---- What every operation keeps ----

  /** A step goes towards the target in force, never past it, and no faster than allowed. */
  lemma StepNeverOvershoots(s: Plant, name: string, now: real)
    requires Inv(s) && name in s.joints
    ensures name in Stepped(s, now).positions
    ensures var from, to, target := s.positions[name], Stepped(s, now).positions[name], TargetAt(s, name, now);
            (from <= to <= target) || (target <= to <= from) || to == from
    ensures s.lastStep.Some? ==>
      AbsReal(Stepped(s, now).positions[name] - s.positions[name]) <=
        Span(MaxSpeed(s.joints[name], s.speedLimit), MaxReal(0.0, now - s.lastStep.value))
    ensures s.lastStep.None? ==> Stepped(s, now).positions[name] == s.positions[name]
  {
    hide Span, Rate, MaxSpeed;
    var dt := if s.lastStep.None? then 0.0 else now - s.lastStep.value;
    SpeedPositive(s, name);
    SpanNonNegative(MaxSpeed(s.joints[name], s.speedLimit), MaxReal(0.0, dt));
    SpanZero(MaxSpeed(s.joints[name], s.speedLimit));
  }

  /**
    A step makes way: it lands on the target in force if it is within reach, and otherwise
    covers all the joint's speed allows in the time since the last step.
  */
  lemma StepMakesWay(s: Plant, name: string, now: real, reach: real)
    requires Inv(s) && name in s.joints && s.lastStep.Some? && 0.0 <= now - s.lastStep.value <= s.watchdog
    requires s.deadlines.Keys == s.joints.Keys && s.targets.Keys == s.joints.Keys && s.positions.Keys == s.joints.Keys
    requires reach == if s.joints[name].speed < s.speedLimit then s.joints[name].speed * (now - s.lastStep.value)
                      else s.speedLimit * (now - s.lastStep.value)
    ensures var from, to := s.positions[name], Stepped(s, now).positions[name];
            if s.deadlines[name] == None || now >= s.deadlines[name].value then to == from
            else if s.targets[name] > from + reach then to == from + reach
            else if s.targets[name] < from - reach then to == from - reach
            else to == s.targets[name]
  {
    hide Stepped, Inv;
    var dt, speed := now - s.lastStep.value, MaxSpeed(s.joints[name], s.speedLimit);
    SpeedPositive(s, name);
    SpanNonNegative(speed, dt);
    assert reach == Span(speed, dt);
    hide Span, MaxSpeed;
    StepLands(s, name, now, reach);
  }

  /** The same in terms of the distance within reach. */
  lemma StepLands(s: Plant, name: string, now: real, reach: real)
    requires name in s.joints && s.lastStep.Some? && 0.0 <= now - s.lastStep.value <= s.watchdog
    requires s.deadlines.Keys == s.joints.Keys && s.targets.Keys == s.joints.Keys && s.positions.Keys == s.joints.Keys
    requires reach == Span(MaxSpeed(s.joints[name], s.speedLimit), now - s.lastStep.value) && reach >= 0.0
    ensures var from, to := s.positions[name], Stepped(s, now).positions[name];
            if s.deadlines[name] == None || now >= s.deadlines[name].value then to == from
            else if s.targets[name] > from + reach then to == from + reach
            else if s.targets[name] < from - reach then to == from - reach
            else to == s.targets[name]
  {
    hide Rate, Span, MaxSpeed;
    ClampLands(TargetAt(s, name, now) - s.positions[name], reach);
    hide Clamp;
  }

  lemma ClampLands(distance: real, reach: real)
    requires reach >= 0.0
    ensures Clamp(distance, reach) == if distance > reach then reach else if distance < -reach then -reach else distance
  {
  }

  /** So a joint moves towards a live target until it is there. */
  lemma StepComesCloser(s: Plant, name: string, now: real)
    requires Inv(s) && name in s.joints && s.lastStep.Some? && 0.0 < now - s.lastStep.value <= s.watchdog
    requires s.deadlines.Keys == s.joints.Keys && s.targets.Keys == s.joints.Keys && s.positions.Keys == s.joints.Keys
    requires s.deadlines[name].Some? && now < s.deadlines[name].value && s.positions[name] != s.targets[name]
    ensures AbsReal(s.targets[name] - Stepped(s, now).positions[name]) < AbsReal(s.targets[name] - s.positions[name])
  {
    SpeedPositive(s, name);
    PositiveSpan(MaxSpeed(s.joints[name], s.speedLimit), now - s.lastStep.value);
    hide Rate, Span, MaxSpeed;
  }

  lemma PositiveSpan(speed: real, time: real)
    requires speed > 0.0 && time > 0.0
    ensures Span(speed, time) > 0.0
  {
  }

  lemma SpeedPositive(s: Plant, name: string)
    requires Inv(s) && name in s.joints
    ensures MaxSpeed(s.joints[name], s.speedLimit) > 0.0
  {
  }

  lemma SpanNonNegative(speed: real, time: real)
    requires speed >= 0.0 && time >= 0.0
    ensures Span(speed, time) >= 0.0
  {
  }

  lemma SpanZero(speed: real)
    ensures Span(speed, 0.0) == 0.0
  {
  }

  lemma SpanMonotone(speed: real, a: real, b: real)
    requires speed >= 0.0 && a <= b
    ensures Span(speed, a) <= Span(speed, b)
  {
  }

  lemma SpanSplits(speed: real, a: real, b: real)
    ensures Span(speed, a) + Span(speed, b) == Span(speed, a + b)
  {
  }

  lemma StepKeepsInv(s: Plant, now: real)
    requires Inv(s)
    ensures Inv(Stepped(s, now))
  {
    hide Increment, TargetAt, Rate, Span, MaxSpeed;
    StepShape(s, now);
    forall name | name in s.joints
      ensures s.joints[name].Within(Stepped(s, now).positions[name])
      ensures s.joints[name].Within(Stepped(s, now).targets[name])
    {
      StepNeverOvershoots(s, name, now);
    }
  }

  /** The target in force is the set one or the position, so a step keeps the targets within limits. */
  lemma StepShape(s: Plant, now: real)
    requires Inv(s)
    ensures forall name :: name in s.joints ==>
      TargetAt(s, name, now) == s.targets[name] || TargetAt(s, name, now) == s.positions[name]
  {
  }

  lemma {:induction false} TargetedKeepsInv(
    s: Plant, names: seq<string>, values: seq<Number>, stamp: int, deadline: real, n: nat)
    requires Inv(s) && n <= |names| == |values|
    requires forall i :: 0 <= i < n ==>
      names[i] in s.joints && values[i].Finite? && s.joints[names[i]].Within(values[i].value)
    ensures var t := Targeted(s, names, values, stamp, deadline, n);
            Inv(t) && t == s.(targets := t.targets, stamps := t.stamps, deadlines := t.deadlines)
    decreases n
  {
    if n > 0 { TargetedKeepsInv(s, names, values, stamp, deadline, n - 1); }
  }

  lemma CommandKeepsInv(s: Plant, names: seq<string>, values: seq<Number>, stamp: int, ros: int, now: real)
    requires Inv(s)
    ensures Inv(Commanded(s, names, values, stamp, ros, now))
  {
    hide Age, Targeted, MaxReal, Observed, Accepts, Inv;
    var seen := Observed(s, ros);
    ObservedFrame(s, ros);
    if Accepts(seen, names, values, stamp, ros) {
      AcceptedShape(seen, names, values, stamp, ros);
      TargetedKeepsInv(seen, names, values, stamp, now + s.watchdog - MaxReal(0.0, Age(stamp, ros)), |names|);
    }
  }

  /** A rejected command changes a target exactly when the ROS clock went back on a plant still moving. */
  lemma RejectedCommandKeepsTargetsExactly(
    s: Plant, names: seq<string>, values: seq<Number>, stamp: int, ros: int, now: real)
    requires Inv(s) && !Accepts(Observed(s, ros), names, values, stamp, ros)
    ensures Commanded(s, names, values, stamp, ros, now).targets == s.targets <==>
      !ClockWentBack(s, ros) || s.targets == s.positions
  {
  }

  /** A moving plant is held by a command refused because the ROS clock went back. */
  lemma RejectedCommandHoldsPlant(name: string) returns (start: Plant, moving: Plant)
    ensures Inv(start) && Accepts(Observed(start, 2), [name], [Finite(1.0)], 2, 2)
    ensures moving == Commanded(start, [name], [Finite(1.0)], 2, 2, 0.0) && Inv(moving)
    ensures !Accepts(Observed(moving, 1), [], [], 1, 1)
    ensures Commanded(moving, [], [], 1, 1, 0.0).targets != moving.targets
  {
    start := Initial(map[name := PlantJoint(None, None, 1.0)], map[name := Finite(0.0)], 1.0, 1.0);
    assert Inv(start);
    CommandKeepsInv(start, [name], [Finite(1.0)], 2, 2, 0.0);
    moving := Commanded(start, [name], [Finite(1.0)], 2, 2, 0.0);
    TargetedAt(Observed(start, 2), [name], [Finite(1.0)], 2, 1.0, 1, name);
    assert [name][..1] == [name];
    hide Targeted;
    assert ClockWentBack(moving, 1) && moving.targets[name] == 1.0 && moving.positions[name] == 0.0;
  }

  /** An accepted command sets the targets of exactly its joints. */
  lemma {:induction false} TargetedAt(
    s: Plant, names: seq<string>, values: seq<Number>, stamp: int, deadline: real, n: nat, name: string)
    requires n <= |names| == |values| && Unique(names) && forall i :: 0 <= i < n ==> values[i].Finite?
    ensures var t := Targeted(s, names, values, stamp, deadline, n);
      && (name !in names[..n] ==>
            && (name in t.targets <==> name in s.targets) && (name in s.targets ==> t.targets[name] == s.targets[name])
            && (name in t.deadlines <==> name in s.deadlines)
            && (name in s.deadlines ==> t.deadlines[name] == s.deadlines[name]))
      && (forall i :: 0 <= i < n && names[i] == name ==>
            && name in t.targets && t.targets[name] == values[i].value
            && name in t.deadlines && t.deadlines[name] == Some(deadline))
    decreases n
  {
    if n > 0 {
      TargetedAt(s, names, values, stamp, deadline, n - 1, name);
      assert names[..n] == names[..n - 1] + [names[n - 1]];
    }
  }

  // ---- Travel after the last accepted command ----

  datatype Op =
    | StepOp(now: real)
    | CommandOp(names: seq<string>, values: seq<Number>, stamp: int, ros: int, at: real)
    | ClockOp(ros: int)

  ghost function Apply(s: Plant, op: Op): (t: Plant)
    requires Inv(s)
    ensures Inv(t) && t.joints == s.joints && t.watchdog == s.watchdog && t.speedLimit == s.speedLimit
  {
    KeysOf(s);
    hide Stepped, Commanded, Observed, Inv;
    match op
    case StepOp(now) => StepFrame(s, now); Stepped(s, now)
    case CommandOp(names, values, stamp, ros, at) =>
      CommandKeepsInv(s, names, values, stamp, ros, at);
      CommandFrame(s, names, values, stamp, ros, at);
      Commanded(s, names, values, stamp, ros, at)
    case ClockOp(ros) => ObservedFrame(s, ros); Observed(s, ros)
  }

  lemma StepFrame(s: Plant, now: real)
    requires Inv(s)
    ensures var t := Stepped(s, now);
            Inv(t) && t.joints == s.joints && t.watchdog == s.watchdog && t.speedLimit == s.speedLimit
  {
    StepKeepsInv(s, now);
    hide TargetAt, Increment, Rate, Inv;
    KeysOf(s);
  }

  lemma ObservedFrame(s: Plant, ros: int)
    requires Inv(s)
    ensures var t := Observed(s, ros);
            && Inv(t) && t.joints == s.joints && t.watchdog == s.watchdog && t.speedLimit == s.speedLimit
            && t.positions == s.positions && t.lastStep == s.lastStep
  {
  }

  lemma CommandFrame(s: Plant, names: seq<string>, values: seq<Number>, stamp: int, ros: int, now: real)
    requires Inv(s)
    ensures var t := Commanded(s, names, values, stamp, ros, now);
            t.joints == s.joints && t.watchdog == s.watchdog && t.speedLimit == s.speedLimit
              && t.positions == s.positions
            && t.lastStep == s.lastStep
  {
    hide Targeted, Age, MaxReal, Observed, Accepts, Inv;
    var seen := Observed(s, ros);
    ObservedFrame(s, ros);
    if Accepts(seen, names, values, stamp, ros) {
      AcceptedShape(seen, names, values, stamp, ros);
      TargetedKeepsInv(seen, names, values, stamp, now + s.watchdog - MaxReal(0.0, Age(stamp, ros)), |names|);
    }
  }

  /** The distance one joint covers over a run. */
  ghost function Travel(s: Plant, ops: seq<Op>, name: string): real
    requires Inv(s) && name in s.joints
    decreases |ops|
  {
    if ops == [] then 0.0
    else AbsReal(Apply(s, ops[0]).positions[name] - s.positions[name]) + Travel(Apply(s, ops[0]), ops[1..], name)
  }

  /** No command of the run is accepted for this joint, and steps do not go back in time. */
  ghost predicate LeftAlone(s: Plant, ops: seq<Op>, name: string, from: real)
    requires Inv(s)
    decreases |ops|
  {
    ops == [] ||
    (&& (ops[0].CommandOp? && name in ops[0].names ==>
           !Accepts(Observed(s, ops[0].ros), ops[0].names, ops[0].values, ops[0].stamp, ops[0].ros))
     && (ops[0].StepOp? ==> ops[0].now >= from)
     && LeftAlone(Apply(s, ops[0]), ops[1..], name, if ops[0].StepOp? then ops[0].now else from))
  }

  /** How far the joint may still go: until its deadline, at full speed, since the last step. */
  function Reach(s: Plant, name: string, from: real): real
    requires name in s.joints && name in s.deadlines
  {
    if s.deadlines[name].None? then 0.0
    else Span(
      MaxSpeed(s.joints[name], s.speedLimit),
      MaxReal(0.0, s.deadlines[name].value - (if s.lastStep.Some? then s.lastStep.value else from)))
  }

  lemma ReachShrinks(s: Plant, op: Op, name: string, from: real)
    requires Inv(s) && name in s.joints && LeftAlone(s, [op], name, from)
    requires s.lastStep.Some? ==> s.lastStep.value <= from
    ensures var t := Apply(s, op);
            var next := if op.StepOp? then op.now else from;
            && AbsReal(t.positions[name] - s.positions[name]) + Reach(t, name, next) <= Reach(s, name, from)
            && (t.lastStep.Some? ==> t.lastStep.value <= next)
  {
    hide Reach, Stepped, Commanded, Observed, Accepts, Inv;
    match op
    case StepOp(now) => StepReach(s, name, from, now);
    case CommandOp(names, values, stamp, ros, at) =>
      CommandFrame(s, names, values, stamp, ros, at);
      CommandReach(s, names, values, stamp, ros, at, name, from);
    case ClockOp(ros) =>
      ObservedReach(s, ros, name, from);
  }

  lemma ReachNonNegative(s: Plant, name: string, from: real)
    requires Inv(s) && name in s.joints
    ensures Reach(s, name, from) >= 0.0
  {
    SpeedPositive(s, name);
    if s.deadlines[name].Some? {
      SpanNonNegative(
        MaxSpeed(s.joints[name], s.speedLimit),
        MaxReal(0.0, s.deadlines[name].value - (if s.lastStep.Some? then s.lastStep.value else from)));
    }
  }

  lemma CommandReach(
    s: Plant, names: seq<string>, values: seq<Number>, stamp: int, ros: int, at: real, name: string, from: real)
    requires Inv(s) && name in s.joints
    requires name in names ==> !Accepts(Observed(s, ros), names, values, stamp, ros)
    ensures var t := Commanded(s, names, values, stamp, ros, at);
            name in t.joints && name in t.deadlines && Reach(t, name, from) <= Reach(s, name, from)
  {
    hide Targeted, Age, MaxReal, Accepts, Observed, Reach, Inv;
    var seen := Observed(s, ros);
    ObservedReach(s, ros, name, from);
    KeysOf(seen);
    if Accepts(seen, names, values, stamp, ros) {
      assert names[..|names|] == names;
      AcceptedShape(seen, names, values, stamp, ros);
      var deadline := at + s.watchdog - MaxReal(0.0, Age(stamp, ros));
      TargetedAt(seen, names, values, stamp, deadline, |names|, name);
      TargetedKeepsInv(seen, names, values, stamp, deadline, |names|);
      SameReach(seen, Targeted(seen, names, values, stamp, deadline, |names|), name, from);
    }
  }

  lemma AcceptedShape(s: Plant, names: seq<string>, values: seq<Number>, stamp: int, ros: int)
    requires s.stamps.Keys == s.joints.Keys && Accepts(s, names, values, stamp, ros)
    ensures |names| == |values| && Unique(names)
    ensures forall i :: 0 <= i < |names| ==>
      names[i] in s.joints && values[i].Finite? && s.joints[names[i]].Within(values[i].value)
  {
    hide Age;
  }

  lemma SameReach(s: Plant, t: Plant, name: string, from: real)
    requires name in s.joints && name in s.deadlines && name in t.deadlines && t.deadlines[name] == s.deadlines[name]
    requires t == s.(targets := t.targets, stamps := t.stamps, deadlines := t.deadlines)
    ensures Reach(t, name, from) == Reach(s, name, from)
  {
  }

  lemma ObservedReach(s: Plant, ros: int, name: string, from: real)
    requires Inv(s) && name in s.joints
    ensures var t := Observed(s, ros);
            && Inv(t) && t.joints == s.joints && t == s.(
                 targets := t.targets, velocities := t.velocities, stamps := t.stamps, deadlines := t.deadlines,
                 lastRos := t.lastRos)
            && name in t.deadlines && Reach(t, name, from) <= Reach(s, name, from)
  {
    ReachNonNegative(s, name, from);
    hide Span, MaxSpeed, MaxReal;
  }

  lemma StepReach(s: Plant, name: string, from: real, now: real)
    requires Inv(s) && name in s.joints && now >= from
    requires s.lastStep.Some? ==> s.lastStep.value <= from
    ensures var t := Stepped(s, now);
            name in t.positions && name in t.joints && name in t.deadlines
            && AbsReal(t.positions[name] - s.positions[name]) + Reach(t, name, now) <= Reach(s, name, from)
            && t.lastStep == Some(now)
  {
    hide Span, MaxSpeed, Rate, Clamp;
    StepKeepsInv(s, now);
    StepNeverOvershoots(s, name, now);
    ReachNonNegative(s, name, from);
    SpeedPositive(s, name);
    var dt := if s.lastStep.None? then 0.0 else now - s.lastStep.value;
    SpanZero(MaxSpeed(s.joints[name], s.speedLimit));
    if 0.0 <= dt <= s.watchdog && s.deadlines[name].Some? && now < s.deadlines[name].value {
      var deadline := s.deadlines[name].value;
      SpanSplits(MaxSpeed(s.joints[name], s.speedLimit), dt, deadline - now);
      SpanMonotone(
        MaxSpeed(s.joints[name], s.speedLimit), dt + (deadline - now),
        deadline - (if s.lastStep.Some? then s.lastStep.value else from));
    }
  }

  lemma {:induction false} TravelWithinReach(s: Plant, ops: seq<Op>, name: string, from: real)
    requires Inv(s) && name in s.joints && LeftAlone(s, ops, name, from)
    requires s.lastStep.Some? ==> s.lastStep.value <= from
    ensures Travel(s, ops, name) <= Reach(s, name, from)
    decreases |ops|
  {
    ReachNonNegative(s, name, from);
    if ops != [] {
      var next := if ops[0].StepOp? then ops[0].now else from;
      assert [ops[0]][1..] == [];
      ReachShrinks(s, ops[0], name, from);
      TravelWithinReach(Apply(s, ops[0]), ops[1..], name, next);
    }
  }

  /**
    After the last command accepted for a joint, under monotone time, the joint covers at
    most twice the watchdog at its speed.
  */
  lemma TravelIsBounded(
    s: Plant, names: seq<string>, values: seq<Number>, stamp: int, ros: int, at: real, t: Plant, ops: seq<Op>,
    name: string)
    requires Inv(s) && name in names && Accepts(Observed(s, ros), names, values, stamp, ros)
    requires s.lastStep.Some? ==> s.lastStep.value <= at
    requires t == Commanded(s, names, values, stamp, ros, at) && name in s.joints && name in t.joints
    requires Inv(t) && LeftAlone(t, ops, name, at)
    ensures Travel(t, ops, name) <= Span(MaxSpeed(s.joints[name], s.speedLimit), 2.0 * s.watchdog)
  {
    hide Reach, Inv, Accepts, Commanded, LeftAlone, Travel, Span, MaxSpeed, Observed;
    ReachAfterCommand(s, names, values, stamp, ros, at, t, name);
    SpeedPositive(t, name);
    if t.lastStep.Some? && t.lastStep.value < at - s.watchdog {
      TravelAfterStall(t, ops, name, at);
      SpanNonNegative(MaxSpeed(t.joints[name], t.speedLimit), 2.0 * s.watchdog);
    } else {
      TravelWithinReach(t, ops, name, at);
    }
  }

  lemma ReachAfterCommand(
    s: Plant, names: seq<string>, values: seq<Number>, stamp: int, ros: int, at: real, t: Plant, name: string)
    requires Inv(s) && name in names && Accepts(Observed(s, ros), names, values, stamp, ros)
    requires s.lastStep.Some? ==> s.lastStep.value <= at
    requires t == Commanded(s, names, values, stamp, ros, at)
    ensures && Inv(t) && name in t.joints && name in t.deadlines
            && t.lastStep == s.lastStep && t.watchdog == s.watchdog && t.joints == s.joints
            && t.speedLimit == s.speedLimit && s.watchdog > 0.0
            && (!(s.lastStep.Some? && s.lastStep.value < at - s.watchdog) ==>
                  Reach(t, name, at) <= Span(MaxSpeed(s.joints[name], s.speedLimit), 2.0 * s.watchdog))
  {
    hide Inv, Accepts, Commanded, Observed, Span, MaxSpeed;
    CommandKeepsInv(s, names, values, stamp, ros, at);
    var deadline := DeadlineSet(s, names, values, stamp, ros, at, name);
    SpeedPositive(t, name);
    var base := if t.lastStep.Some? then t.lastStep.value else at;
    if base >= at - s.watchdog {
      SpanMonotone(MaxSpeed(t.joints[name], t.speedLimit), MaxReal(0.0, deadline - base), 2.0 * s.watchdog);
    }
  }

  lemma DeadlineSet(s: Plant, names: seq<string>, values: seq<Number>, stamp: int, ros: int, at: real, name: string)
    returns (deadline: real)
    requires Inv(s) && name in names && Accepts(Observed(s, ros), names, values, stamp, ros)
    ensures var t := Commanded(s, names, values, stamp, ros, at);
            && name in t.joints && name in t.deadlines && t.deadlines[name] == Some(deadline)
            && deadline <= at + s.watchdog
            && t.lastStep == s.lastStep && t.watchdog == s.watchdog && s.watchdog > 0.0
            && t.joints == s.joints && t.speedLimit == s.speedLimit
  {
    deadline := at + s.watchdog - MaxReal(0.0, Age(stamp, ros));
    CommandFrame(s, names, values, stamp, ros, at);
    assert names[..|names|] == names;
    TargetedAt(Observed(s, ros), names, values, stamp, deadline, |names|, name);
  }

  /** After a stall longer than the watchdog the next step only holds. */
  lemma {:induction false} TravelAfterStall(s: Plant, ops: seq<Op>, name: string, from: real)
    requires Inv(s) && name in s.joints && LeftAlone(s, ops, name, from)
    requires s.lastStep.Some? && s.lastStep.value < from - s.watchdog
    ensures Travel(s, ops, name) <= 0.0
    decreases |ops|
  {
    if ops != [] {
      match ops[0] {
        case StepOp(now) =>
          var t := Apply(s, ops[0]);
          assert t == Held(s.(lastStep := Some(now)));
          TravelWithinReach(t, ops[1..], name, now);
        case CommandOp(names, values, stamp, ros, at) =>
          CommandFrame(s, names, values, stamp, ros, at);
          TravelAfterStall(Apply(s, ops[0]), ops[1..], name, from);
        case ClockOp(ros) =>
          TravelAfterStall(Apply(s, ops[0]), ops[1..], name, from);
      }
    }
  }
}
