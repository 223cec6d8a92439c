/** Value types shared by the motion modules. */
module MotionTypes {

  type Id = string
  type Joint = string

  /** A point or a span on one clock, in nanoseconds. */
  type Time = int

  function Seconds(span: Time): real { span as real / 1000000000.0 }

  datatype Option<+T> = None | Some(value: T)

  datatype Kind = MoveJ | MoveL | MoveP | ServoJ | ServoP {
    predicate IsServo() { ServoJ? || ServoP? }
    predicate IsMove() { !IsServo() }
  }

  datatype Code =
    | OK
    | INVALID_ARGUMENT
    | NOT_CONFIGURED
    | REJECTED
    | PREEMPTED
    | CANCELED
    | TIMEOUT
    | STALE_FEEDBACK
    | SDK_ERROR
    | LIMIT_VIOLATION
    | INTERNAL_ERROR

  predicate Unique<T(==)>(s: seq<T>) {
    forall i, j :: 0 <= i < j < |s| ==> s[i] != s[j]
  }

  function Members(names: seq<string>): (members: set<string>)
    ensures forall name :: name in members <==> name in names
  {
    set name | name in names
  }

  /** The same value for every joint. */
  function Each<T>(joints: seq<Joint>, value: T): (m: map<Joint, T>)
    ensures forall joint :: joint in m <==> joint in joints
    ensures forall joint :: joint in m ==> m[joint] == value
  {
    map joint | joint in joints :: value
  }

  /** Two joint lists share a name. */
  predicate Overlaps(left: seq<Joint>, right: seq<Joint>) {
    exists joint :: joint in left && joint in right
  }

  function Min(a: int, b: int): int { if a < b then a else b }

  function Max(a: int, b: int): int { if a < b then b else a }

  function MaxReal(a: real, b: real): real { if a < b then b else a }

  function MinReal(a: real, b: real): real { if a < b then a else b }

  function AbsReal(a: real): real { if a < 0.0 then -a else a }

  /** A joint group: its joints and their model limits, index by index. */
  datatype Group = Group(name: string, joints: seq<Joint>, lower: seq<real>, upper: seq<real>)

  ghost predicate ValidGroup(group: Group) {
    && group.name != ""
    && group.joints != [] && Unique(group.joints) && "" !in group.joints
    && |group.lower| == |group.joints| == |group.upper|
    && forall i :: 0 <= i < |group.joints| ==> group.lower[i] <= group.upper[i]
  }

  datatype JointTarget =
    JointTarget(joints: seq<Joint>, positions: seq<real>, velocities: seq<real>, accelerations: seq<real>)

  /** `finite` is false when some value is an infinity or not a number. */
  datatype Feedback =
    Feedback(joints: seq<Joint>, positions: seq<real>, velocities: seq<real>, finite: bool, receivedAt: Time)

  datatype JointCommand = JointCommand(
    group: string, joints: seq<Joint>, positions: seq<real>, velocities: seq<real>, accelerations: seq<real>,
    finite: bool, passedRtc: bool, session: Id, validUntil: Option<Time>, token: nat)
}
