/**
 * Decision policy: from one telemetry record, update running velocity sums
 * and dispatch at most one corrective command towards a fixed target: an
 * altitude change first, a relative yaw change second, otherwise nothing.
 *
 * Dispatched commands are recorded in a ghost command log instead of being
 * sent over the link; the logged average velocities likewise go to a ghost
 * log instead of the text logger.
 */
module Command {
  import opened Wrappers
  import opened Telemetry

  /** The value of pi the source uses, as an exact real. */
  const PI: real := 3.141592653589793

  function Degrees(a: real): real { a * 180.0 / PI }

  function Radians(d: real): real { d * PI / 180.0 }

  function Abs(x: real): real { if x < 0.0 then -x else x }

  /** Altitude error, in meters, that is tolerated without a command. */
  const HeightTolerance: real := 0.5

  /** Heading error, in radians (5 degrees), that is tolerated without a command. */
  const AngleTolerance: real := Radians(5.0)

  /** MAVLink command identifiers used by the policy. */
  const ConditionChangeAlt: int := 113
  const ConditionYaw: int := 115

  /** A 3D vector: the target position, and the logged average velocity. */
  datatype Position = Position(x: real, y: real, z: real)

  /** One COMMAND_LONG invocation as handed to the link. */
  datatype CommandLong = CommandLong(
    targetSystem: int, targetComponent: int, command: int, confirmation: int,
    param1: real, param2: real, param3: real, param4: real,
    param5: real, param6: real, param7: real)

  /** The action a call reports (the source reports it as a text line). */
  datatype Action = ChangeAltitude(delta: real) | ChangeYaw(degrees: real)

  /** What one call decides: no action, or one action with the command that carries it out. */
  datatype Decision = NoAction | Act(action: Action, command: CommandLong)

  // ---------------------------------------------------------------------------
  // Angle normalisation

  /** `k` whole turns, in radians. */
  function Turns(k: int): real { (k as real) * 2.0 * PI }

  /** The smallest integer not below `x`. */
  function Ceil(x: real): (n: int)
    ensures x <= n as real < x + 1.0
  {
    -((-x).Floor)
  }

  /**
   * `r` is the normalisation of `a`: it lies in [-PI, PI], differs from `a`
   * by whole turns, is `a` itself when `a` is already in range, and keeps to
   * the side of the boundary it was reached from (an angle above PI ends in
   * (-PI, PI], one below -PI in [-PI, PI)).
   */
  ghost predicate NormalizesTo(a: real, r: real) {
    && -PI <= r <= PI
    && (exists k :: r == a + Turns(k))
    && (a > PI ==> r > -PI)
    && (a < -PI ==> r < PI)
    && (-PI <= a <= PI ==> r == a)
  }

  /** Closed form of the normalisation the source's two loops compute. */
  function NormalizedAngle(a: real): (r: real)
    ensures NormalizesTo(a, r)
  {
    if a > PI then
      var k := Ceil((a - PI) / (2.0 * PI));
      a + Turns(-k)
    else if a < -PI then
      var k := Ceil((-PI - a) / (2.0 * PI));
      a + Turns(k)
    else
      assert a == a + Turns(0);
      a
  }

  lemma TurnsDifference(k1: int, k2: int)
    ensures Turns(k1) - Turns(k2) == Turns(k1 - k2)
  {
  }

  /** The normalisation of an angle is unique. */
  lemma NormalizationIsUnique(a: real, r1: real, r2: real)
    requires NormalizesTo(a, r1) && NormalizesTo(a, r2)
    ensures r1 == r2
  {
    var k1 :| r1 == a + Turns(k1);
    var k2 :| r2 == a + Turns(k2);
    TurnsDifference(k1, k2);
    var d := k1 - k2;
    assert r1 - r2 == Turns(d);
    assert -1 <= d <= 1;
  }

  /** The normalisation of a raw difference just above PI wraps to just above -PI. */
  lemma NormalizeJustAbovePi()
    ensures NormalizedAngle(PI + 0.1) == -PI + 0.1
  {
    assert NormalizesTo(PI + 0.1, -PI + 0.1) by {
      assert -PI + 0.1 == (PI + 0.1) + Turns(-1);
    }
    NormalizationIsUnique(PI + 0.1, NormalizedAngle(PI + 0.1), -PI + 0.1);
  }

  /** The source's two normalisation loops: subtract whole turns while above PI, then add while below -PI. */
  method Normalize(raw: real) returns (angle: real)
    ensures angle == NormalizedAngle(raw)
  {
    angle := raw;
    ghost var k: int := 0;
    while angle > PI
      invariant angle == raw + Turns(k)
      invariant raw > PI ==> angle > -PI
      invariant raw <= PI ==> angle == raw
      decreases angle
    {
      angle := angle - 2.0 * PI;
      k := k - 1;
    }
    while angle < -PI
      invariant angle == raw + Turns(k)
      invariant angle <= PI
      invariant raw > PI ==> angle > -PI
      invariant raw < -PI ==> angle < PI
      invariant -PI <= raw <= PI ==> angle == raw
      decreases -angle
    {
      angle := angle + 2.0 * PI;
      k := k + 1;
    }
    NormalizationIsUnique(raw, angle, NormalizedAngle(raw));
  }

  // ---------------------------------------------------------------------------
  // The decision

  /** The altitude branch fires: altitude known and off target by more than the tolerance. */
  predicate AltitudeOff(target: Position, data: TelemetryData) {
    data.z.Some? && Abs(data.z.value - target.z) > HeightTolerance
  }

  /** The yaw branch reads x and y unchecked whenever it is reached with a yaw. */
  predicate PositionReadable(target: Position, data: TelemetryData) {
    data.yaw.Some? && !AltitudeOff(target, data) ==> data.x.Some? && data.y.Some?
  }

  /** The normalised angle between the current heading and the bearing to the target. */
  function YawError(target: Position, atan2: (real, real) -> real, data: TelemetryData): real
    requires data.x.Some? && data.y.Some? && data.yaw.Some?
  {
    NormalizedAngle(atan2(target.y - data.y.value, target.x - data.x.value) - data.yaw.value)
  }

  function AltitudeCommand(targetZ: real): CommandLong {
    CommandLong(1, 0, ConditionChangeAlt, 0, 1.0, 0.0, 0.0, 0.0, 0.0, 0.0, targetZ)
  }

  function YawCommand(degrees: real): CommandLong {
    CommandLong(1, 0, ConditionYaw, 0, degrees, 5.0, if degrees >= 0.0 then -1.0 else 1.0,
                1.0, 0.0, 0.0, 0.0)
  }

  /** The strict-priority policy of one call. */
  function Decide(target: Position, atan2: (real, real) -> real, data: TelemetryData): (d: Decision)
    requires PositionReadable(target, data)
    // altitude first, whatever the yaw error
    ensures (d.Act? && d.action.ChangeAltitude?) <==> AltitudeOff(target, data)
    // every command goes to system 1, component 0, first transmission
    ensures d.Act? ==>
              && d.command.targetSystem == 1 && d.command.targetComponent == 0
              && d.command.confirmation == 0
    ensures AltitudeOff(target, data) ==>
              && d.Act? && d.action.delta == target.z - data.z.value
              && data.z.value + d.action.delta == target.z
              && Abs(d.action.delta) > HeightTolerance
              && d.command.command == ConditionChangeAlt
              && d.command.param1 == 1.0 && d.command.param7 == target.z
              && d.command.param2 == d.command.param3 == d.command.param4 == 0.0
              && d.command.param5 == d.command.param6 == 0.0
    // yaw second, only when the altitude is fine
    ensures (d.Act? && d.action.ChangeYaw?) <==>
              && !AltitudeOff(target, data) && data.yaw.Some?
              && Abs(YawError(target, atan2, data)) > AngleTolerance
    ensures d.Act? && d.action.ChangeYaw? ==>
              && d.action.degrees == Degrees(YawError(target, atan2, data))
              && 5.0 < Abs(d.action.degrees) <= 180.0
              && d.command.command == ConditionYaw
              && d.command.param1 == d.action.degrees && d.command.param2 == 5.0
              && d.command.param3 == (if d.action.degrees >= 0.0 then -1.0 else 1.0)
              && d.command.param4 == 1.0
              && d.command.param5 == d.command.param6 == d.command.param7 == 0.0
  {
    if AltitudeOff(target, data) then
      Act(ChangeAltitude(target.z - data.z.value), AltitudeCommand(target.z))
    else if data.yaw.Some? then
      var angleDiff := YawError(target, atan2, data);
      if Abs(angleDiff) > AngleTolerance then
        var degrees := Degrees(angleDiff);
        Act(ChangeYaw(degrees), YawCommand(degrees))
      else NoAction
    else NoAction
  }

  /** A record with only the given fields present. */
  function Snapshot(x: Option<real>, y: Option<real>, z: Option<real>, yaw: Option<real>): TelemetryData {
    TelemetryData(None, x, y, z, None, None, None, None, None, yaw, None, None, None)
  }

  /**
   * With target (10, 0, 5): a record at altitude 3 asks for a climb of 2; a
   * record at altitude 5 at the origin heading 0, whose bearing to the target
   * is 0, asks for nothing.
   */
  lemma TwoCycleScenario(atan2: (real, real) -> real)
    requires atan2(0.0, 10.0) == 0.0
    ensures Decide(Position(10.0, 0.0, 5.0), atan2, Snapshot(None, None, Some(3.0), None))
            == Act(ChangeAltitude(2.0), AltitudeCommand(5.0))
    ensures Decide(Position(10.0, 0.0, 5.0), atan2, Snapshot(Some(0.0), Some(0.0), Some(5.0), Some(0.0)))
            == NoAction
  {
  }

  // ---------------------------------------------------------------------------
  // Running velocity average

  /** The running sums and the number of records seen. */
  datatype Accumulators = Accumulators(sumX: real, sumY: real, sumZ: real, count: nat)

  const NoSamples: Accumulators := Accumulators(0.0, 0.0, 0.0, 0)

  function OrZero(v: Option<real>): real { if v.Some? then v.value else 0.0 }

  /** One record: each present velocity component is added, and the count goes up by one. */
  function Accumulate(acc: Accumulators, data: TelemetryData): (r: Accumulators)
    ensures r.count == acc.count + 1
  {
    Accumulators(acc.sumX + OrZero(data.xVelocity), acc.sumY + OrZero(data.yVelocity),
                 acc.sumZ + OrZero(data.zVelocity), acc.count + 1)
  }

  /** The logged average: each sum over the count of all records. */
  function Average(acc: Accumulators): Position
    requires acc.count > 0
  {
    Position(acc.sumX / acc.count as real, acc.sumY / acc.count as real, acc.sumZ / acc.count as real)
  }

  /** The accumulators after the records `ds`, in order, starting from `acc`. */
  function AccumulateAll(acc: Accumulators, ds: seq<TelemetryData>): Accumulators
    decreases |ds|
  {
    if |ds| == 0 then acc else Accumulate(AccumulateAll(acc, ds[..|ds| - 1]), ds[|ds| - 1])
  }

  /** The sum of the present values of `s`. */
  function SumPresent(s: seq<Option<real>>): real
    decreases |s|
  {
    if |s| == 0 then 0.0 else SumPresent(s[..|s| - 1]) + OrZero(s[|s| - 1])
  }

  function XVelocities(ds: seq<TelemetryData>): seq<Option<real>> {
    seq(|ds|, i requires 0 <= i < |ds| => ds[i].xVelocity)
  }

  function YVelocities(ds: seq<TelemetryData>): seq<Option<real>> {
    seq(|ds|, i requires 0 <= i < |ds| => ds[i].yVelocity)
  }

  function ZVelocities(ds: seq<TelemetryData>): seq<Option<real>> {
    seq(|ds|, i requires 0 <= i < |ds| => ds[i].zVelocity)
  }

  /**
   * From no samples, each sum is the sum of the components present in the
   * records, and the count is the number of records, present components or not.
   */
  lemma {:induction false} AccumulateAllSums(ds: seq<TelemetryData>)
    ensures AccumulateAll(NoSamples, ds) ==
            Accumulators(SumPresent(XVelocities(ds)), SumPresent(YVelocities(ds)),
                         SumPresent(ZVelocities(ds)), |ds|)
    decreases |ds|
  {
    if |ds| > 0 {
      var init := ds[..|ds| - 1];
      AccumulateAllSums(init);
      assert XVelocities(ds)[..|ds| - 1] == XVelocities(init);
      assert YVelocities(ds)[..|ds| - 1] == YVelocities(init);
      assert ZVelocities(ds)[..|ds| - 1] == ZVelocities(init);
    }
  }

  /** The records (1,_,_), (_,2,_), (3,_,_), where _ is an absent component, one after the other. */
  function IntermittentSamples(): Accumulators {
    var r1, r2, r3 := Velocity(Some(1.0), None, None), Velocity(None, Some(2.0), None),
                      Velocity(Some(3.0), None, None);
    Accumulate(Accumulate(Accumulate(Accumulators(0.0, 0.0, 0.0, 0), r1), r2), r3)
  }

  /**
   * An absent component still counts towards the divisor: after those
   * records the x sum is 4 over a count of 3.
   */
  lemma IntermittentSums()
    ensures IntermittentSamples() == Accumulators(4.0, 2.0, 0.0, 3)
  {
  }

  /** So the logged x average is 4/3, not 4/2. */
  lemma IntermittentAverage(acc: Accumulators)
    requires acc == Accumulators(4.0, 2.0, 0.0, 3)
    ensures Average(acc) == Position(4.0 / 3.0, 2.0 / 3.0, 0.0)
  {
  }

  /** A record with only the given velocity components present. */
  function Velocity(vx: Option<real>, vy: Option<real>, vz: Option<real>): TelemetryData {
    TelemetryData(None, None, None, None, vx, vy, vz, None, None, None, None, None, None)
  }

  // ---------------------------------------------------------------------------
  // The decision maker

  /**
   * Holds the target, the accumulators and the link (here: the two ghost
   * logs). `atan2` is the two-argument arc tangent of the math library,
   * left uninterpreted.
   */
  class Command {
    const target: Position
    const atan2: (real, real) -> real
    var velocitySumX: real
    var velocitySumY: real
    var velocitySumZ: real
    var dataCount: nat
    /** Every command dispatched to the link, oldest first. */
    ghost var commandLog: seq<CommandLong>
    /** Every average velocity logged, oldest first. */
    ghost var averageLog: seq<Position>

    function Samples(): Accumulators
      reads this
    {
      Accumulators(velocitySumX, velocitySumY, velocitySumZ, dataCount)
    }

    constructor (target: Position, atan2: (real, real) -> real)
      ensures this.target == target && this.atan2 == atan2
      ensures Samples() == NoSamples
      ensures commandLog == [] && averageLog == []
    {
      this.target := target;
      this.atan2 := atan2;
      velocitySumX, velocitySumY, velocitySumZ := 0.0, 0.0, 0.0;
      dataCount := 0;
      commandLog, averageLog := [], [];
    }

    /**
     * One decision: update the accumulators and log the average, then
     * dispatch the altitude command, or else the yaw command, or nothing.
     * Returns whether a command was sent and which action it was.
     */
    method Run(data: TelemetryData) returns (sent: bool, action: Option<Action>)
      requires PositionReadable(target, data)
      modifies this
      ensures Samples() == Accumulate(old(Samples()), data)
      ensures averageLog == old(averageLog) + [Average(Samples())]
      ensures var d := Decide(target, atan2, data);
              && sent == d.Act?
              && action == (if d.Act? then Some(d.action) else None)
              && commandLog == old(commandLog) + (if d.Act? then [d.command] else [])
    {
      UpdateAverage(data);
      sent, action := Correct(data);
    }

    /** The running-average part of a call: add the present components, count the record, log the averages. */
    method UpdateAverage(data: TelemetryData)
      modifies this`velocitySumX, this`velocitySumY, this`velocitySumZ, this`dataCount, this`averageLog
      ensures Samples() == Accumulate(old(Samples()), data)
      ensures averageLog == old(averageLog) + [Average(Samples())]
    {
      if data.xVelocity.Some? {
        velocitySumX := velocitySumX + data.xVelocity.value;
      }
      if data.yVelocity.Some? {
        velocitySumY := velocitySumY + data.yVelocity.value;
      }
      if data.zVelocity.Some? {
        velocitySumZ := velocitySumZ + data.zVelocity.value;
      }
      dataCount := dataCount + 1;

      var average := Position(velocitySumX / dataCount as real, velocitySumY / dataCount as real,
                              velocitySumZ / dataCount as real);
      averageLog := averageLog + [average];
    }

    /** The corrective part of a call: at most one command, altitude before yaw. */
    method Correct(data: TelemetryData) returns (sent: bool, action: Option<Action>)
      requires PositionReadable(target, data)
      modifies this`commandLog
      ensures var d := Decide(target, atan2, data);
              && sent == d.Act?
              && action == (if d.Act? then Some(d.action) else None)
              && commandLog == old(commandLog) + (if d.Act? then [d.command] else [])
    {
      if data.z.Some? && Abs(data.z.value - target.z) > HeightTolerance {
        var deltaZ := target.z - data.z.value;
        commandLog := commandLog + [CommandLong(1, 0, ConditionChangeAlt, 0, 1.0, 0.0, 0.0, 0.0,
                                                0.0, 0.0, target.z)];
        return true, Some(ChangeAltitude(deltaZ));
      }

      if data.yaw.Some? {
        var dx := target.x - data.x.value;
        var dy := target.y - data.y.value;
        var requiredYaw := atan2(dy, dx);
        var angleDiff := Normalize(requiredYaw - data.yaw.value);
        if Abs(angleDiff) > AngleTolerance {
          var angleDiffDeg := Degrees(angleDiff);
          var direction := if angleDiffDeg >= 0.0 then -1.0 else 1.0;
          commandLog := commandLog + [CommandLong(1, 0, ConditionYaw, 0, angleDiffDeg, 5.0, direction,
                                                  1.0, 0.0, 0.0, 0.0)];
          return true, Some(ChangeYaw(angleDiffDeg));
        }
      }

      return false, None;
    }
  }
}
