/** The servo host: named servos on PWM outputs, each positioned by an int
    payload holding an angle in degrees. The comparator of each servo's
    PWM generator is modelled by the pulse width it holds. */
module ServoHost {
  import opened CInt
  import opened Payload
  import opened Host
  import F = Factory

  const SERVO_MIN_PW_US := 500
  const SERVO_MAX_PW_US := 2500
  const SERVO_MIN_DEGREE := -90
  const SERVO_MAX_DEGREE := 90
  const SERVO_TIME_RESOLUTION_HZ := 1000000
  const SERVO_TIME_PERIOD := 20000

  /** `AngleToPulsewidth(angle)`: the pulse width in microseconds, linear
      between 500 at -90 degrees and 2500 at +90 degrees, divided with C's
      truncation and converted to `uint32_t`. */
  function AngleToPulsewidth(angle: int): (pw: UInt32) {
    WrapU32(CDiv((angle - SERVO_MIN_DEGREE) * (SERVO_MAX_PW_US - SERVO_MIN_PW_US),
                 SERVO_MAX_DEGREE - SERVO_MIN_DEGREE) + SERVO_MIN_PW_US)
  }

  /** A servo (`Servo`): its name, pin and angle limits, by default the
      full -90..90 degree range. */
  datatype Servo = Servo(name: string, pin: int, maxAngle: int, minAngle: int)

  function NewServo(name: string, pin: int): Servo {
    Servo(name, pin, 90, -90)
  }

  class ServoHost {
    const base: ObjMsgHost
    var servos: map<string, Servo>
    /** The compare value of each servo's comparator. */
    var pulseWidths: map<string, UInt32>

    /** `ServoHost(transport, origin)`; the PWM timer counts at 1 MHz with
        a 20 ms period. */
    constructor (transport: Transport.ObjMsgTransport, origin: UInt16)
      ensures base.transport == transport && base.originId == origin && base.tag == "SERVO"
      ensures servos == map[] && pulseWidths == map[]
    {
      base := new ObjMsgHost(transport, "SERVO", origin);
      servos := map[];
      pulseWidths := map[];
    }

    /** `Add(name, pin)`: the name registered for int payloads and a servo
        under `name`, its comparator set to the centre position. */
    method Add(factory: F.ObjMsgDataFactory, name: string, pin: int) returns (r: int)
      modifies this, factory
      ensures r == 0
      ensures factory.dataClasses == F.Register(old(factory.dataClasses), name, IntClass).0
      ensures servos == old(servos)[name := NewServo(name, pin)]
      ensures pulseWidths == old(pulseWidths)[name := AngleToPulsewidth(0)]
    {
      var _ := factory.RegisterClass(base.originId, name, IntClass);
      pulseWidths := pulseWidths[name := AngleToPulsewidth(0)];
      servos := servos[name := Servo(name, pin, 90, -90)];
      r := 0;
    }

    /** `Consume(data)`: a payload named after a servo sets that servo's
        pulse width from its angle, clamped to the servo's limits; anything
        else is refused. The payload is taken as an int payload without a
        check, so the code demands one. */
    method Consume(data: ObjMsgData?) returns (accepted: bool)
      requires data != null && data.name in servos ==> data.value.IntValue?
      modifies this
      ensures servos == old(servos)
      ensures accepted <==> data != null && data.name in servos
      ensures accepted ==> pulseWidths == old(pulseWidths)[data.name :=
                AngleToPulsewidth(ClampMinMax(data.value.i, servos[data.name].minAngle, servos[data.name].maxAngle))]
      ensures !accepted ==> pulseWidths == old(pulseWidths)
    {
      accepted := false;
      if data != null {
        if data.GetName() in servos {
          var servo := servos[data.GetName()];
          var angle := data.value.i;
          angle := ClampMinMax(angle, servo.minAngle, servo.maxAngle);
          pulseWidths := pulseWidths[data.GetName() := AngleToPulsewidth(angle)];
          accepted := true;
        }
      }
    }
  }

  // --------------------------------------------------------------- lemmas

  /** The end points and the centre of the range. */
  lemma PulsewidthLandmarks()
    ensures AngleToPulsewidth(-90) == 500
    ensures AngleToPulsewidth(0) == 1500
    ensures AngleToPulsewidth(90) == 2500
  {
    CDivTruncates(0, 180);
    CDivTruncates(90 * 2000, 180);
    CDivTruncates(180 * 2000, 180);
  }

  /** Within the servo's range the pulse width is the exact linear value
      rounded down, so it grows strictly with the angle and stays between
      500 and 2500 microseconds. */
  lemma PulsewidthLinear(angle: int)
    requires SERVO_MIN_DEGREE <= angle <= SERVO_MAX_DEGREE
    ensures 500 <= AngleToPulsewidth(angle) <= 2500
    ensures AngleToPulsewidth(angle) * 180 <= (angle + 90) * 2000 + 500 * 180 < (AngleToPulsewidth(angle) + 1) * 180
  {
    CDivTruncates((angle + 90) * 2000, 180);
  }

  lemma PulsewidthMonotone(a: int, b: int)
    requires SERVO_MIN_DEGREE <= a < b <= SERVO_MAX_DEGREE
    ensures AngleToPulsewidth(a) < AngleToPulsewidth(b)
  {
    PulsewidthLinear(a);
    PulsewidthLinear(b);
  }

  /** Every angle a servo is sent, however far out of range, gives a pulse
      width between the limits. */
  lemma ConsumedInRange(s: Servo, angle: int)
    requires s.minAngle == -90 && s.maxAngle == 90
    ensures 500 <= AngleToPulsewidth(ClampMinMax(angle, s.minAngle, s.maxAngle)) <= 2500
  {
    PulsewidthLinear(ClampMinMax(angle, s.minAngle, s.maxAngle));
  }
}
