/** The three-axis joystick host: each joystick reads three ADC channels
    of the ADC host and a button port of the GPIO host, averages five
    readings per axis, centres itself on its first reading, and publishes
    a `Joystick3AxisSample_t` when it moved by more than its hysteresis or
    the button changed. The converter's counts and the button's pin level
    are parameters. */
module Joystick3AxisHost {
  import opened CInt
  import opened Payload
  import opened Transport
  import opened Host
  import opened AdcHost
  import opened GpioHost
  import J3 = Joystick3AxisData
  import F = Factory

  /** `NO_OF_SAMPLES`: the readings averaged per axis. */
  const NO_OF_SAMPLES: int := 5

  /** The scaling each axis channel is added with. */
  const AXIS_MAX_COUNTS: Int16 := 4096
  const AXIS_MIN: Int32 := -100
  const AXIS_MAX: Int32 := 100

  /** The sum of the readings of a channel for successive raw counts. */
  function SumReadings(s: Segments, raws: seq<int>): int
    decreases |raws|
  {
    if raws == [] then 0 else SumReadings(s, raws[..|raws| - 1]) + Reading(s, raws[|raws| - 1])
  }

  /** `reading /= NO_OF_SAMPLES`: the sum divided with C's truncation. */
  function Averaged(s: Segments, raws: seq<int>): int {
    CDiv(SumReadings(s, raws), NO_OF_SAMPLES)
  }

  /** The joystick moved: an axis differs from the last published sample
      by more than the hysteresis, or the button changed. */
  predicate Moved(sample: J3.Sample, x: int, y: int, z: int, up: int, hysteresis: int) {
    Abs(sample.x - x) > hysteresis || Abs(sample.y - y) > hysteresis
    || Abs(sample.z - z) > hysteresis || sample.up != up
  }

  /** The sample stored on a move: the averages truncated to `int16_t`. */
  function Stored(x: int, y: int, z: int, up: Int16): J3.Sample {
    J3.Sample(Wrap16(x), Wrap16(y), Wrap16(z), up)
  }

  /** The names the joystick's channels and button are added under. */
  function AxisName(name: string, axis: char): string {
    name + ['-', axis]
  }

  function ButtonName(name: string): string {
    name + "-up"
  }

  /** A joystick (`Joystick3Axis`): its channels, its button, whether it
      was centred, its hysteresis, and the last sample it published. */
  class Joystick3Axis {
    const name: string
    const mode: ObjMsgSample
    const xchan: AdcChannel
    const ychan: AdcChannel
    const zchan: AdcChannel
    const btnPort: GpioPort
    const hysteresis: int
    var centered: bool
    var changed: int
    var sample: J3.Sample

    /** The three axes are three channels. */
    predicate Distinct() {
      xchan != ychan && ychan != zchan && xchan != zchan
    }

    constructor (name: string, mode: ObjMsgSample, xchan: AdcChannel, ychan: AdcChannel, zchan: AdcChannel,
                 btnPort: GpioPort)
      ensures this.name == name && this.mode == mode && this.xchan == xchan && this.ychan == ychan
      ensures this.zchan == zchan && this.btnPort == btnPort
      ensures hysteresis == DEFAULT_HYSTERESIS && !centered && changed == 0 && sample == J3.Zero
    {
      this.name := name;
      this.mode := mode;
      this.xchan := xchan;
      this.ychan := ychan;
      this.zchan := zchan;
      this.btnPort := btnPort;
      hysteresis := DEFAULT_HYSTERESIS;
      centered := false;
      changed := 0;
      sample := J3.Zero;
    }
  }

  class Joystick3AxisHost {
    const base: ObjMsgHost
    const adc: AdcHost
    const gpio: GpioHost
    const sampleIntervalMs: int
    var anyChangeEvents: bool
    var joysticks: map<string, Joystick3Axis>

    ghost predicate Valid()
      reads this
    {
      forall n :: n in joysticks ==> joysticks[n].Distinct()
    }

    /** `Joystick3AxisHost(adc, gpio, transport, origin, sampleIntervalMs)`. */
    constructor (adc: AdcHost, gpio: GpioHost, transport: ObjMsgTransport, origin: UInt16, sampleIntervalMs: int)
      ensures Valid() && this.adc == adc && this.gpio == gpio && this.sampleIntervalMs == sampleIntervalMs
      ensures base.transport == transport && base.originId == origin && base.tag == "JOYSTICK"
      ensures joysticks == map[] && !anyChangeEvents
    {
      base := new ObjMsgHost(transport, "JOYSTICK", origin);
      this.adc := adc;
      this.gpio := gpio;
      this.sampleIntervalMs := sampleIntervalMs;
      anyChangeEvents := false;
      joysticks := map[];
    }

    /** An axis channel as `Add` creates it on the ADC host: a polled
        channel scaled from -100 to 100 over 4096 counts and registered for
        int payloads. */
    method AddAxis(factory: F.ObjMsgDataFactory, n: string, ad: int) returns (ch: AdcChannel)
      requires adc.Valid()
      modifies adc, factory, if n in adc.channels then {adc.channels[n]} else {}
      ensures adc.Valid() && adc.channels == old(adc.channels)[n := ch]
      ensures n in old(adc.channels) ==> ch == old(adc.channels)[n]
      ensures n !in old(adc.channels) ==> fresh(ch)
      ensures ch.Scaling() == FreshSegments(AXIS_MAX_COUNTS, AXIS_MIN, AXIS_MAX) && ch.mode == Polling && ch.channel == ad
      ensures factory.dataClasses == F.Register(old(factory.dataClasses), n, IntClass).0
      ensures adc.anyChangeEvents == old(adc.anyChangeEvents)
    {
      ch := adc.Add(factory, n, Polling, ad, AXIS_MAX_COUNTS, AXIS_MIN, AXIS_MAX);
    }

    /** The x and y axis channels. */
    method AddPair(factory: F.ObjMsgDataFactory, xn: string, yn: string, adX: int, adY: int)
      returns (x: AdcChannel, y: AdcChannel)
      requires adc.Valid() && xn != yn
      modifies adc, factory
      modifies if xn in adc.channels then {adc.channels[xn]} else {}
      modifies if yn in adc.channels then {adc.channels[yn]} else {}
      ensures adc.Valid() && x != y
      ensures adc.channels == old(adc.channels)[xn := x][yn := y]
      ensures x.Scaling() == FreshSegments(AXIS_MAX_COUNTS, AXIS_MIN, AXIS_MAX) && x.mode == Polling && x.channel == adX
      ensures y.Scaling() == FreshSegments(AXIS_MAX_COUNTS, AXIS_MIN, AXIS_MAX) && y.mode == Polling && y.channel == adY
      ensures factory.dataClasses == F.RegisterEach(old(factory.dataClasses), [(xn, IntClass), (yn, IntClass)])
      ensures adc.anyChangeEvents == old(adc.anyChangeEvents)
    {
      ghost var r0 := factory.dataClasses;
      x := AddAxis(factory, xn, adX);
      F.RegisterEachSnoc(r0, [], xn, IntClass);
      assert [] + [(xn, IntClass)] == [(xn, IntClass)];
      assert adc.channels[xn] == x;
      assert yn in adc.channels ==> adc.channels[yn] != x;
      y := AddAxis(factory, yn, adY);
      F.RegisterEachSnoc(r0, [(xn, IntClass)], yn, IntClass);
    }

    /** The three axis channels. */
    method AddAxes(factory: F.ObjMsgDataFactory, xn: string, yn: string, zn: string, adX: int, adY: int, adZ: int)
      returns (x: AdcChannel, y: AdcChannel, z: AdcChannel)
      requires adc.Valid() && xn != yn && yn != zn && xn != zn
      modifies adc, factory
      modifies if xn in adc.channels then {adc.channels[xn]} else {}
      modifies if yn in adc.channels then {adc.channels[yn]} else {}
      modifies if zn in adc.channels then {adc.channels[zn]} else {}
      ensures adc.Valid() && x != y && y != z && x != z
      ensures adc.channels == old(adc.channels)[xn := x][yn := y][zn := z]
      ensures x.Scaling() == FreshSegments(AXIS_MAX_COUNTS, AXIS_MIN, AXIS_MAX) && x.mode == Polling && x.channel == adX
      ensures y.Scaling() == FreshSegments(AXIS_MAX_COUNTS, AXIS_MIN, AXIS_MAX) && y.mode == Polling && y.channel == adY
      ensures z.Scaling() == FreshSegments(AXIS_MAX_COUNTS, AXIS_MIN, AXIS_MAX) && z.mode == Polling && z.channel == adZ
      ensures factory.dataClasses == F.RegisterEach(old(factory.dataClasses), [(xn, IntClass), (yn, IntClass), (zn, IntClass)])
      ensures adc.anyChangeEvents == old(adc.anyChangeEvents)
    {
      ghost var r0 := factory.dataClasses;
      x, y := AddPair(factory, xn, yn, adX, adY);
      assert adc.channels[xn] == x && adc.channels[yn] == y;
      assert zn in adc.channels ==> adc.channels[zn] != x && adc.channels[zn] != y;
      z := AddAxis(factory, zn, adZ);
      F.RegisterEachSnoc(r0, [(xn, IntClass), (yn, IntClass)], zn, IntClass);
      assert [(xn, IntClass), (yn, IntClass)] + [(zn, IntClass)] == [(xn, IntClass), (yn, IntClass), (zn, IntClass)];
    }

    /** `Add(name, mode, ad_x, ad_y, ad_z, btn)`: the three axis channels,
        a pulled-up button input, and the name registered for three-axis
        payloads. */
    method Add(factory: F.ObjMsgDataFactory, name: string, mode: ObjMsgSample, adX: int, adY: int, adZ: int, btn: int)
      returns (r: int)
      requires Valid() && adc.Valid()
      modifies this, factory, adc, gpio
      modifies if AxisName(name, 'x') in adc.channels then {adc.channels[AxisName(name, 'x')]} else {}
      modifies if AxisName(name, 'y') in adc.channels then {adc.channels[AxisName(name, 'y')]} else {}
      modifies if AxisName(name, 'z') in adc.channels then {adc.channels[AxisName(name, 'z')]} else {}
      ensures Valid() && adc.Valid() && r == 0
      ensures name in joysticks && joysticks == old(joysticks)[name := joysticks[name]] && fresh(joysticks[name])
      ensures var js := joysticks[name];
              && js.name == name && js.mode == mode && !js.centered && js.sample == J3.Zero
              && js.hysteresis == DEFAULT_HYSTERESIS
              && adc.channels == old(adc.channels)[AxisName(name, 'x') := js.xchan]
                                 [AxisName(name, 'y') := js.ychan][AxisName(name, 'z') := js.zchan]
              && js.xchan.Scaling() == FreshSegments(AXIS_MAX_COUNTS, AXIS_MIN, AXIS_MAX)
              && js.ychan.Scaling() == FreshSegments(AXIS_MAX_COUNTS, AXIS_MIN, AXIS_MAX)
              && js.zchan.Scaling() == FreshSegments(AXIS_MAX_COUNTS, AXIS_MIN, AXIS_MAX)
              && gpio.ports == old(gpio.ports)[ButtonName(name) := js.btnPort]
              && js.btnPort.flags == IS_INPUT_GF | PULLUP_GF && js.btnPort.pin == btn
      ensures anyChangeEvents == (old(anyChangeEvents) || mode == ChangeEvent)
      ensures factory.dataClasses
              == F.RegisterEach(old(factory.dataClasses), [(AxisName(name, 'x'), IntClass), (AxisName(name, 'y'), IntClass),
                   (AxisName(name, 'z'), IntClass), (ButtonName(name), IntClass), (name, Joystick3Class)])
      ensures adc.anyChangeEvents == old(adc.anyChangeEvents)
      ensures gpio.anyChangeEvents == old(gpio.anyChangeEvents)
    {
      AxisNamesDistinct(name);
      var js := NewJoystick(factory, name, mode, AxisName(name, 'x'), AxisName(name, 'y'), AxisName(name, 'z'),
                            ButtonName(name), adX, adY, adZ, btn);
      joysticks := joysticks[name := js];
      if mode == ChangeEvent {
        anyChangeEvents := true;
      }
      r := 0;
    }

    /** The joystick `Add` builds, with its channels, its button and the
        registrations. */
    method NewJoystick(factory: F.ObjMsgDataFactory, name: string, mode: ObjMsgSample,
                       xn: string, yn: string, zn: string, bn: string, adX: int, adY: int, adZ: int, btn: int)
      returns (js: Joystick3Axis)
      requires adc.Valid() && xn != yn && yn != zn && xn != zn
      modifies factory, adc, gpio
      modifies if xn in adc.channels then {adc.channels[xn]} else {}
      modifies if yn in adc.channels then {adc.channels[yn]} else {}
      modifies if zn in adc.channels then {adc.channels[zn]} else {}
      ensures unchanged(this) && adc.Valid() && fresh(js) && js.Distinct()
      ensures js.name == name && js.mode == mode && !js.centered && js.sample == J3.Zero
      ensures js.hysteresis == DEFAULT_HYSTERESIS
      ensures adc.channels == old(adc.channels)[xn := js.xchan][yn := js.ychan][zn := js.zchan]
      ensures js.xchan.Scaling() == FreshSegments(AXIS_MAX_COUNTS, AXIS_MIN, AXIS_MAX)
      ensures js.ychan.Scaling() == FreshSegments(AXIS_MAX_COUNTS, AXIS_MIN, AXIS_MAX)
      ensures js.zchan.Scaling() == FreshSegments(AXIS_MAX_COUNTS, AXIS_MIN, AXIS_MAX)
      ensures gpio.ports == old(gpio.ports)[bn := js.btnPort]
      ensures js.btnPort.flags == IS_INPUT_GF | PULLUP_GF && js.btnPort.pin == btn
      ensures factory.dataClasses
              == F.RegisterEach(old(factory.dataClasses), [(xn, IntClass), (yn, IntClass), (zn, IntClass), (bn, IntClass),
                   (name, Joystick3Class)])
      ensures adc.anyChangeEvents == old(adc.anyChangeEvents)
      ensures gpio.anyChangeEvents == old(gpio.anyChangeEvents)
    {
      ghost var r0 := factory.dataClasses;
      var x, y, z, port := AddInputs(factory, xn, yn, zn, bn, adX, adY, adZ, btn);
      ghost var inputs := [(xn, IntClass), (yn, IntClass), (zn, IntClass), (bn, IntClass)];
      var _ := factory.RegisterClass(base.originId, name, Joystick3Class);
      F.RegisterEachSnoc(r0, inputs, name, Joystick3Class);
      assert inputs + [(name, Joystick3Class)]
             == [(xn, IntClass), (yn, IntClass), (zn, IntClass), (bn, IntClass), (name, Joystick3Class)];
      js := new Joystick3Axis(name, mode, x, y, z, port);
    }

    /** The three channels and the button, each registered for int payloads. */
    method AddInputs(factory: F.ObjMsgDataFactory, xn: string, yn: string, zn: string, bn: string,
                     adX: int, adY: int, adZ: int, btn: int)
      returns (x: AdcChannel, y: AdcChannel, z: AdcChannel, port: GpioPort)
      requires adc.Valid() && xn != yn && yn != zn && xn != zn
      modifies factory, adc, gpio
      modifies if xn in adc.channels then {adc.channels[xn]} else {}
      modifies if yn in adc.channels then {adc.channels[yn]} else {}
      modifies if zn in adc.channels then {adc.channels[zn]} else {}
      ensures adc.Valid() && x != y && y != z && x != z
      ensures adc.channels == old(adc.channels)[xn := x][yn := y][zn := z]
      ensures x.Scaling() == FreshSegments(AXIS_MAX_COUNTS, AXIS_MIN, AXIS_MAX)
      ensures y.Scaling() == FreshSegments(AXIS_MAX_COUNTS, AXIS_MIN, AXIS_MAX)
      ensures z.Scaling() == FreshSegments(AXIS_MAX_COUNTS, AXIS_MIN, AXIS_MAX)
      ensures gpio.ports == old(gpio.ports)[bn := port] && port.flags == IS_INPUT_GF | PULLUP_GF && port.pin == btn
      ensures factory.dataClasses
              == F.RegisterEach(old(factory.dataClasses), [(xn, IntClass), (yn, IntClass), (zn, IntClass), (bn, IntClass)])
      ensures adc.anyChangeEvents == old(adc.anyChangeEvents)
      ensures gpio.anyChangeEvents == old(gpio.anyChangeEvents)
    {
      ghost var r0 := factory.dataClasses;
      ghost var axes := [(xn, IntClass), (yn, IntClass), (zn, IntClass)];
      x, y, z := AddAxes(factory, xn, yn, zn, adX, adY, adZ);
      ghost var fresh3 := FreshSegments(AXIS_MAX_COUNTS, AXIS_MIN, AXIS_MAX);
      port := AddButton(factory, bn, btn);
      assert x.Scaling() == fresh3 && y.Scaling() == fresh3 && z.Scaling() == fresh3;
      F.RegisterEachSnoc(r0, axes, bn, IntClass);
      assert axes + [(bn, IntClass)] == [(xn, IntClass), (yn, IntClass), (zn, IntClass), (bn, IntClass)];
    }

    /** The button input `Add` creates on the GPIO host. */
    method AddButton(factory: F.ObjMsgDataFactory, n: string, btn: int) returns (port: GpioPort)
      modifies gpio, factory
      ensures fresh(port) && gpio.ports == old(gpio.ports)[n := port]
      ensures port.flags == IS_INPUT_GF | PULLUP_GF && port.pin == btn
      ensures factory.dataClasses == F.Register(old(factory.dataClasses), n, IntClass).0
      ensures gpio.anyChangeEvents == old(gpio.anyChangeEvents)
    {
      var conf;
      port, conf := gpio.Add(factory, n, btn, Polling, IS_INPUT_GF | PULLUP_GF);
    }

    /** `Center(name, x, y)`: the x and y channels take their last counts
        as `x` and `y`; the z channel is left alone. False for a name that
        is not a joystick. */
    method Center(name: string, x: int, y: int) returns (found: bool)
      requires Valid()
      modifies if name in joysticks then {joysticks[name].xchan, joysticks[name].ychan} else {}
      ensures found <==> name in joysticks
      ensures found ==> var js := joysticks[name];
                        && js.xchan.Scaling() == old(js.xchan.Scaling()).(rRef := js.xchan.raw, vRefX2 := 2 * x)
                        && js.ychan.Scaling() == old(js.ychan.Scaling()).(rRef := js.ychan.raw, vRefX2 := 2 * y)
                        && js.xchan.raw == old(js.xchan.raw) && js.ychan.raw == old(js.ychan.raw)
    {
      if name in joysticks {
        var js := joysticks[name];
        js.xchan.SetReference(x);
        js.ychan.SetReference(y);
        found := true;
      } else {
        found := false;
      }
    }

    /** Five readings of one channel, summed. */
    method SumChannel(ch: AdcChannel, raws: seq<int>) returns (sum: int)
      requires |raws| == NO_OF_SAMPLES
      modifies ch
      ensures sum == SumReadings(old(ch.Scaling()), raws)
      ensures ch.Scaling() == old(ch.Scaling()) && ch.raw == ClampMinMax(raws[NO_OF_SAMPLES - 1], 0, ch.rMax)
      ensures ch.mode == old(ch.mode) && ch.hysteresis == old(ch.hysteresis) && ch.channel == old(ch.channel)
    {
      sum := 0;
      var i := 0;
      while i < NO_OF_SAMPLES
        invariant 0 <= i <= NO_OF_SAMPLES
        invariant sum == SumReadings(old(ch.Scaling()), raws[..i])
        invariant ch.Scaling() == old(ch.Scaling())
        invariant i > 0 ==> ch.raw == ClampMinMax(raws[i - 1], 0, ch.rMax)
        invariant ch.mode == old(ch.mode) && ch.hysteresis == old(ch.hysteresis) && ch.channel == old(ch.channel)
      {
        var v := adc.MeasureChannel(ch, raws[i]);
        assert raws[..i + 1][..i] == raws[..i];
        sum := sum + v;
        i := i + 1;
      }
      assert raws[..NO_OF_SAMPLES] == raws;
    }

    /** `Measure(js)`: the averaged readings of the three axes and the
        button's level, the channels centred on the first call, and the
        sample replaced when the joystick moved. */
    method Measure(js: Joystick3Axis, rawX: seq<int>, rawY: seq<int>, rawZ: seq<int>, high: bool)
      returns (moved: bool)
      requires js.Distinct() && |rawX| == NO_OF_SAMPLES && |rawY| == NO_OF_SAMPLES && |rawZ| == NO_OF_SAMPLES
      modifies js, js.xchan, js.ychan, js.zchan, js.btnPort
      ensures var x := Averaged(old(js.xchan.Scaling()), rawX);
              var y := Averaged(old(js.ychan.Scaling()), rawY);
              var z := Averaged(old(js.zchan.Scaling()), rawZ);
              var up := Level(js.btnPort.flags, high);
              && (moved <==> Moved(old(js.sample), x, y, z, up, js.hysteresis))
              && (moved ==> js.sample == Stored(x, y, z, up) && js.changed == 1)
              && (!moved ==> js.sample == old(js.sample) && js.changed == 0)
      ensures (js.btnPort.value, js.btnPort.changed) == Sense(old(js.btnPort.value), Level(js.btnPort.flags, high))
      ensures js.centered
      ensures old(js.centered) ==> js.xchan.Scaling() == old(js.xchan.Scaling())
                                   && js.ychan.Scaling() == old(js.ychan.Scaling())
                                   && js.zchan.Scaling() == old(js.zchan.Scaling())
      ensures !old(js.centered) ==> js.xchan.Scaling() == old(js.xchan.Scaling()).(rRef := js.xchan.raw, vRefX2 := 0)
                                    && js.ychan.Scaling() == old(js.ychan.Scaling()).(rRef := js.ychan.raw, vRefX2 := 0)
                                    && js.zchan.Scaling() == old(js.zchan.Scaling()).(rRef := js.zchan.raw, vRefX2 := 0)
      ensures js.xchan.raw == ClampMinMax(rawX[NO_OF_SAMPLES - 1], 0, js.xchan.rMax)
      ensures js.ychan.raw == ClampMinMax(rawY[NO_OF_SAMPLES - 1], 0, js.ychan.rMax)
      ensures js.zchan.raw == ClampMinMax(rawZ[NO_OF_SAMPLES - 1], 0, js.zchan.rMax)
    {
      var x, y, z := ReadAxes(js, rawX, rawY, rawZ);
      var on := gpio.MeasurePort(js.btnPort, high);
      var up: Int16 := if on then 1 else 0;
      CenterOnFirst(js);
      moved := Compare(js, x, y, z, up);
    }

    /** The sample replaced, and the joystick marked changed, when it moved. */
    method Compare(js: Joystick3Axis, x: int, y: int, z: int, up: Int16) returns (moved: bool)
      modifies js
      ensures js.centered == old(js.centered)
      ensures moved <==> Moved(old(js.sample), x, y, z, up, js.hysteresis)
      ensures moved ==> js.sample == Stored(x, y, z, up) && js.changed == 1
      ensures !moved ==> js.sample == old(js.sample) && js.changed == 0
    {
      if Abs(js.sample.x - x) > js.hysteresis || Abs(js.sample.y - y) > js.hysteresis
         || Abs(js.sample.z - z) > js.hysteresis || js.sample.up != up {
        js.sample := J3.Sample(Wrap16(x), Wrap16(y), Wrap16(z), up);
        js.changed := 1;
        moved := true;
      } else {
        js.changed := 0;
        moved := false;
      }
    }

    /** Five readings of each axis, averaged. */
    method ReadAxes(js: Joystick3Axis, rawX: seq<int>, rawY: seq<int>, rawZ: seq<int>) returns (x: int, y: int, z: int)
      requires js.Distinct() && |rawX| == NO_OF_SAMPLES && |rawY| == NO_OF_SAMPLES && |rawZ| == NO_OF_SAMPLES
      modifies js.xchan, js.ychan, js.zchan
      ensures x == Averaged(old(js.xchan.Scaling()), rawX) && js.xchan.Scaling() == old(js.xchan.Scaling())
      ensures y == Averaged(old(js.ychan.Scaling()), rawY) && js.ychan.Scaling() == old(js.ychan.Scaling())
      ensures z == Averaged(old(js.zchan.Scaling()), rawZ) && js.zchan.Scaling() == old(js.zchan.Scaling())
      ensures js.xchan.raw == ClampMinMax(rawX[NO_OF_SAMPLES - 1], 0, js.xchan.rMax)
      ensures js.ychan.raw == ClampMinMax(rawY[NO_OF_SAMPLES - 1], 0, js.ychan.rMax)
      ensures js.zchan.raw == ClampMinMax(rawZ[NO_OF_SAMPLES - 1], 0, js.zchan.rMax)
    {
      var sx := SumChannel(js.xchan, rawX);
      var sy := SumChannel(js.ychan, rawY);
      var sz := SumChannel(js.zchan, rawZ);
      x := CDiv(sx, NO_OF_SAMPLES);
      y := CDiv(sy, NO_OF_SAMPLES);
      z := CDiv(sz, NO_OF_SAMPLES);
    }

    /** The first measurement takes each axis's last count as its centre. */
    method CenterOnFirst(js: Joystick3Axis)
      requires js.Distinct()
      modifies js, js.xchan, js.ychan, js.zchan
      ensures js.centered && js.sample == old(js.sample)
      ensures old(js.centered) ==> js.xchan.Scaling() == old(js.xchan.Scaling())
                                   && js.ychan.Scaling() == old(js.ychan.Scaling())
                                   && js.zchan.Scaling() == old(js.zchan.Scaling())
      ensures !old(js.centered) ==> js.xchan.Scaling() == old(js.xchan.Scaling()).(rRef := js.xchan.raw, vRefX2 := 0)
                                    && js.ychan.Scaling() == old(js.ychan.Scaling()).(rRef := js.ychan.raw, vRefX2 := 0)
                                    && js.zchan.Scaling() == old(js.zchan.Scaling()).(rRef := js.zchan.raw, vRefX2 := 0)
      ensures js.xchan.raw == old(js.xchan.raw) && js.ychan.raw == old(js.ychan.raw) && js.zchan.raw == old(js.zchan.raw)
    {
      if !js.centered {
        js.centered := true;
        js.xchan.SetReference(0);
        js.ychan.SetReference(0);
        js.zchan.SetReference(0);
      }
    }

    /** One joystick's turn in the sampling task: a change-event joystick
        is measured and its sample published when it moved. */
    method SampleJoystick(js: Joystick3Axis, rawX: seq<int>, rawY: seq<int>, rawZ: seq<int>, high: bool)
      returns (data: ObjMsgData?)
      requires js.Distinct() && |rawX| == NO_OF_SAMPLES && |rawY| == NO_OF_SAMPLES && |rawZ| == NO_OF_SAMPLES
      requires base.transport.Valid()
      modifies js, js.xchan, js.ychan, js.zchan, js.btnPort, base.transport, base.transport.buf
      ensures base.transport.Valid()
      ensures js.mode != ChangeEvent ==> data == null && unchanged(js, js.xchan, js.ychan, js.zchan, js.btnPort)
      ensures data != null <==> js.mode == ChangeEvent
                                && Moved(old(js.sample), Averaged(old(js.xchan.Scaling()), rawX),
                                         Averaged(old(js.ychan.Scaling()), rawY), Averaged(old(js.zchan.Scaling()), rawZ),
                                         Level(js.btnPort.flags, high), js.hysteresis)
      ensures js.mode == ChangeEvent ==>
                var x := Averaged(old(js.xchan.Scaling()), rawX);
                var y := Averaged(old(js.ychan.Scaling()), rawY);
                var z := Averaged(old(js.zchan.Scaling()), rawZ);
                var up := Level(js.btnPort.flags, high);
                && (data != null ==> js.sample == Stored(x, y, z, up) && js.changed == 1)
                && (data == null ==> js.sample == old(js.sample) && js.changed == 0)
                && (js.btnPort.value, js.btnPort.changed) == Sense(old(js.btnPort.value), up)
                && js.centered
      ensures js.mode == ChangeEvent && old(js.centered) ==>
                js.xchan.Scaling() == old(js.xchan.Scaling()) && js.ychan.Scaling() == old(js.ychan.Scaling())
                && js.zchan.Scaling() == old(js.zchan.Scaling())
      ensures js.mode == ChangeEvent && !old(js.centered) ==>
                js.xchan.Scaling() == old(js.xchan.Scaling()).(rRef := js.xchan.raw, vRefX2 := 0)
                && js.ychan.Scaling() == old(js.ychan.Scaling()).(rRef := js.ychan.raw, vRefX2 := 0)
                && js.zchan.Scaling() == old(js.zchan.Scaling()).(rRef := js.zchan.raw, vRefX2 := 0)
      ensures js.mode == ChangeEvent ==>
                js.xchan.raw == ClampMinMax(rawX[NO_OF_SAMPLES - 1], 0, js.xchan.rMax)
                && js.ychan.raw == ClampMinMax(rawY[NO_OF_SAMPLES - 1], 0, js.ychan.rMax)
                && js.zchan.raw == ClampMinMax(rawZ[NO_OF_SAMPLES - 1], 0, js.zchan.rMax)
      ensures data != null ==> fresh(data) && data.origin == base.originId && data.name == js.name
                               && data.value == Joystick3Value(js.sample)
      ensures base.transport.Contents
              == if data != null then Enqueue(old(base.transport.Contents), base.transport.depth, data).0
                 else old(base.transport.Contents)
    {
      data := null;
      if js.mode == ChangeEvent {
        var moved := Measure(js, rawX, rawY, rawZ, high);
        if moved {
          data := new ObjMsgData(base.originId, js.name, Joystick3Value(js.sample));
          var _ := base.Produce(data);
        }
      }
    }
  }

  // --------------------------------------------------------------- lemmas

  /** Five equal readings average to that reading. */
  lemma {:induction false} SteadyAverage(s: Segments, raws: seq<int>, raw: int)
    requires |raws| == NO_OF_SAMPLES && forall i :: 0 <= i < |raws| ==> raws[i] == raw
    ensures Averaged(s, raws) == Reading(s, raw)
  {
    SumConstant(s, raws, raw);
    CDivTruncates(NO_OF_SAMPLES * Reading(s, raw), NO_OF_SAMPLES);
  }

  lemma {:induction false} SumConstant(s: Segments, raws: seq<int>, raw: int)
    requires forall i :: 0 <= i < |raws| ==> raws[i] == raw
    ensures SumReadings(s, raws) == |raws| * Reading(s, raw)
    decreases |raws|
  {
    if raws != [] {
      var n := |raws| - 1;
      var front := raws[..n];
      assert forall i :: 0 <= i < |front| ==> front[i] == raws[i];
      SumConstant(s, front, raw);
      assert SumReadings(s, raws) == SumReadings(s, front) + Reading(s, raw);
      MulSucc(n, Reading(s, raw));
    }
  }

  /** The average lies between the least and the greatest reading. */
  lemma {:induction false} AverageBetween(s: Segments, raws: seq<int>, lo: int, hi: int)
    requires |raws| == NO_OF_SAMPLES && forall i :: 0 <= i < |raws| ==> lo <= Reading(s, raws[i]) <= hi
    ensures lo <= Averaged(s, raws) <= hi
  {
    SumBetween(s, raws, lo, hi);
    CDivTruncates(SumReadings(s, raws), NO_OF_SAMPLES);
  }

  lemma {:induction false} SumBetween(s: Segments, raws: seq<int>, lo: int, hi: int)
    requires forall i :: 0 <= i < |raws| ==> lo <= Reading(s, raws[i]) <= hi
    ensures |raws| * lo <= SumReadings(s, raws) <= |raws| * hi
    decreases |raws|
  {
    if raws != [] {
      var n := |raws| - 1;
      var front := raws[..n];
      assert forall i :: 0 <= i < |front| ==> front[i] == raws[i];
      SumBetween(s, front, lo, hi);
      assert lo <= Reading(s, raws[n]) <= hi;
      assert SumReadings(s, raws) == SumReadings(s, front) + Reading(s, raws[n]);
      MulSucc(n, lo);
      MulSucc(n, hi);
    }
  }

  lemma MulSucc(n: int, a: int)
    ensures (n + 1) * a == n * a + a
  {
  }

  /** The three axis names differ. */
  lemma AxisNamesDistinct(name: string)
    ensures AxisName(name, 'x') != AxisName(name, 'y') && AxisName(name, 'y') != AxisName(name, 'z')
    ensures AxisName(name, 'x') != AxisName(name, 'z')
  {
    assert AxisName(name, 'x')[|name| + 1] == 'x';
    assert AxisName(name, 'y')[|name| + 1] == 'y';
    assert AxisName(name, 'z')[|name| + 1] == 'z';
  }

  /** Centring makes the last count read as zero. */
  lemma CenteredReadsZero(s: Segments, raw: int)
    ensures Reading(s.(rRef := ClampMinMax(raw, 0, s.rMax), vRefX2 := 0), raw) == 0
  {
    var c := s.(rRef := ClampMinMax(raw, 0, s.rMax), vRefX2 := 0);
    assert ValueX2(c, ClampMinMax(raw, 0, s.rMax)) == 0 by {
      CDivTruncates(0, if c.rMax == c.rRef then 1 else c.rMax - c.rRef);
    }
    CDivTruncates(-1, 2);
  }

  /** A published sample no longer differs from the readings it was made
      of, so the same readings again are no move, whenever the averages fit
      in an `int16_t`. */
  lemma StoredNotMoved(x: int, y: int, z: int, up: Int16, hysteresis: int)
    requires -0x8000 <= x < 0x8000 && -0x8000 <= y < 0x8000 && -0x8000 <= z < 0x8000 && hysteresis >= 0
    ensures !Moved(Stored(x, y, z, up), x, y, z, up, hysteresis)
  {
  }

  /** The stored sample keeps averages that fit `int16_t`, which includes
      every average of readings within the axis range. */
  lemma StoredKeeps(x: int, y: int, z: int, up: Int16)
    requires -0x8000 <= x < 0x8000 && -0x8000 <= y < 0x8000 && -0x8000 <= z < 0x8000
    ensures Stored(x, y, z, up) == J3.Sample(x, y, z, up)
    ensures Stored(x + 0x1_0000, y, z, up) == Stored(x, y, z, up)
  {
  }
}
