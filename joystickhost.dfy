/** The older two-axis joystick host: each joystick reads two ADC channels
    of the ADC host and a button pin configured directly, averages five
    readings per axis, centres itself on its first reading, and publishes
    a `joystick_sample_t` on the older transport when it moved by more
    than its hysteresis or the button changed. It registers its joysticks
    with the older payload registry. The converter's counts and the pin's
    level are parameters. */
module JoystickHost {
  import opened CInt
  import opened Payload
  import opened Host
  import opened AdcHost
  import opened GpioHost
  import J2 = ObjMsgJoystickData
  import J3H = Joystick3AxisHost
  import F = Factory
  import L = Legacy
  import T = Transport

  /** The joystick moved: an axis differs from the last published sample
      by more than the hysteresis, or the button changed. */
  predicate Moved(sample: J2.Sample, x: int, y: int, up: int, hysteresis: int) {
    Abs(sample.x - x) > hysteresis || Abs(sample.y - y) > hysteresis || sample.up != up
  }

  /** The sample stored on a move: the averages truncated to `int16_t`. */
  function Stored(x: int, y: int, up: Int16): J2.Sample {
    J2.Sample(Wrap16(x), Wrap16(y), up)
  }

  /** `init_switch(btn)`: the button pin as a pulled-up input without
      interrupts. */
  function SwitchConf(btn: int): (c: IoConf)
    ensures c.mode == Input && c.intrType == GPIO_INTR_DISABLE && c.pin == btn && c.pullUp && !c.pullDown
  {
    IoConf(Input, GPIO_INTR_DISABLE, btn, false, true)
  }

  /** A joystick (`Joystick`): its channels, its button pin, whether it
      was centred, its hysteresis, and the last sample it published. */
  class Joystick {
    const name: string
    const mode: ObjMsgSample
    const xchan: AdcChannel
    const ychan: AdcChannel
    const btnPin: int
    const hysteresis: int
    var centered: bool
    var changed: int
    var sample: J2.Sample

    constructor (name: string, btnPin: int, mode: ObjMsgSample, xchan: AdcChannel, ychan: AdcChannel)
      ensures this.name == name && this.btnPin == btnPin && this.mode == mode
      ensures this.xchan == xchan && this.ychan == ychan
      ensures hysteresis == DEFAULT_HYSTERESIS && !centered && changed == 0 && sample == J2.Zero
    {
      this.name := name;
      this.mode := mode;
      this.btnPin := btnPin;
      this.xchan := xchan;
      this.ychan := ychan;
      hysteresis := DEFAULT_HYSTERESIS;
      centered := false;
      changed := 0;
      sample := J2.Zero;
    }
  }

  class JoystickHost {
    const base: L.ObjMsgHost
    const adc: AdcHost
    const sampleIntervalMs: int
    var anyChangeEvents: bool
    var joysticks: map<string, Joystick>

    /** Each joystick reads two channels. */
    ghost predicate Valid()
      reads this
    {
      forall n :: n in joysticks ==> joysticks[n].xchan != joysticks[n].ychan
    }

    /** `JoystickHost(adc, transport, origin, sampleIntervalMs)`. */
    constructor (adc: AdcHost, transport: L.ObjMsgTransport, origin: UInt16, sampleIntervalMs: int)
      ensures Valid() && this.adc == adc && this.sampleIntervalMs == sampleIntervalMs
      ensures base.transport == transport && base.originId == origin && base.tag == "JOYSTICK"
      ensures joysticks == map[] && !anyChangeEvents
    {
      base := new L.ObjMsgHost(transport, "JOYSTICK", origin);
      this.adc := adc;
      this.sampleIntervalMs := sampleIntervalMs;
      anyChangeEvents := false;
      joysticks := map[];
    }

    /** `add(name, mode, ad_x, ad_y, btn)`: the joystick, its two polled
        axis channels on the ADC host, the name registered with the older
        registry for joystick payloads, and the configuration the button
        pin is given. */
    method Add(factory: F.ObjMsgDataFactory, legacy: L.ObjMsgDataFactory, name: string, mode: ObjMsgSample,
               adX: int, adY: int, btn: int) returns (r: int, sw: IoConf)
      requires Valid() && adc.Valid()
      modifies this, factory, legacy, adc
      modifies if J3H.AxisName(name, 'x') in adc.channels then {adc.channels[J3H.AxisName(name, 'x')]} else {}
      modifies if J3H.AxisName(name, 'y') in adc.channels then {adc.channels[J3H.AxisName(name, 'y')]} else {}
      ensures Valid() && adc.Valid() && r == 0 && sw == SwitchConf(btn)
      ensures name in joysticks && joysticks == old(joysticks)[name := joysticks[name]] && fresh(joysticks[name])
      ensures var js := joysticks[name];
              && js.name == name && js.mode == mode && js.btnPin == btn && !js.centered && js.sample == J2.Zero
              && js.hysteresis == DEFAULT_HYSTERESIS
              && adc.channels == old(adc.channels)[J3H.AxisName(name, 'x') := js.xchan][J3H.AxisName(name, 'y') := js.ychan]
              && js.xchan.Scaling() == FreshSegments(J3H.AXIS_MAX_COUNTS, J3H.AXIS_MIN, J3H.AXIS_MAX)
              && js.ychan.Scaling() == FreshSegments(J3H.AXIS_MAX_COUNTS, J3H.AXIS_MIN, J3H.AXIS_MAX)
      ensures anyChangeEvents == (old(anyChangeEvents) || mode == ChangeEvent)
      ensures factory.dataClasses
              == F.RegisterEach(old(factory.dataClasses), [(J3H.AxisName(name, 'x'), IntClass), (J3H.AxisName(name, 'y'), IntClass)])
      ensures legacy.dataClasses == F.Register(old(legacy.dataClasses), name, JoystickClass).0
      ensures adc.anyChangeEvents == old(adc.anyChangeEvents)
    {
      J3H.AxisNamesDistinct(name);
      var js := NewJoystick(factory, legacy, name, mode, J3H.AxisName(name, 'x'), J3H.AxisName(name, 'y'), adX, adY, btn);
      joysticks := joysticks[name := js];
      if mode == ChangeEvent {
        anyChangeEvents := true;
      }
      sw := SwitchConf(btn);
      r := 0;
    }

    /** The joystick `add` builds, with its channels and registrations. */
    method NewJoystick(factory: F.ObjMsgDataFactory, legacy: L.ObjMsgDataFactory, name: string, mode: ObjMsgSample,
                       xn: string, yn: string, adX: int, adY: int, btn: int) returns (js: Joystick)
      requires adc.Valid() && xn != yn
      modifies factory, legacy, adc
      modifies if xn in adc.channels then {adc.channels[xn]} else {}
      modifies if yn in adc.channels then {adc.channels[yn]} else {}
      ensures unchanged(this) && adc.Valid() && fresh(js) && js.xchan != js.ychan
      ensures js.name == name && js.mode == mode && js.btnPin == btn && !js.centered && js.sample == J2.Zero
      ensures js.hysteresis == DEFAULT_HYSTERESIS
      ensures adc.channels == old(adc.channels)[xn := js.xchan][yn := js.ychan]
      ensures js.xchan.Scaling() == FreshSegments(J3H.AXIS_MAX_COUNTS, J3H.AXIS_MIN, J3H.AXIS_MAX)
      ensures js.ychan.Scaling() == FreshSegments(J3H.AXIS_MAX_COUNTS, J3H.AXIS_MIN, J3H.AXIS_MAX)
      ensures factory.dataClasses == F.RegisterEach(old(factory.dataClasses), [(xn, IntClass), (yn, IntClass)])
      ensures legacy.dataClasses == F.Register(old(legacy.dataClasses), name, JoystickClass).0
      ensures adc.anyChangeEvents == old(adc.anyChangeEvents)
    {
      var x, y := AddPair(factory, xn, yn, adX, adY);
      var _ := legacy.RegisterClass(base.originId, name, JoystickClass);
      js := new Joystick(name, btn, mode, x, y);
    }

    /** One polled axis channel of the joystick. */
    method AddAxis(factory: F.ObjMsgDataFactory, n: string, ad: int) returns (ch: AdcChannel)
      requires adc.Valid()
      modifies adc, factory, if n in adc.channels then {adc.channels[n]} else {}
      ensures unchanged(this) && adc.Valid() && adc.channels == old(adc.channels)[n := ch]
      ensures n in old(adc.channels) ==> ch == old(adc.channels)[n]
      ensures n !in old(adc.channels) ==> fresh(ch)
      ensures ch.Scaling() == FreshSegments(J3H.AXIS_MAX_COUNTS, J3H.AXIS_MIN, J3H.AXIS_MAX) && ch.mode == Polling && ch.channel == ad
      ensures factory.dataClasses == F.Register(old(factory.dataClasses), n, IntClass).0
      ensures adc.anyChangeEvents == old(adc.anyChangeEvents)
    {
      ch := adc.Add(factory, n, Polling, ad, J3H.AXIS_MAX_COUNTS, J3H.AXIS_MIN, J3H.AXIS_MAX);
    }

    /** The x and y axis channels. */
    method AddPair(factory: F.ObjMsgDataFactory, xn: string, yn: string, adX: int, adY: int)
      returns (x: AdcChannel, y: AdcChannel)
      requires adc.Valid() && xn != yn
      modifies adc, factory
      modifies if xn in adc.channels then {adc.channels[xn]} else {}
      modifies if yn in adc.channels then {adc.channels[yn]} else {}
      ensures unchanged(this) && adc.Valid() && x != y
      ensures adc.channels == old(adc.channels)[xn := x][yn := y]
      ensures x.Scaling() == FreshSegments(J3H.AXIS_MAX_COUNTS, J3H.AXIS_MIN, J3H.AXIS_MAX) && x.mode == Polling && x.channel == adX
      ensures y.Scaling() == FreshSegments(J3H.AXIS_MAX_COUNTS, J3H.AXIS_MIN, J3H.AXIS_MAX) && y.mode == Polling && y.channel == adY
      ensures factory.dataClasses == F.RegisterEach(old(factory.dataClasses), [(xn, IntClass), (yn, IntClass)])
      ensures adc.anyChangeEvents == old(adc.anyChangeEvents)
    {
      ghost var r0 := factory.dataClasses;
      x := AddAxis(factory, xn, adX);
      F.RegisterEachSnoc(r0, [], xn, IntClass);
      assert [] + [(xn, IntClass)] == [(xn, IntClass)];
      assert adc.channels[xn] == x;
      assert yn in adc.channels ==> adc.channels[yn] != x;
      y := AddAxis(factory, yn, adY);
      F.RegisterEachSnoc(r0, [(xn, IntClass)], yn, IntClass);
    }

    /** `center(name, x, y)`: the x and y channels take their last counts
        as `x` and `y`. False for a name that is not a joystick. */
    method Center(name: string, x: int, y: int) returns (found: bool)
      requires Valid()
      modifies if name in joysticks then {joysticks[name].xchan, joysticks[name].ychan} else {}
      ensures found <==> name in joysticks
      ensures found ==> var js := joysticks[name];
                        && js.xchan.Scaling() == old(js.xchan.Scaling()).(rRef := js.xchan.raw, vRefX2 := 2 * x)
                        && js.ychan.Scaling() == old(js.ychan.Scaling()).(rRef := js.ychan.raw, vRefX2 := 2 * y)
                        && js.xchan.raw == old(js.xchan.raw) && js.ychan.raw == old(js.ychan.raw)
    {
      if name in joysticks {
        var js := joysticks[name];
        js.xchan.SetReference(x);
        js.ychan.SetReference(y);
        found := true;
      } else {
        found := false;
      }
    }

    /** Five readings of each axis, taken in turn, summed and averaged. */
    method ReadAxes(js: Joystick, rawX: seq<int>, rawY: seq<int>) returns (x: int, y: int)
      requires js.xchan != js.ychan && |rawX| == J3H.NO_OF_SAMPLES && |rawY| == J3H.NO_OF_SAMPLES
      modifies js.xchan, js.ychan
      ensures x == J3H.Averaged(old(js.xchan.Scaling()), rawX) && js.xchan.Scaling() == old(js.xchan.Scaling())
      ensures y == J3H.Averaged(old(js.ychan.Scaling()), rawY) && js.ychan.Scaling() == old(js.ychan.Scaling())
      ensures js.xchan.raw == ClampMinMax(rawX[J3H.NO_OF_SAMPLES - 1], 0, js.xchan.rMax)
      ensures js.ychan.raw == ClampMinMax(rawY[J3H.NO_OF_SAMPLES - 1], 0, js.ychan.rMax)
    {
      var sx, sy := SumPair(js.xchan, js.ychan, rawX, rawY);
      x := CDiv(sx, J3H.NO_OF_SAMPLES);
      y := CDiv(sy, J3H.NO_OF_SAMPLES);
    }

    /** The readings of two channels, taken in turn, summed. */
    method SumPair(xc: AdcChannel, yc: AdcChannel, rawX: seq<int>, rawY: seq<int>) returns (sx: int, sy: int)
      requires xc != yc && |rawX| == J3H.NO_OF_SAMPLES && |rawY| == J3H.NO_OF_SAMPLES
      modifies xc, yc
      ensures sx == J3H.SumReadings(old(xc.Scaling()), rawX) && xc.Scaling() == old(xc.Scaling())
      ensures sy == J3H.SumReadings(old(yc.Scaling()), rawY) && yc.Scaling() == old(yc.Scaling())
      ensures xc.raw == ClampMinMax(rawX[J3H.NO_OF_SAMPLES - 1], 0, xc.rMax)
      ensures yc.raw == ClampMinMax(rawY[J3H.NO_OF_SAMPLES - 1], 0, yc.rMax)
    {
      ghost var scaleX, scaleY := xc.Scaling(), yc.Scaling();
      sx, sy := 0, 0;
      var i := 0;
      while i < J3H.NO_OF_SAMPLES
        invariant 0 <= i <= J3H.NO_OF_SAMPLES
        invariant sx == J3H.SumReadings(scaleX, rawX[..i]) && xc.Scaling() == scaleX
        invariant sy == J3H.SumReadings(scaleY, rawY[..i]) && yc.Scaling() == scaleY
        invariant i > 0 ==> xc.raw == ClampMinMax(rawX[i - 1], 0, xc.rMax)
        invariant i > 0 ==> yc.raw == ClampMinMax(rawY[i - 1], 0, yc.rMax)
      {
        var vx := adc.MeasureChannel(xc, rawX[i]);
        var vy := adc.MeasureChannel(yc, rawY[i]);
        SumStep(scaleX, rawX, i);
        SumStep(scaleY, rawY, i);
        sx, sy := sx + vx, sy + vy;
        i := i + 1;
      }
      assert rawX[..J3H.NO_OF_SAMPLES] == rawX;
      assert rawY[..J3H.NO_OF_SAMPLES] == rawY;
    }

    /** `measure(js)`: the averaged readings and the button pin's level,
        the channels centred on the first call, and the sample replaced
        when the joystick moved; 1 for a move, else 0. */
    method Measure(js: Joystick, rawX: seq<int>, rawY: seq<int>, high: bool) returns (moved: int)
      requires js.xchan != js.ychan && |rawX| == J3H.NO_OF_SAMPLES && |rawY| == J3H.NO_OF_SAMPLES
      modifies js, js.xchan, js.ychan
      ensures var x := J3H.Averaged(old(js.xchan.Scaling()), rawX);
              var y := J3H.Averaged(old(js.ychan.Scaling()), rawY);
              var up := if high then 1 else 0;
              && (moved == 1 <==> Moved(old(js.sample), x, y, up, js.hysteresis))
              && (moved == 1 || moved == 0)
              && (moved == 1 ==> js.sample == Stored(x, y, up) && js.changed == 1)
              && (moved == 0 ==> js.sample == old(js.sample) && js.changed == 0)
      ensures js.centered
      ensures old(js.centered) ==> js.xchan.Scaling() == old(js.xchan.Scaling())
                                   && js.ychan.Scaling() == old(js.ychan.Scaling())
      ensures !old(js.centered) ==> js.xchan.Scaling() == old(js.xchan.Scaling()).(rRef := js.xchan.raw, vRefX2 := 0)
                                    && js.ychan.Scaling() == old(js.ychan.Scaling()).(rRef := js.ychan.raw, vRefX2 := 0)
      ensures js.xchan.raw == ClampMinMax(rawX[J3H.NO_OF_SAMPLES - 1], 0, js.xchan.rMax)
      ensures js.ychan.raw == ClampMinMax(rawY[J3H.NO_OF_SAMPLES - 1], 0, js.ychan.rMax)
    {
      var x, y := ReadAxes(js, rawX, rawY);
      var up: Int16 := if high then 1 else 0;
      CenterOnFirst(js);
      moved := Compare(js, x, y, up);
    }

    /** The first measurement takes each axis's last count as its centre. */
    method CenterOnFirst(js: Joystick)
      requires js.xchan != js.ychan
      modifies js, js.xchan, js.ychan
      ensures js.centered && js.sample == old(js.sample)
      ensures old(js.centered) ==> js.xchan.Scaling() == old(js.xchan.Scaling())
                                   && js.ychan.Scaling() == old(js.ychan.Scaling())
      ensures !old(js.centered) ==> js.xchan.Scaling() == old(js.xchan.Scaling()).(rRef := js.xchan.raw, vRefX2 := 0)
                                    && js.ychan.Scaling() == old(js.ychan.Scaling()).(rRef := js.ychan.raw, vRefX2 := 0)
      ensures js.xchan.raw == old(js.xchan.raw) && js.ychan.raw == old(js.ychan.raw)
    {
      if !js.centered {
        js.centered := true;
        js.xchan.SetReference(0);
        js.ychan.SetReference(0);
      }
    }

    /** The sample replaced, and the joystick marked changed, when it moved. */
    method Compare(js: Joystick, x: int, y: int, up: Int16) returns (moved: int)
      modifies js
      ensures js.centered == old(js.centered)
      ensures moved == 1 <==> Moved(old(js.sample), x, y, up, js.hysteresis)
      ensures moved == 1 ==> js.sample == Stored(x, y, up) && js.changed == 1
      ensures moved != 1 ==> moved == 0 && js.sample == old(js.sample) && js.changed == 0
    {
      if Abs(js.sample.x - x) > js.hysteresis || Abs(js.sample.y - y) > js.hysteresis || js.sample.up != up {
        js.sample := J2.Sample(Wrap16(x), Wrap16(y), up);
        js.changed := 1;
        moved := 1;
      } else {
        js.changed := 0;
        moved := 0;
      }
    }

    /** One joystick's turn in the sampling task: a change-event joystick
        is measured and its sample published on the older transport when
        it moved. */
    method SampleJoystick(js: Joystick, rawX: seq<int>, rawY: seq<int>, high: bool) returns (data: ObjMsgData?)
      requires js.xchan != js.ychan && |rawX| == J3H.NO_OF_SAMPLES && |rawY| == J3H.NO_OF_SAMPLES
      requires base.transport.Valid()
      modifies js, js.xchan, js.ychan, base.transport.queue, base.transport.queue.buf
      ensures base.transport.Valid()
      ensures js.mode != ChangeEvent ==> data == null && unchanged(js, js.xchan, js.ychan)
      ensures data != null <==> js.mode == ChangeEvent
                                && Moved(old(js.sample), J3H.Averaged(old(js.xchan.Scaling()), rawX),
                                         J3H.Averaged(old(js.ychan.Scaling()), rawY), if high then 1 else 0, js.hysteresis)
      ensures js.mode == ChangeEvent ==>
                var x := J3H.Averaged(old(js.xchan.Scaling()), rawX);
                var y := J3H.Averaged(old(js.ychan.Scaling()), rawY);
                var up := if high then 1 else 0;
                && (data != null ==> js.sample == Stored(x, y, up) && js.changed == 1)
                && (data == null ==> js.sample == old(js.sample) && js.changed == 0)
                && js.centered
      ensures js.mode == ChangeEvent && old(js.centered) ==>
                js.xchan.Scaling() == old(js.xchan.Scaling()) && js.ychan.Scaling() == old(js.ychan.Scaling())
      ensures js.mode == ChangeEvent && !old(js.centered) ==>
                js.xchan.Scaling() == old(js.xchan.Scaling()).(rRef := js.xchan.raw, vRefX2 := 0)
                && js.ychan.Scaling() == old(js.ychan.Scaling()).(rRef := js.ychan.raw, vRefX2 := 0)
      ensures js.mode == ChangeEvent ==>
                js.xchan.raw == ClampMinMax(rawX[J3H.NO_OF_SAMPLES - 1], 0, js.xchan.rMax)
                && js.ychan.raw == ClampMinMax(rawY[J3H.NO_OF_SAMPLES - 1], 0, js.ychan.rMax)
      ensures data != null ==> fresh(data) && data.origin == base.originId && data.name == js.name
                               && data.value == JoystickValue(js.sample)
      ensures base.transport.queue.Contents
              == if data != null then T.Enqueue(old(base.transport.queue.Contents), base.transport.queue.depth, data).0
                 else old(base.transport.queue.Contents)
    {
      data := null;
      if js.mode == ChangeEvent {
        var moved := Measure(js, rawX, rawY, high);
        if moved == 1 {
          data := new ObjMsgData(base.originId, js.name, JoystickValue(js.sample));
          var _ := base.Produce(data);
        }
      }
    }
  }

  // --------------------------------------------------------------- lemmas

  /** One more reading adds its value to the sum. */
  lemma SumStep(s: Segments, raws: seq<int>, i: int)
    requires 0 <= i < |raws|
    ensures J3H.SumReadings(s, raws[..i + 1]) == J3H.SumReadings(s, raws[..i]) + Reading(s, raws[i])
  {
    assert raws[..i + 1][..i] == raws[..i];
  }

  /** `init_switch` configures the pin exactly as the GPIO host configures
      a pulled-up input port. */
  lemma SwitchIsPulledUpInput(btn: int)
    ensures SwitchConf(btn) == PortConf(btn, IS_INPUT_GF | PULLUP_GF)
  {
    assert Has(IS_INPUT_GF | PULLUP_GF, IS_INPUT_GF) && Has(IS_INPUT_GF | PULLUP_GF, PULLUP_GF);
    assert !Has(IS_INPUT_GF | PULLUP_GF, PULLDOWN_GF);
    assert Edges(IS_INPUT_GF | PULLUP_GF) == GPIO_INTR_DISABLE;
  }

  /** A published sample no longer differs from the readings it was made
      of, so the same readings again are no move, whenever the averages fit
      in an `int16_t`. */
  lemma StoredNotMoved(x: int, y: int, up: Int16, hysteresis: int)
    requires -0x8000 <= x < 0x8000 && -0x8000 <= y < 0x8000 && hysteresis >= 0
    ensures !Moved(Stored(x, y, up), x, y, up, hysteresis)
  {
  }

  /** A move is reported whenever the button changes, however still the
      axes are. */
  lemma ButtonAloneMoves(sample: J2.Sample, x: int, y: int, up: Int16, hysteresis: int)
    requires sample.up != up
    ensures Moved(sample, x, y, up, hysteresis)
  {
  }
}
