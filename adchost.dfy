/** The ADC host: named analog channels, each scaling its raw count along
    two straight segments, (0, min) to (rRef, ref) and (rRef, ref) to
    (rMax, max), in doubled values so the result can be rounded. A
    sampling pass publishes a channel's value when it moved by more than
    the channel's hysteresis. The converter's raw counts are parameters. */
module AdcHost {
  import opened CInt
  import opened Payload
  import opened Transport
  import opened Host
  import F = Factory

  /** The hysteresis a channel gets by default. */
  const DEFAULT_HYSTERESIS: int := 5

  /** The scaling state of a channel: the full-scale count, the reference
      count, and the doubled values at zero, the reference and full scale. */
  datatype Segments = Segments(rMax: int, rRef: int, vMinX2: int, vRefX2: int, vMaxX2: int)

  /** A new channel: the reference is full scale, so there is one segment
      from (0, min) to (maxCount, max). */
  function FreshSegments(maxCount: int, min: int, max: int): Segments {
    Segments(maxCount, maxCount, 2 * min, 2 * max, 2 * max)
  }

  /** The doubled value at `raw` as the code computes it: a division by
      the length of the segment `raw` falls in, which is undefined when
      that length is zero. */
  function ValueX2AsWritten(s: Segments, raw: int): (r: Outcome<int>)
    ensures r.Undefined? <==> (if raw >= s.rRef then s.rMax == s.rRef else s.rRef == 0)
  {
    if raw >= s.rRef then
      if s.rMax - s.rRef == 0 then Undefined
      else Defined(s.vRefX2 + CDiv((s.vMaxX2 - s.vRefX2) * (raw - s.rRef), s.rMax - s.rRef))
    else
      if s.rRef == 0 then Undefined
      else Defined(s.vMinX2 + CDiv((s.vRefX2 - s.vMinX2) * raw, s.rRef))
  }

  /** The doubled value at `raw`, a segment of length zero giving the
      value at its reference end. */
  function ValueX2(s: Segments, raw: int): (r: int)
    ensures ValueX2AsWritten(s, raw).Defined? ==> r == ValueX2AsWritten(s, raw).value
    ensures ValueX2AsWritten(s, raw).Undefined? ==> r == s.vRefX2
  {
    if raw >= s.rRef then
      if s.rMax == s.rRef then s.vRefX2
      else s.vRefX2 + CDiv((s.vMaxX2 - s.vRefX2) * (raw - s.rRef), s.rMax - s.rRef)
    else
      if s.rRef == 0 then s.vRefX2
      else s.vMinX2 + CDiv((s.vRefX2 - s.vMinX2) * raw, s.rRef)
  }

  /** `(valueX2 + (valueX2 > 0 ? 1 : -1)) / 2` with C's truncating
      division. */
  function Round(x2: int): int {
    CDiv(x2 + (if x2 > 0 then 1 else -1), 2)
  }

  /** The value a raw reading gives: clamped into the counting range,
      scaled and rounded, then stored in an int. */
  function Reading(s: Segments, rawAdc: int): Int32 {
    Wrap32(Round(ValueX2(s, ClampMinMax(rawAdc, 0, s.rMax))))
  }

  /** The publishing rule of the sampling task. */
  predicate Reports(mode: ObjMsgSample, before: int, after: int, hysteresis: int) {
    mode == ChangeEvent && Abs(before - after) > hysteresis
  }

  /** A channel of the converter (`AdcChannel`). The raw count and the
      value, which the code leaves uninitialised, start at zero. */
  class AdcChannel {
    var channel: int
    var mode: ObjMsgSample
    var hysteresis: int
    var raw: int
    var value: Int32
    var rMax: int
    var rRef: int
    var vMinX2: int
    var vRefX2: int
    var vMaxX2: int

    function Scaling(): Segments
      reads this
    {
      Segments(rMax, rRef, vMinX2, vRefX2, vMaxX2)
    }

    /** The name the host keeps this channel under. */
    ghost const key: string

    /** `AdcChannel(channel, mode, maxCount, min, max, hysteresis)`, kept
        under `key`. */
    constructor (ghost key: string, channel: int, mode: ObjMsgSample, maxCount: int, min: int, max: int, hysteresis: int)
      ensures this.key == key && this.channel == channel && this.mode == mode && this.hysteresis == hysteresis
      ensures Scaling() == FreshSegments(maxCount, min, max) && raw == 0 && value == 0
    {
      this.key := key;
      new;
      Configure(channel, mode, maxCount, min, max, hysteresis);
    }

    /** Assigning a newly constructed channel over this one. */
    method Configure(channel: int, mode: ObjMsgSample, maxCount: int, min: int, max: int, hysteresis: int)
      modifies this
      ensures this.channel == channel && this.mode == mode && this.hysteresis == hysteresis
      ensures Scaling() == FreshSegments(maxCount, min, max) && raw == 0 && value == 0
    {
      this.channel := channel;
      this.mode := mode;
      rMax := maxCount;
      rRef := maxCount;
      vMinX2 := 2 * min;
      vMaxX2 := 2 * max;
      vRefX2 := vMaxX2;
      this.hysteresis := hysteresis;
      raw := 0;
      value := 0;
    }

    /** `SetReference(reference)`: the last raw count now reads as
        `reference`; nothing else changes. */
    method SetReference(reference: int)
      modifies this
      ensures Scaling() == old(Scaling()).(rRef := old(raw), vRefX2 := 2 * reference)
      ensures raw == old(raw) && value == old(value)
      ensures channel == old(channel) && mode == old(mode) && hysteresis == old(hysteresis)
    {
      vRefX2 := reference * 2;
      rRef := raw;
    }

    /** `SetValue(rawAdc)`: stores the clamped count and its scaled value. */
    method SetValue(rawAdc: int) returns (v: Int32)
      modifies this
      ensures raw == ClampMinMax(rawAdc, 0, rMax)
      ensures v == value && value == Reading(Scaling(), rawAdc)
      ensures Scaling() == old(Scaling())
      ensures channel == old(channel) && mode == old(mode) && hysteresis == old(hysteresis)
    {
      var r := if rawAdc < 0 then 0 else rawAdc;
      r := if r < rMax then r else rMax;
      assert r == ClampMinMax(rawAdc, 0, rMax);
      var valueX2: int;
      if r >= rRef {
        if rMax == rRef {
          valueX2 := vRefX2;
        } else {
          valueX2 := vRefX2 + CDiv((vMaxX2 - vRefX2) * (r - rRef), rMax - rRef);
        }
      } else {
        if rRef == 0 {
          valueX2 := vRefX2;
        } else {
          valueX2 := vMinX2 + CDiv((vRefX2 - vMinX2) * r, rRef);
        }
      }
      assert valueX2 == ValueX2(Scaling(), r);
      ghost var s := Scaling();
      raw := r;
      value := Wrap32(Round(valueX2));
      assert Scaling() == s;
      v := value;
    }

    function GetValue(): Int32
      reads this
    {
      value
    }
  }

  /** `AdcHost`: the channels by name. Channels are stored by value in the
      source, so a channel re-added under a name is the same slot
      reconfigured; each channel is kept under its own name, so distinct
      names hold distinct channels. */
  class AdcHost {
    const base: ObjMsgHost
    const sampleIntervalMs: int
    var channels: map<string, AdcChannel>
    var anyChangeEvents: bool

    ghost predicate Valid()
      reads this
    {
      forall n :: n in channels ==> channels[n].key == n
    }

    constructor (transport: ObjMsgTransport, origin: UInt16, sampleIntervalMs: int)
      ensures Valid() && base.transport == transport && base.originId == origin && base.tag == "AdcHost"
      ensures this.sampleIntervalMs == sampleIntervalMs && channels == map[] && !anyChangeEvents
    {
      base := new ObjMsgHost(transport, "AdcHost", origin);
      this.sampleIntervalMs := sampleIntervalMs;
      channels := map[];
      anyChangeEvents := false;
    }

    /** `Add(name, mode, channel, atten, bitwidth, maxCounts, min, max)`:
        the channel under `name`, configured afresh with the default
        hysteresis, and the name registered for int payloads. */
    method Add(factory: F.ObjMsgDataFactory, name: string, mode: ObjMsgSample, channel: int,
               maxCounts: Int16, min: Int32, max: Int32) returns (ch: AdcChannel)
      requires Valid()
      modifies this, factory, if name in channels then {channels[name]} else {}
      ensures Valid()
      ensures channels == old(channels)[name := ch]
      ensures name in old(channels) ==> ch == old(channels)[name]
      ensures name !in old(channels) ==> fresh(ch)
      ensures ch.channel == channel && ch.mode == mode && ch.hysteresis == DEFAULT_HYSTERESIS
      ensures ch.Scaling() == FreshSegments(maxCounts, min, max)
      ensures anyChangeEvents == (old(anyChangeEvents) || mode == ChangeEvent)
      ensures factory.dataClasses == F.Register(old(factory.dataClasses), name, IntClass).0
    {
      if name in channels {
        ch := channels[name];
        ch.Configure(channel, mode, maxCounts, min, max, DEFAULT_HYSTERESIS);
      } else {
        ch := new AdcChannel(name, channel, mode, maxCounts, min, max, DEFAULT_HYSTERESIS);
        channels := channels[name := ch];
      }
      if mode == ChangeEvent {
        anyChangeEvents := true;
      }
      var _ := factory.RegisterClass(base.originId, name, IntClass);
    }

    /** `Measure(channel)`, `rawAdc` being the converter's reading. */
    method MeasureChannel(ch: AdcChannel, rawAdc: int) returns (v: Int32)
      modifies ch
      ensures v == ch.value && v == Reading(ch.Scaling(), rawAdc)
      ensures ch.Scaling() == old(ch.Scaling()) && ch.raw == ClampMinMax(rawAdc, 0, ch.rMax)
      ensures ch.channel == old(ch.channel) && ch.mode == old(ch.mode) && ch.hysteresis == old(ch.hysteresis)
    {
      v := ch.SetValue(rawAdc);
    }

    /** `Measure(name)`: the channel's new value, or INT_MIN for a name
        that is not a channel. */
    method Measure(name: string, rawAdc: int) returns (v: Int32)
      modifies if name in channels then {channels[name]} else {}
      ensures name !in channels ==> v == INT_MIN
      ensures name in channels ==> v == channels[name].value && v == Reading(old(channels[name].Scaling()), rawAdc)
      ensures name in channels ==>
                var ch := channels[name];
                && ch.Scaling() == old(ch.Scaling()) && ch.raw == ClampMinMax(rawAdc, 0, ch.rMax)
                && ch.channel == old(ch.channel) && ch.mode == old(ch.mode) && ch.hysteresis == old(ch.hysteresis)
    {
      if name in channels {
        v := MeasureChannel(channels[name], rawAdc);
      } else {
        v := INT_MIN;
      }
    }

    /** One channel's turn in the sampling task: a change-event channel is
        measured, and its value published when it moved by more than the
        hysteresis. */
    method SampleChannel(name: string, rawAdc: int) returns (data: ObjMsgData?)
      requires name in channels && base.transport.Valid()
      modifies channels[name], base.transport, base.transport.buf
      ensures base.transport.Valid()
      ensures var ch := channels[name];
              && (ch.mode == ChangeEvent ==> ch.value == Reading(ch.Scaling(), rawAdc))
              && (ch.mode == ChangeEvent ==> ch.raw == ClampMinMax(rawAdc, 0, ch.rMax))
              && (ch.mode != ChangeEvent ==> unchanged(ch))
              && ch.Scaling() == old(ch.Scaling()) && ch.mode == old(ch.mode) && ch.hysteresis == old(ch.hysteresis)
              && ch.channel == old(ch.channel)
              && (data != null <==> Reports(ch.mode, old(ch.value), ch.value, ch.hysteresis))
      ensures data != null ==> fresh(data) && data.origin == base.originId && data.name == name
                               && data.value == IntValue(channels[name].value)
      ensures base.transport.Contents
              == if data != null then Enqueue(old(base.transport.Contents), base.transport.depth, data).0
                 else old(base.transport.Contents)
    {
      var ch := channels[name];
      data := null;
      if ch.mode == ChangeEvent {
        var before := ch.GetValue();
        var _ := MeasureChannel(ch, rawAdc);
        if Abs(before - ch.GetValue()) > ch.hysteresis {
          data := new ObjMsgData(base.originId, name, IntValue(ch.GetValue()));
          var _ := base.Produce(data);
        }
      }
    }
  }

  // --------------------------------------------------------------- lemmas

  /** The rounding halves the doubled value and rounds a half away from
      zero. */
  lemma RoundHalfAwayFromZero(x2: int)
    ensures Abs(2 * Round(x2) - x2) <= 1
    ensures x2 % 2 == 0 ==> 2 * Round(x2) == x2
    ensures x2 % 2 != 0 ==> Abs(2 * Round(x2)) == Abs(x2) + 1
  {
    var a := x2 + (if x2 > 0 then 1 else -1);
    var q := Round(x2);
    CDivTruncates(a, 2);
    assert Abs(a - q * 2) < 2;
    assert a - q * 2 == 0 || (a - q * 2 < 0) == (a < 0);
  }

  /** Rounding a doubled value gives back the value. */
  lemma RoundDoubled(n: int)
    ensures Round(2 * n) == n
  {
    RoundHalfAwayFromZero(2 * n);
  }

  /** On a new channel with a positive range, a zero reading gives exactly
      `min` and a full-scale reading exactly `max`. */
  lemma FreshChannelEnds(maxCount: int, min: int, max: int)
    requires maxCount > 0 && INT_MIN <= min <= INT_MAX && INT_MIN <= max <= INT_MAX
    ensures Reading(FreshSegments(maxCount, min, max), 0) == min
    ensures Reading(FreshSegments(maxCount, min, max), maxCount) == max
  {
    FreshChannelZero(maxCount, min, max);
    FreshChannelFull(maxCount, min, max);
  }

  lemma FreshChannelZero(maxCount: int, min: int, max: int)
    requires maxCount > 0 && INT_MIN <= min <= INT_MAX
    ensures Reading(FreshSegments(maxCount, min, max), 0) == min
  {
    var s := FreshSegments(maxCount, min, max);
    assert ClampMinMax(0, 0, maxCount) == 0;
    assert ValueX2(s, 0) == 2 * min;
    RoundDoubled(min);
  }

  lemma FreshChannelFull(maxCount: int, min: int, max: int)
    requires maxCount > 0 && INT_MIN <= max <= INT_MAX
    ensures Reading(FreshSegments(maxCount, min, max), maxCount) == max
  {
    var s := FreshSegments(maxCount, min, max);
    assert ClampMinMax(maxCount, 0, maxCount) == maxCount;
    assert ValueX2(s, maxCount) == 2 * max;
    RoundDoubled(max);
  }

  /** A full-scale reading on a new channel: the code divides by zero. */
  lemma FreshChannelFullScaleAsWritten(maxCount: int, min: int, max: int)
    ensures ValueX2AsWritten(FreshSegments(maxCount, min, max), ClampMinMax(maxCount, 0, maxCount)).Undefined?
  {
  }

  lemma DivLe(t: int, k: int, d: int)
    requires 0 <= t <= k * d && d > 0
    ensures 0 <= t / d <= k
  {
    assert (t / d) * d <= t;
  }

  /** The scaled value between the two ends of a segment: with the values
      ordered at zero, at the reference and at full scale, any counting
      position gives a doubled value between those at zero and full
      scale. */
  lemma ValueX2Between(s: Segments, raw: int)
    requires 0 <= raw <= s.rMax && 0 <= s.rRef <= s.rMax
    requires s.vMinX2 <= s.vRefX2 <= s.vMaxX2
    ensures s.vMinX2 <= ValueX2(s, raw) <= s.vMaxX2
  {
    if raw >= s.rRef && s.rMax != s.rRef {
      SegmentBetween(s.vMaxX2 - s.vRefX2, raw - s.rRef, s.rMax - s.rRef);
    } else if raw < s.rRef {
      SegmentBetween(s.vRefX2 - s.vMinX2, raw, s.rRef);
    }
  }

  /** Along one segment the scaled offset stays between 0 and the
      segment's rise. */
  lemma SegmentBetween(k: int, n: int, d: int)
    requires 0 <= k && 0 <= n <= d && d > 0
    ensures 0 <= CDiv(k * n, d) <= k
  {
    MulLe(k, n, d);
    DivLe(k * n, k, d);
  }

  lemma MulLe(k: int, n: int, d: int)
    requires 0 <= k && 0 <= n <= d
    ensures 0 <= k * n <= k * d
  {
  }

  /** The task publishes a change of more than the hysteresis and nothing
      smaller; a polled channel never. */
  lemma ReportsBeyondHysteresis(before: int, after: int)
    ensures Reports(ChangeEvent, before, after, DEFAULT_HYSTERESIS) <==> (after > before + 5 || after < before - 5)
    ensures !Reports(Polling, before, after, DEFAULT_HYSTERESIS)
  {
  }

  /** Whatever the raw count, a channel whose values rise from min through
      the reference to max reads between min and max: the count is
      clamped, the doubled value stays between the ends, and rounding a
      doubled value between two integers' doubles cannot leave them. */
  lemma ReadingBetween(s: Segments, raw: int, lo: Int32, hi: Int32)
    requires 0 <= s.rRef <= s.rMax
    requires s.vMinX2 == 2 * lo && s.vMaxX2 == 2 * hi && s.vMinX2 <= s.vRefX2 <= s.vMaxX2
    ensures lo <= Reading(s, raw) <= hi
  {
    var c := ClampMinMax(raw, 0, s.rMax);
    ValueX2Between(s, c);
    RoundHalfAwayFromZero(ValueX2(s, c));
  }
}
