/** The VISCA host: camera interfaces reached over TCP or a serial port,
    steered by three-axis joystick samples. A consumed sample is queued;
    the host's task keeps only the newest queued sample and turns it into a
    pan/tilt command and a zoom command for the selected interface, or for
    every interface when none is selected. The VISCA library calls are
    modelled by the commands each interface is sent. */
module ViscaHost {
  import opened CInt
  import opened Payload
  import opened Host
  import J3 = Joystick3AxisData
  import F = Factory
  import T = Transport

  const PAN_SPEED_MAX := 18
  const TILT_SPEED_MAX := 14
  const ZOOM_MIN_SPEED := 2
  const ZOOM_MAX_SPEED := 7
  /** Axis readings below this magnitude are treated as centred. */
  const DEAD_ZONE := 5
  /** `xQueueCreate(10, ...)`: the depth of the sample queue. */
  const QUEUE_DEPTH := 10

  /** `ZOOM_SPEED(x)`: 1..100 spread over the zoom speeds, truncating. */
  function ZoomSpeed(x: int): int {
    CDiv((ZOOM_MAX_SPEED - ZOOM_MIN_SPEED) * (x - 1), 99) + ZOOM_MIN_SPEED
  }

  /** What an interface is sent: `VISCA_set_pantilt` with its two speeds,
      and the three zoom calls. */
  datatype Command =
    | SetPanTilt(pan: int, tilt: int)
    | ZoomStop
    | ZoomTele(speed: int)
    | ZoomWide(speed: int)

  /** `visca_pt_stop` inside the dead zone, else `visca_pt_move`: the axes
      scaled to the pan and tilt speed ranges, truncating. */
  function PanTiltOf(js: J3.Sample): Command {
    if Abs(js.x) < DEAD_ZONE && Abs(js.y) < DEAD_ZONE then SetPanTilt(0, 0)
    else SetPanTilt(CDiv(js.x * PAN_SPEED_MAX, 100), CDiv(js.y * TILT_SPEED_MAX, 100))
  }

  /** The zoom part of `Acton`: stop inside the dead zone, else zoom in or
      out at the speed of the axis's magnitude. */
  function ZoomOf(js: J3.Sample): Command {
    if Abs(js.z) < DEAD_ZONE then ZoomStop
    else if js.z > 0 then ZoomTele(ZoomSpeed(js.z))
    else ZoomWide(ZoomSpeed(-(js.z as int)))
  }

  /** `Acton(vf, js)`: the commands one sample sends, in order. */
  function Commands(js: J3.Sample): seq<Command> {
    [PanTiltOf(js), ZoomOf(js)]
  }

  /** How an interface reaches its camera. */
  datatype Link =
    | Tcp(ip: string, port: UInt16)
    | Serial(device: int, rxPin: int, txPin: int)

  /** A camera interface (`ViscaInterface`); `sent` is every command it has
      been sent, oldest first. Its camera is addressed as camera 1 without
      broadcast. */
  class ViscaInterface {
    const name: string
    const link: Link
    const autoConnect: bool
    const address: int
    const broadcast: int
    var sent: seq<Command>

    constructor (name: string, link: Link, autoConnect: bool)
      ensures this.name == name && this.link == link && this.autoConnect == autoConnect
      ensures address == 1 && broadcast == 0 && sent == []
    {
      this.name := name;
      this.link := link;
      this.autoConnect := autoConnect;
      address := 1;
      broadcast := 0;
      sent := [];
    }
  }

  class ViscaHost {
    const base: ObjMsgHost
    /** `visca_queue`: the queued samples, oldest first. */
    var queue: seq<J3.Sample>
    var selected: ViscaInterface?
    var interfaces: map<string, ViscaInterface>

    /** The selected interface is one of the interfaces, and distinct names
        hold distinct interfaces. */
    ghost predicate Valid()
      reads this
    {
      (selected == null || selected in interfaces.Values)
      && forall a, b :: a in interfaces && b in interfaces && a != b ==> interfaces[a] != interfaces[b]
    }

    /** `ViscaHost(transport, origin)`: an empty queue and no selection. */
    constructor (transport: T.ObjMsgTransport, origin: UInt16)
      ensures Valid() && base.transport == transport && base.originId == origin && base.tag == "VISCA"
      ensures queue == [] && selected == null && interfaces == map[]
    {
      base := new ObjMsgHost(transport, "VISCA", origin);
      queue := [];
      selected := null;
      interfaces := map[];
    }

    /** `Add(name, ...)`: a new interface under `name`, which becomes the
        selected one, and the name registered for three-axis joystick
        payloads. */
    method Add(factory: F.ObjMsgDataFactory, name: string, link: Link, autoConnect: bool) returns (vf: ViscaInterface)
      requires Valid()
      modifies this, factory
      ensures Valid() && fresh(vf) && queue == old(queue)
      ensures vf.name == name && vf.link == link && vf.autoConnect == autoConnect && vf.sent == []
      ensures interfaces == old(interfaces)[name := vf] && selected == vf
      ensures factory.dataClasses == F.Register(old(factory.dataClasses), name, Joystick3Class).0
    {
      vf := new ViscaInterface(name, link, autoConnect);
      interfaces := interfaces[name := vf];
      selected := vf;
      assert interfaces[name] == vf;
      var _ := factory.RegisterClass(base.originId, name, Joystick3Class);
    }

    /** `Select(device)`: the named interface becomes the selected one; an
        unknown name is refused and the selection kept. */
    method Select(device: string) returns (found: bool)
      requires Valid()
      modifies this
      ensures Valid() && interfaces == old(interfaces) && queue == old(queue)
      ensures found <==> device in interfaces
      ensures found ==> selected == interfaces[device]
      ensures !found ==> selected == old(selected)
    {
      if device in interfaces {
        selected := interfaces[device];
        found := true;
      } else {
        found := false;
      }
    }

    /** `Consume(data)`: every payload is accepted and its sample queued
        without waiting (dropped when the queue is full). The payload is
        cast to a three-axis joystick payload without a check, so the code
        demands one. */
    method Consume(data: ObjMsgData?) returns (accepted: bool)
      requires data != null ==> data.value.Joystick3Value?
      modifies this
      ensures interfaces == old(interfaces) && selected == old(selected)
      ensures accepted <==> data != null
      ensures accepted ==> queue == T.Enqueue(old(queue), QUEUE_DEPTH, data.value.j3).0
      ensures !accepted ==> queue == old(queue)
    {
      if data != null {
        var (q, _) := T.Enqueue(queue, QUEUE_DEPTH, data.value.j3);
        queue := q;
        accepted := true;
      } else {
        accepted := false;
      }
    }

    /** The draining loop of the task: receive until the queue is empty,
        keeping the last sample received. With nothing queued the task
        would wait, which `got` reports as false. */
    method Drain() returns (got: bool, js: J3.Sample)
      modifies this
      ensures interfaces == old(interfaces) && selected == old(selected)
      ensures queue == []
      ensures got <==> old(queue) != []
      ensures got ==> js == old(queue)[|old(queue)| - 1]
    {
      js := J3.Zero;
      got := false;
      if queue == [] {
        return;
      }
      while queue != []
        invariant interfaces == old(interfaces) && selected == old(selected)
        invariant |queue| <= |old(queue)| && queue == old(queue)[|old(queue)| - |queue|..]
        invariant got <==> |queue| < |old(queue)|
        invariant got ==> js == old(queue)[|old(queue)| - |queue| - 1]
        decreases |queue|
      {
        var (q, ok, x) := T.Dequeue(queue, js);
        queue, got, js := q, ok, x;
      }
    }

    /** The acting part of the task: the sample's commands sent to the
        selected interface, or to every interface when none is selected. */
    method Dispatch(js: J3.Sample)
      requires Valid()
      modifies interfaces.Values
      ensures forall vf :: vf in interfaces.Values ==>
                vf.sent == old(vf.sent) + (if selected == null || vf == selected then Commands(js) else [])
    {
      if selected != null {
        Acton(selected, js);
        return;
      }
      var todo := interfaces.Keys;
      while todo != {}
        invariant todo <= interfaces.Keys
        invariant forall n :: n in interfaces ==>
                    interfaces[n].sent == old(interfaces[n].sent) + (if n in todo then [] else Commands(js))
        decreases todo
      {
        var n :| n in todo;
        Acton(interfaces[n], js);
        todo := todo - {n};
      }
      assert forall vf :: vf in interfaces.Values ==> exists n :: n in interfaces && interfaces[n] == vf;
    }

    /** `Acton(vf, js)`: the sample's commands sent to `vf`. */
    method Acton(vf: ViscaInterface, js: J3.Sample)
      modifies vf
      ensures vf.sent == old(vf.sent) + Commands(js)
    {
      vf.sent := vf.sent + [PanTiltOf(js), ZoomOf(js)];
    }

    /** One round of the task: drain the queue, then act on the newest
        sample. */
    method Step() returns (got: bool, js: J3.Sample)
      requires Valid()
      modifies this, interfaces.Values
      ensures Valid() && interfaces == old(interfaces) && selected == old(selected) && queue == []
      ensures got <==> old(queue) != []
      ensures got ==> js == old(queue)[|old(queue)| - 1]
      ensures forall vf :: vf in interfaces.Values ==>
                vf.sent == old(vf.sent) + (if got && (selected == null || vf == selected) then Commands(js) else [])
    {
      got, js := Drain();
      if got {
        Dispatch(js);
      }
    }
  }

  // --------------------------------------------------------------- lemmas

  /** A scaled speed is zero exactly when the axis times the factor stays
      below 100. */
  lemma ScaledZero(x: int, k: int)
    requires k > 0
    ensures Abs(x * k) == Abs(x) * k
    ensures CDiv(x * k, 100) == 0 <==> Abs(x) * k < 100
  {
    if x < 0 {
      assert x * k == -(Abs(x) * k);
    }
  }

  /** The scaled speed keeps the axis's sign and is at most the factor in
      magnitude for axes within -100..100. */
  lemma ScaledBounds(x: int, k: int)
    requires k > 0 && -100 <= x <= 100
    ensures Abs(CDiv(x * k, 100)) <= k
    ensures x >= 0 ==> CDiv(x * k, 100) >= 0
    ensures x <= 0 ==> CDiv(x * k, 100) <= 0
  {
    var a := Abs(x);
    assert a * k <= 100 * k by {
      MulMonotone(a, 100, k);
    }
    ScaledZero(x, k);
    assert Abs(x * k) / 100 <= k by {
      DivBound(Abs(x * k), 100);
    }
  }

  lemma MulMonotone(a: int, b: int, k: int)
    requires 0 <= a <= b && k > 0
    ensures a * k <= b * k
  {
  }

  /** The camera stays still exactly when x is within 5 and y within 7 of
      the centre: outside the dead zone, readings that small still scale to
      zero speed. */
  lemma PanTiltStillIff(js: J3.Sample)
    ensures PanTiltOf(js) == SetPanTilt(0, 0) <==> Abs(js.x) <= 5 && Abs(js.y) <= 7
  {
    ScaledZero(js.x, PAN_SPEED_MAX);
    ScaledZero(js.y, TILT_SPEED_MAX);
  }

  /** For axes in the joystick's -100..100 range the speeds stay within the
      camera's pan (18) and tilt (14) ranges and move the way the stick
      points. */
  lemma PanTiltInRange(js: J3.Sample)
    requires -100 <= js.x <= 100 && -100 <= js.y <= 100
    ensures Abs(PanTiltOf(js).pan) <= PAN_SPEED_MAX && Abs(PanTiltOf(js).tilt) <= TILT_SPEED_MAX
    ensures js.x >= 0 ==> PanTiltOf(js).pan >= 0
    ensures js.x <= 0 ==> PanTiltOf(js).pan <= 0
    ensures js.y >= 0 ==> PanTiltOf(js).tilt >= 0
    ensures js.y <= 0 ==> PanTiltOf(js).tilt <= 0
  {
    ScaledBounds(js.x, PAN_SPEED_MAX);
    ScaledBounds(js.y, TILT_SPEED_MAX);
  }

  /** `ZOOM_SPEED` takes 1 to the slowest and 100 to the fastest speed,
      keeps every value in between within the range, and never slows down
      as the value grows. */
  lemma ZoomSpeedRange(x: int)
    requires 1 <= x <= 100
    ensures ZOOM_MIN_SPEED <= ZoomSpeed(x) <= ZOOM_MAX_SPEED
    ensures x == 1 ==> ZoomSpeed(x) == ZOOM_MIN_SPEED
    ensures x == 100 ==> ZoomSpeed(x) == ZOOM_MAX_SPEED
  {
    assert CDiv(5 * (x - 1), 99) == 5 * (x - 1) / 99;
  }

  lemma ZoomSpeedMonotone(a: int, b: int)
    requires 1 <= a <= b
    ensures ZoomSpeed(a) <= ZoomSpeed(b)
  {
    assert CDiv(5 * (a - 1), 99) == 5 * (a - 1) / 99;
    assert CDiv(5 * (b - 1), 99) == 5 * (b - 1) / 99;
    DivBound(5 * (a - 1), 99);
    DivBound(5 * (b - 1), 99);
  }

  /** The zoom command for a z axis in -100..100: a stop within the dead
      zone, otherwise zooming in for a positive and out for a negative
      reading at a speed within range; mirrored readings zoom the other
      way at the same speed. */
  lemma ZoomInRange(js: J3.Sample)
    requires -100 <= js.z <= 100
    ensures ZoomOf(js) == ZoomStop <==> Abs(js.z) < DEAD_ZONE
    ensures ZoomOf(js).ZoomTele? <==> js.z >= DEAD_ZONE
    ensures ZoomOf(js).ZoomWide? <==> js.z <= -DEAD_ZONE
    ensures ZoomOf(js).ZoomTele? ==> ZOOM_MIN_SPEED <= ZoomOf(js).speed <= ZOOM_MAX_SPEED
    ensures ZoomOf(js).ZoomWide? ==> ZOOM_MIN_SPEED <= ZoomOf(js).speed <= ZOOM_MAX_SPEED
    ensures ZoomOf(js).ZoomTele? ==> ZoomOf(js.(z := -js.z)) == ZoomWide(ZoomOf(js).speed)
  {
    if js.z >= DEAD_ZONE {
      ZoomSpeedRange(js.z);
    } else if js.z <= -DEAD_ZONE {
      ZoomSpeedRange(-js.z);
    }
  }
}
