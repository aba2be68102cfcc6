/** The base of every peripheral host (`ObjMsgHost`): it remembers a tag
    and an origin id and publishes payloads on the transport it was given. */
module Host {
  import opened CInt
  import opened Payload
  import opened Transport

  /** `PollingSample` / `CHANGE_EVENT`: whether a host's endpoint reports
      only on request or also whenever its reading changes. */
  datatype ObjMsgSample = Polling | ChangeEvent

  /** The change detection of the GPIO ports and the pulse counters: the
      stored value after reading `level`, and +1, -1 or 0 for a rise, a fall
      or no change. */
  function Sense(value: int, level: int): (r: (int, int))
    ensures r.0 == level
    ensures r.1 == 1 <==> level > value
    ensures r.1 == -1 <==> level < value
    ensures r.1 == 0 <==> level == value
  {
    if level != value then (level, if level > value then 1 else -1) else (value, 0)
  }

  class ObjMsgHost {
    const transport: ObjMsgTransport
    const tag: string
    const originId: UInt16

    /** `ObjMsgHost(transport, tag, origin)`. */
    constructor (transport: ObjMsgTransport, tag: string, origin: UInt16)
      ensures this.transport == transport && this.tag == tag && originId == origin
    {
      this.transport := transport;
      this.tag := tag;
      originId := origin;
    }

    /** The default `consume`: nothing is accepted. */
    method Consume(data: ObjMsgData?) returns (accepted: bool)
      ensures !accepted
    {
      accepted := false;
    }

    /** `Produce(data)`: the transport's `Send`, with its effect and
        result. */
    method Produce(data: ObjMsgData?) returns (ok: bool)
      requires transport.Valid()
      modifies transport, transport.buf
      ensures transport.Valid()
      ensures (transport.Contents, ok) == Enqueue(old(transport.Contents), transport.depth, data)
    {
      ok := transport.Send(data);
    }
  }
}
