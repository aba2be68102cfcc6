/** The OBS Studio websocket host: websocket client interfaces to
    obs-websocket. An incoming message may arrive in chunks; each
    interface reassembles them in its `assembly` text, parses a completed
    text message as JSON, and publishes every request response (op 7) as a
    JSON payload named after the interface. Requests carry the ids
    "ThisRequest-1", "ThisRequest-2", ... The websocket connection itself
    is not modelled: chunks arrive as parameters and requests are returned
    as the JSON tree that would be sent. */
module ObsWsClientHost {
  import opened CInt
  import opened Decimal
  import opened Json
  import opened Payload
  import opened Host
  import F = Factory
  import T = Transport

  // The websocket opcodes of a chunk (`WS_TRANSPORT_OPCODES_*`).
  const WS_CONT := 0x00
  const WS_TEXT := 0x01
  const WS_BINARY := 0x02
  const WS_CLOSE := 0x08
  const WS_PING := 0x09
  const WS_PONG := 0x0a
  const WS_FIN := 0x80

  // The obs-websocket opcodes (`ObsOpcodes`) the host produces or reads.
  const OP_REQUEST := 6
  const OP_REQUEST_RESPONSE := 7

  const REQUEST_ID_SEED := "ThisRequest"

  /** A `WEBSOCKET_EVENT_DATA` event: the frame's opcode, the length of the
      whole payload, where this chunk starts in it, and the chunk. */
  datatype Chunk = Chunk(opCode: int, payloadLen: int, payloadOffset: int, data: string)

  /** The chunk ends its message. */
  predicate Completes(c: Chunk) {
    c.payloadLen == c.payloadOffset + |c.data|
  }

  /** How a chunk changes the assembly: the new assembly, and the text a
      completed text message is parsed from. */
  function Reassemble(assembly: string, c: Chunk): (r: (string, Option<string>))
    ensures r.1.Some? <==> Completes(c) && c.opCode == WS_TEXT
    ensures r.1.Some? ==> r.0 == ""
    ensures !Completes(c) && |assembly| == c.payloadOffset ==> r.0 == assembly + c.data
    ensures !Completes(c) && |assembly| != c.payloadOffset ==> r.0 == ""
  {
    if Completes(c) then
      var a := if c.payloadOffset != 0 then assembly + c.data else assembly;
      if c.opCode == WS_TEXT then ("", Some(if |a| > 0 then a else c.data)) else (a, None)
    else if |assembly| != c.payloadOffset then ("", None)
    else (assembly + c.data, None)
  }

  /** `(int)cJSON_GetNumberValue(cJSON_GetObjectItem(root, "op"))`: the
      operation of a parsed message; nothing when it has no number there. */
  function OpOf(root: Json): (r: Option<int>)
    ensures r.Some? <==> GetItem(root, "op", false).Some? && GetItem(root, "op", false).value.JNumber?
    ensures r.Some? ==> var n := GetItem(root, "op", false).value;
                        n.exp == 0 ==> r.value == n.mant
  {
    match GetItem(root, "op", false)
    case Some(JNumber(m, e)) => Some(Truncated(m, e))
    case _ => None
  }

  /** The tree a completed text message publishes: the parsed message when
      it is a request response. */
  function Response(text: string): (r: Option<Json>)
    ensures r.Some? <==> Parse(text).Some? && OpOf(Parse(text).value) == Some(OP_REQUEST_RESPONSE)
    ensures r.Some? ==> r == Parse(text)
  {
    match Parse(text)
    case Some(root) => if OpOf(root) == Some(OP_REQUEST_RESPONSE) then Some(root) else None
    case None => None
  }

  /** `sprintf("%s-%d", REQUEST_ID_SEED, n)`. */
  function RequestId(n: int): string {
    REQUEST_ID_SEED + "-" + IntToString(n)
  }

  /** The request `Request(reqName, reqData)` sends. */
  function RequestMessage(reqName: string, id: string, reqData: Option<Json>): Json {
    var d := [Member("requestType", JString(reqName)), Member("requestId", JString(id))]
             + (if reqData.Some? then [Member("requestData", reqData.value)] else []);
    JObject([Member("op", JNumber(OP_REQUEST, 0)), Member("d", JObject(d))])
  }

  /** A websocket client interface (`WsClientInterface`). */
  class WsClientInterface {
    const name: string
    const uri: string
    const host: ObjMsgHost
    const autoConnect: bool
    const networkTimeoutMs: int
    const reconnectTimeoutMs: int
    var assembly: string
    var requestCount: int
    var identified: bool

    constructor (name: string, uri: string, host: ObjMsgHost, autoConnect: bool)
      ensures this.name == name && this.uri == uri && this.host == host && this.autoConnect == autoConnect
      ensures networkTimeoutMs == 1000 && reconnectTimeoutMs == 3000
      ensures assembly == "" && requestCount == 0 && !identified
    {
      this.name := name;
      this.uri := uri;
      this.host := host;
      this.autoConnect := autoConnect;
      networkTimeoutMs := 1000;
      reconnectTimeoutMs := 3000;
      assembly := "";
      requestCount := 0;
      identified := false;
    }

    /** The `WEBSOCKET_EVENT_DATA` case of the event handler: the chunk
        reassembled, a completed text message parsed, and a request
        response published on the host's transport. */
    method OnData(c: Chunk) returns (data: ObjMsgData?)
      requires host.transport.Valid()
      modifies this, host.transport, host.transport.buf
      ensures host.transport.Valid() && requestCount == old(requestCount) && identified == old(identified)
      ensures assembly == Reassemble(old(assembly), c).0
      ensures var text := Reassemble(old(assembly), c).1;
              && (data != null <==> text.Some? && Response(text.value).Some?)
              && (data != null ==> fresh(data) && data.origin == host.originId && data.name == name
                                   && data.value == JsonValue(Response(text.value)))
      ensures host.transport.Contents
              == if data != null then T.Enqueue(old(host.transport.Contents), host.transport.depth, data).0
                 else old(host.transport.Contents)
    {
      data := null;
      if c.payloadLen == c.payloadOffset + |c.data| {
        if c.payloadOffset != 0 {
          assembly := assembly + c.data;
        }
        if c.opCode == WS_TEXT {
          var root: Option<Json>;
          if |assembly| > 0 {
            root := Parse(assembly);
          } else {
            root := Parse(c.data);
          }
          assembly := "";
          if root.Some? && OpOf(root.value) == Some(OP_REQUEST_RESPONSE) {
            data := new ObjMsgData(host.originId, name, JsonValue(root));
            var _ := host.Produce(data);
          }
        }
      } else {
        if |assembly| != c.payloadOffset {
          assembly := "";
        } else {
          assembly := assembly + c.data;
        }
      }
    }

    /** `Request(reqName, reqData)`: the counter advanced first, so the
        first request is number 1, and the request carrying its id. Signed
        overflow of the counter is undefined, so the code demands room. */
    method Request(reqName: string, reqData: Option<Json>) returns (msg: Json, id: string)
      requires requestCount < INT_MAX
      modifies this
      ensures assembly == old(assembly) && identified == old(identified)
      ensures requestCount == old(requestCount) + 1
      ensures id == RequestId(requestCount) && msg == RequestMessage(reqName, id, reqData)
    {
      requestCount := requestCount + 1;
      id := REQUEST_ID_SEED + "-" + IntToString(requestCount);
      var d := [Member("requestType", JString(reqName)), Member("requestId", JString(id))];
      if reqData.Some? {
        d := d + [Member("requestData", reqData.value)];
      } else {
        assert d + [] == d;
      }
      msg := JObject([Member("op", JNumber(OP_REQUEST, 0)), Member("d", JObject(d))]);
    }

    /** `GetVersion()`: the request "GetVersion" without data. */
    method GetVersion() returns (msg: Json, id: string)
      requires requestCount < INT_MAX
      modifies this
      ensures assembly == old(assembly) && identified == old(identified)
      ensures requestCount == old(requestCount) + 1
      ensures id == RequestId(requestCount) && msg == RequestMessage("GetVersion", id, None)
    {
      msg, id := Request("GetVersion", None);
    }
  }

  class ObsWsClientHost {
    const base: ObjMsgHost
    var interfaces: map<string, WsClientInterface>

    /** `ObsWsClientHost(transport, origin)`. */
    constructor (transport: T.ObjMsgTransport, origin: UInt16)
      ensures base.transport == transport && base.originId == origin && base.tag == "ObsWsClientHost"
      ensures interfaces == map[]
    {
      base := new ObjMsgHost(transport, "ObsWsClientHost", origin);
      interfaces := map[];
    }

    /** `Add(name, url, autoConnect)`: a new interface under `name` and the
        name registered for JSON payloads. */
    method Add(factory: F.ObjMsgDataFactory, name: string, url: string, autoConnect: bool)
      returns (ws: WsClientInterface)
      modifies this, factory
      ensures fresh(ws) && interfaces == old(interfaces)[name := ws]
      ensures ws.name == name && ws.uri == url && ws.host == base && ws.autoConnect == autoConnect
      ensures ws.assembly == "" && ws.requestCount == 0 && !ws.identified
      ensures factory.dataClasses == F.Register(old(factory.dataClasses), name, JsonClass).0
    {
      ws := new WsClientInterface(name, url, base, autoConnect);
      interfaces := interfaces[name := ws];
      var _ := factory.RegisterClass(base.originId, name, JsonClass);
    }
  }

  // ------------------------------------------------------------ reassembly

  function Concat(parts: seq<string>): string
    decreases |parts|
  {
    if parts == [] then "" else parts[0] + Concat(parts[1..])
  }

  /** The chunks a message of `total` characters arrives in when split into
      `parts`, the first starting at `offset`. */
  function Fragments(parts: seq<string>, opCode: int, total: int, offset: int): (cs: seq<Chunk>)
    ensures |cs| == |parts|
    decreases |parts|
  {
    if parts == [] then []
    else [Chunk(opCode, total, offset, parts[0])] + Fragments(parts[1..], opCode, total, offset + |parts[0]|)
  }

  /** Feeding chunks one after another: the final assembly and the texts
      parsed on the way. */
  function Feed(assembly: string, cs: seq<Chunk>): (string, seq<string>)
    decreases |cs|
  {
    if cs == [] then (assembly, [])
    else
      var (a1, text) := Reassemble(assembly, cs[0]);
      var (a2, texts) := Feed(a1, cs[1..]);
      (a2, (if text.Some? then [text.value] else []) + texts)
  }

  /** Chunks continuing what is already assembled, in order and without
      gaps, complete the message once: it is parsed from the whole text and
      the assembly is left empty. */
  lemma {:induction false} FeedFragments(a: string, parts: seq<string>, total: int)
    requires parts != [] && forall i :: 0 <= i < |parts| ==> parts[i] != ""
    requires total == |a| + |Concat(parts)|
    ensures Feed(a, Fragments(parts, WS_TEXT, total, |a|)) == ("", [a + Concat(parts)])
    decreases |parts|
  {
    var cs := Fragments(parts, WS_TEXT, total, |a|);
    assert cs[0] == Chunk(WS_TEXT, total, |a|, parts[0]);
    if |parts| == 1 {
      assert Concat(parts) == parts[0] + Concat([]) == parts[0];
      if a == "" {
        assert a + parts[0] == parts[0];
      }
      assert Reassemble(a, cs[0]) == ("", Some(a + parts[0]));
      assert cs[1..] == [];
      assert Feed(a, cs) == ("", [a + parts[0]] + []);
      assert [a + parts[0]] + [] == [a + Concat(parts)];
    } else {
      var rest := parts[1..];
      assert Concat(rest) == rest[0] + Concat(rest[1..]);
      assert Reassemble(a, cs[0]) == (a + parts[0], None);
      assert Concat(parts) == parts[0] + Concat(rest);
      assert cs[1..] == Fragments(rest, WS_TEXT, total, |a + parts[0]|);
      FeedFragments(a + parts[0], rest, total);
      assert Feed(a, cs) == ("", [] + [a + parts[0] + Concat(rest)]);
      assert a + parts[0] + Concat(rest) == a + Concat(parts);
      assert [] + [a + Concat(parts)] == [a + Concat(parts)];
    }
  }

  /** A text message sent in non-empty chunks reaches an interface with
      an empty assembly as exactly one parsed text: the whole message. */
  lemma ReassembleMessage(parts: seq<string>)
    requires parts != [] && forall i :: 0 <= i < |parts| ==> parts[i] != ""
    ensures Feed("", Fragments(parts, WS_TEXT, |Concat(parts)|, 0)) == ("", [Concat(parts)])
  {
    FeedFragments("", parts, |Concat(parts)|);
    assert "" + Concat(parts) == Concat(parts);
  }

  /** A chunk that does not continue the assembly where it ends throws the
      whole assembly away, itself included. */
  lemma MisalignedChunkResets(assembly: string, c: Chunk)
    requires !Completes(c) && |assembly| != c.payloadOffset
    ensures Reassemble(assembly, c) == ("", None)
  {
  }

  /** Only text messages are cleared from the assembly: a binary message in
      two chunks stays assembled, and a following one-chunk text message is
      then parsed from the stale binary text instead of its own. */
  lemma StaleAssemblyAfterBinary()
    ensures Reassemble("", Chunk(WS_BINARY, 4, 0, "ab")) == ("ab", None)
    ensures Reassemble("ab", Chunk(WS_BINARY, 4, 2, "cd")) == ("abcd", None)
    ensures Reassemble("abcd", Chunk(WS_TEXT, 2, 0, "{}")) == ("", Some("abcd"))
  {
    assert "" + "ab" == "ab";
    assert "ab" + "cd" == "abcd";
  }

  // ---------------------------------------------------------- request ids

  /** Distinct counter values give distinct request ids. */
  lemma RequestIdsDistinct(m: int, n: int)
    requires m != n
    ensures RequestId(m) != RequestId(n)
  {
    var p := REQUEST_ID_SEED + "-";
    if RequestId(m) == RequestId(n) {
      assert RequestId(m)[|p|..] == IntToString(m);
      assert RequestId(n)[|p|..] == IntToString(n);
      IntToStringInjective(m, n);
    }
  }

  /** A request whose name is a C string and whose data is well formed is
      well formed too. */
  lemma RequestWf(reqName: string, n: nat, reqData: Option<Json>)
    requires NoNul(reqName) && (reqData.Some? ==> Wf(reqData.value))
    ensures Wf(RequestMessage(reqName, RequestId(n), reqData))
  {
    var id := RequestId(n);
    var s := IntToString(n);
    assert forall i :: 0 <= i < |s| ==> IsDigit(s[i]);
    assert NoNul(id);
    var msg := RequestMessage(reqName, id, reqData);
    var ms := msg.members[1].val.members;
    assert Wf(msg.members[1].val) by {
      assert forall i :: 0 <= i < |ms| ==> NoNul(ms[i].key) && Wf(ms[i].val);
    }
  }

  /** Printing a request and parsing the text back gives the same request. */
  lemma RequestRoundTrip(reqName: string, n: nat, reqData: Option<Json>)
    requires NoNul(reqName) && (reqData.Some? ==> Wf(reqData.value))
    ensures Parse(Print(RequestMessage(reqName, RequestId(n), reqData))) == Some(RequestMessage(reqName, RequestId(n), reqData))
  {
    RequestWf(reqName, n, reqData);
    ParsePrint(RequestMessage(reqName, RequestId(n), reqData));
  }

  /** A request is op 6, and its id is read back from its `d` object. */
  lemma RequestFields(reqName: string, id: string, reqData: Option<Json>)
    ensures GetItem(RequestMessage(reqName, id, reqData), "op", true) == Some(JNumber(OP_REQUEST, 0))
    ensures var d := GetItem(RequestMessage(reqName, id, reqData), "d", true);
            d.Some? && GetItem(d.value, "requestId", true) == Some(JString(id))
  {
    var msg := RequestMessage(reqName, id, reqData);
    assert "op" != "d";
    assert FindMember(msg.members[1..], "d", true) == Some(msg.members[1].val);
    var ms := msg.members[1].val.members;
    assert "requestType" != "requestId";
    assert FindMember(ms[1..], "requestId", true) == Some(JString(id));
  }

  // ------------------------------------------------------------- responses

  /** A well-formed op-7 message, printed as the server sends it, is
      published as exactly that tree. */
  lemma PrintedResponsePublished(j: Json)
    requires Wf(j) && OpOf(j) == Some(OP_REQUEST_RESPONSE)
    ensures Response(Print(j)) == Some(j)
  {
    ParsePrint(j);
  }

  /** A response as OBS sends one to "GetVersion": its request status holds
      the boolean `result` and the numeric `code`. */
  function VersionResponse(): Json {
    var status := JObject([Member("result", JBool(true)), Member("code", JNumber(100, 0))]);
    JObject([Member("op", JNumber(OP_REQUEST_RESPONSE, 0)),
             Member("d", JObject([Member("requestType", JString("GetVersion")),
                                  Member("requestId", JString("ThisRequest-1")),
                                  Member("requestStatus", status)]))])
  }

  /** Such a response, printed, is published whole, status included. */
  lemma VersionResponsePublished()
    ensures Response(Print(VersionResponse())) == Some(VersionResponse())
  {
    VersionResponseWf();
    VersionResponseOp();
    PrintedResponsePublished(VersionResponse());
  }

  lemma VersionResponseWf()
    ensures Wf(VersionResponse())
  {
    var j := VersionResponse();
    var d := j.members[1].val;
    assert Wf(d.members[2].val);
    assert NoNul("ThisRequest-1") && NoNul("GetVersion");
    assert Wf(d);
  }

  lemma VersionResponseOp()
    ensures OpOf(VersionResponse()) == Some(OP_REQUEST_RESPONSE)
  {
    assert KeyMatches("op", "op", false);
  }

  /** The op is the number truncated toward zero, as the C conversion from
      double does: "op": 7.9 is still a request response. */
  lemma FractionalOpTruncates()
    ensures OpOf(JObject([Member("op", JNumber(79, -1))])) == Some(OP_REQUEST_RESPONSE)
    ensures OpOf(JObject([Member("op", JNumber(-79, -1))])) == Some(-OP_REQUEST_RESPONSE)
  {
    assert KeyMatches("op", "op", false);
    assert Whole(79, 1) == 7;
  }

  /** A message whose op is not a number is never published. */
  lemma NonNumericOpIgnored(text: string)
    requires Parse(text).Some? && GetItem(Parse(text).value, "op", false).Some?
    requires !GetItem(Parse(text).value, "op", false).value.JNumber?
    ensures Response(text).None?
  {
  }
}
