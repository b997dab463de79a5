/** The JSON-RPC client of the management GUI: the request object it writes
    for a call, and the two fields it updates as calls are made, the request
    counter and the connected flag. The socket itself is not modelled: the
    outcome of a connect attempt and the reply read back are parameters. */
module RpcClient {
  import opened Json

  const DefaultHost: string := "localhost"
  const DefaultPort: int := 25585

  /** True when Python finds the parameter argument true: a non-empty list. */
  predicate HasParams(params: Option<seq<Json>>) {
    params.Some? && params.value != []
  }

  /** The request object for one call: "jsonrpc", "id" and "method" always,
      "params" only for a non-empty parameter list. */
  function BuildRequest(id: int, name: string, params: Option<seq<Json>>): (r: Message)
    ensures r.Keys == {"jsonrpc", "id", "method"} + (if HasParams(params) then {"params"} else {})
    ensures r["jsonrpc"] == JStr("2.0") && r["id"] == JInt(id) && r["method"] == JStr(name)
    ensures "params" in r ==> r["params"] == JArr(params.value)
  {
    var base := map["jsonrpc" := JStr("2.0"), "id" := JInt(id), "method" := JStr(name)];
    if HasParams(params) then base["params" := JArr(params.value)] else base
  }

  /** A reader of the JSON-RPC 2.0 requests this client can send (section 4
      of the JSON-RPC 2.0 specification, restricted to integer ids and
      by-position params): an omitted "params" means no parameters. */
  datatype Call = Call(id: int, name: string, params: seq<Json>)

  function ReadRequest(r: Message): Option<Call> {
    if r.Keys - {"params"} != {"jsonrpc", "id", "method"} then None
    else if r["jsonrpc"] != JStr("2.0") || !r["id"].JInt? || !r["method"].JStr? then None
    else if "params" !in r then Some(Call(r["id"].i, r["method"].s, []))
    else if r["params"].JArr? then Some(Call(r["id"].i, r["method"].s, r["params"].items))
    else None
  }

  function ParamsOrEmpty(params: Option<seq<Json>>): seq<Json> {
    if params.Some? then params.value else []
  }

  /** Every built request is accepted by that reader, carrying the
      given id, method and parameters (None and [] both read as no parameters). */
  lemma ReadBuiltRequest(id: int, name: string, params: Option<seq<Json>>)
    ensures ReadRequest(BuildRequest(id, name, params)) == Some(Call(id, name, ParamsOrEmpty(params)))
  {
    var r := BuildRequest(id, name, params);
    assert r.Keys - {"params"} == {"jsonrpc", "id", "method"};
  }

  /** Conversely, a request the client could have sent (one that does not
      spell out an empty "params") is exactly what BuildRequest produces from
      what a server reads out of it. */
  lemma BuildReadRequest(r: Message, c: Call)
    requires ReadRequest(r) == Some(c)
    requires "params" in r ==> c.params != []
    ensures BuildRequest(c.id, c.name, Some(c.params)) == r
  {
    var b := BuildRequest(c.id, c.name, Some(c.params));
    assert b.Keys == r.Keys;
    forall k | k in r ensures b[k] == r[k] {
    }
  }

  /** The client of the management GUI. `issued` records, in order, every id
      that a call has put into a request. */
  class Client {
    const host: string
    const port: int
    var connected: bool
    var hasSocket: bool
    var requestId: int
    ghost var issued: seq<int>

    /** The counter starts at 1 and every request takes the next id, so the
        ids issued so far are exactly 1, 2, ..., requestId - 1; a connected
        client always has a socket. */
    ghost predicate Valid()
      reads this
    {
      requestId == |issued| + 1 &&
      (forall k :: 0 <= k < |issued| ==> issued[k] == k + 1) &&
      (connected ==> hasSocket)
    }

    constructor (host: string, port: int)
      ensures Valid()
      ensures this.host == host && this.port == port
      ensures !connected && !hasSocket && requestId == 1 && issued == []
    {
      this.host := host;
      this.port := port;
      connected := false;
      hasSocket := false;
      requestId := 1;
      issued := [];
    }

    /** `_connect`: the attempt's outcome is `ok`; a success opens a socket
        and sets the flag, a failure changes nothing. */
    method Connect(ok: bool) returns (r: bool)
      requires Valid()
      modifies this
      ensures Valid()
      ensures r == ok
      ensures connected == (ok || old(connected)) && hasSocket == (ok || old(hasSocket))
      ensures requestId == old(requestId) && issued == old(issued)
    {
      if ok {
        hasSocket := true;
        connected := true;
      }
      r := ok;
    }

    /** `_disconnect`: closes an open socket and clears the flag. */
    method Disconnect()
      requires Valid()
      modifies this
      ensures Valid()
      ensures !connected && hasSocket == old(hasSocket)
      ensures requestId == old(requestId) && issued == old(issued)
    {
      if hasSocket {
        connected := false;
      }
    }

    /** `_call_method`. `connectOk` is the outcome of the connect attempt made
        when the client is not connected (ignored otherwise); `reply` is the
        decoded reply, or None when the send, the receive or the decoding
        fails. Returns the request built for sending, if the connection was
        up, and the call's result. */
    method CallMethod(name: string, params: Option<seq<Json>>, connectOk: bool, reply: Option<Json>)
      returns (sent: Option<Message>, result: Option<Json>)
      requires Valid()
      modifies this
      ensures Valid()
      ensures !old(connected) && !connectOk ==>
        sent == None && result == None && !connected && hasSocket == old(hasSocket) &&
        requestId == old(requestId) && issued == old(issued)
      ensures old(connected) || connectOk ==>
        sent == Some(BuildRequest(old(requestId), name, params)) && result == reply &&
        connected && hasSocket &&
        requestId == old(requestId) + 1 && issued == old(issued) + [old(requestId)]
    {
      if !connected {
        var ok := Connect(connectOk);
        if !ok {
          return None, None;
        }
      }
      var request := BuildRequest(requestId, name, params);
      requestId := requestId + 1;
      issued := issued + [request["id"].i];
      sent := Some(request);
      result := reply;
    }
  }

  /** Ids handed out by one client are strictly increasing and all lie below
      the current counter. */
  lemma IssuedIdsIncrease(c: Client)
    requires c.Valid()
    ensures forall i, j :: 0 <= i < j < |c.issued| ==> c.issued[i] < c.issued[j]
    ensures forall k :: 0 <= k < |c.issued| ==> 1 <= c.issued[k] < c.requestId
  {
  }

  /** A session: a failed connect consumes no id, a failed exchange still
      consumes its id, and the next request carries the id after it. */
  method ClientSession(name: string) {
    var c := new Client(DefaultHost, DefaultPort);
    var sent, result := c.CallMethod(name, None, false, Some(JNull));
    assert sent == None && result == None && c.requestId == 1;
    sent, result := c.CallMethod(name, None, true, Some(JObj(map["result" := JArr([])])));
    assert sent.Some? && sent.value["id"] == JInt(1) && "params" !in sent.value;
    sent, result := c.CallMethod(name, Some([JInt(7)]), false, None);
    assert sent.Some? && sent.value["id"] == JInt(2) && result == None;
    sent, result := c.CallMethod(name, Some([]), false, None);
    assert sent.Some? && sent.value["id"] == JInt(3) && "params" !in sent.value;
    assert c.issued == [1, 2, 3];
  }
}
