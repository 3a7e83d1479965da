/**
 * `SocketClient` of exchanges/hitbtc.js: a request/response protocol over one
 * JSON WebSocket. The socket's own events (open, the start of a closing
 * handshake, close, the 500 ms reconnect timer, a frame, a request's 10 s
 * timer) are the methods of the class; `Callback` stands for the push handlers.
 */
module HitbtcSocket {
  import opened Wrappers
  import opened Json

  /** The `readyState` of the current WebSocket. */
  datatype ReadyState = Connecting | Open | Closing | Closed

  /** A request as sent: the frame `{method, params, id}` without its id. */
  datatype Call = Call(name: string, params: Json)

  /** Why a request's promise is rejected. */
  datatype Reason =
    | NotConnected        // "WebSocket connection not established"
    | Disconnected
    | Timeout
    | Remote(error: Json) // the response's `error` member

  /** How a pending request's promise is settled. */
  datatype Settlement = Resolved(id: int, result: Json) | Rejected(id: int, reason: Reason)

  /** What `request` does: send a frame under a fresh id, or reject at once. */
  datatype RequestOutcome = Sent(id: int, call: Call) | Refused(reason: Reason)

  /** An inbound text frame: one `JSON.parse` rejects, or the value it yields. */
  datatype Frame = Unparseable | Parsed(value: Json)

  /** The three shapes `onmessage` tells apart. */
  datatype Inbound =
    | Response(id: Json, result: Option<Json>, error: Option<Json>)
    | Push(name: Json, params: Json)
    | Other

  /** What handling a frame did besides updating the registry. */
  datatype Effect<Callback> =
    | Settled(settlement: Settlement)
    | Unsettled(id: int)                                 // removed, but neither resolved nor rejected
    | Dispatched(handlers: seq<Callback>, params: Json)  // each handler called with params, in order
    | Dropped

  /**
   * The shape of a frame: a truthy `id` makes a response; otherwise truthy
   * `method` and `params` make a push; anything else, including text that does
   * not parse and a `null` (whose property read throws), is dropped.
   */
  function Classify(frame: Frame): (r: Inbound)
    ensures frame.Unparseable? ==> r == Other
    ensures r.Response? <==> frame.Parsed? && Truthy(Field(frame.value, "id"))
    ensures r.Response? ==>
      Some(r.id) == Field(frame.value, "id") &&
      r.result == Field(frame.value, "result") && r.error == Field(frame.value, "error")
    ensures r.Push? <==>
      frame.Parsed? && !Truthy(Field(frame.value, "id")) &&
      Truthy(Field(frame.value, "method")) && Truthy(Field(frame.value, "params"))
    ensures r.Push? ==> Some(r.name) == Field(frame.value, "method") && Some(r.params) == Field(frame.value, "params")
  {
    match frame
    case Unparseable => Other
    case Parsed(j) =>
      if Truthy(Field(j, "id")) then Response(Field(j, "id").value, Field(j, "result"), Field(j, "error"))
      else if Truthy(Field(j, "method")) && Truthy(Field(j, "params")) then
        Push(Field(j, "method").value, Field(j, "params").value)
      else Other
  }

  /** The registry key a response id denotes: request ids are integers, compared as numbers. */
  function RegistryKey(id: Json): Option<int>
  {
    if id.JNum? && id.n == id.n.Floor as real then Some(id.n.Floor) else None
  }

  /** For a response to pending id `key`: resolve on a truthy result, else reject on a truthy error, else only warn. */
  function Settle<Callback>(key: int, result: Option<Json>, error: Option<Json>): Effect<Callback>
  {
    if Truthy(result) then Settled(Resolved(key, result.value))
    else if Truthy(error) then Settled(Rejected(key, Remote(error.value)))
    else Unsettled(key)
  }

  class SocketClient<Callback> {
    /** `_id`: the last request id handed out. */
    var id: int
    /** `_ws.readyState`. */
    var state: ReadyState
    /** `_promises`: the pending requests by id. */
    var promises: map<int, Call>
    /** `_handles`: the push handlers of each method, in registration order. */
    var handles: map<string, seq<Callback>>
    /** Every id ever sent, oldest first. */
    ghost var issued: seq<int>

    ghost predicate Valid()
      reads this
    {
      && 1 <= id
      && (forall i, j :: 0 <= i < j < |issued| ==> issued[i] < issued[j])
      && (forall i :: 0 <= i < |issued| ==> 1 < issued[i] <= id)
      && (forall k :: k in promises ==> k in issued)
      && (state == Connecting || state == Closed ==> promises == map[])
    }

    /** The handlers registered for a method, in registration order. */
    function HandlersOf(name: string): seq<Callback>
      reads this
    {
      if name in handles then handles[name] else []
    }

    /** `new SocketClient(...)`: no request sent yet, and a socket that is connecting. */
    constructor ()
      ensures Valid()
      ensures id == 1 && state == Connecting && promises == map[] && handles == map[] && issued == []
    {
      id := 1;
      state := Connecting;
      promises := map[];
      handles := map[];
      issued := [];
    }

    /** The socket's `open` event (the caller then runs the on-connect routine). */
    method OnOpen()
      requires Valid() && state == Connecting
      modifies this
      ensures Valid() && state == Open
      ensures id == old(id) && promises == old(promises) && handles == old(handles) && issued == old(issued)
    {
      state := Open;
    }

    /** The far end starts the closing handshake: `readyState` becomes CLOSING. */
    method OnClosing()
      requires Valid() && state == Open
      modifies this
      ensures Valid() && state == Closing
      ensures id == old(id) && promises == old(promises) && handles == old(handles) && issued == old(issued)
    {
      state := Closing;
    }

    /**
     * The socket's `close` event: every pending request is removed and rejected
     * with `Disconnected`; the handlers and the id counter stay.
     */
    method OnClose() returns (rejected: seq<Settlement>)
      requires Valid() && state != Closed
      modifies this
      ensures Valid() && state == Closed && promises == map[]
      ensures id == old(id) && handles == old(handles) && issued == old(issued)
      ensures forall i :: 0 <= i < |rejected| ==> rejected[i] == Rejected(rejected[i].id, Disconnected)
      ensures forall k :: k in old(promises) <==> Rejected(k, Disconnected) in rejected
      ensures forall i, j :: 0 <= i < j < |rejected| ==> rejected[i] != rejected[j]
    {
      rejected := [];
      while promises != map[]
        invariant forall k :: k in promises ==> k in old(promises) && promises[k] == old(promises)[k]
        invariant forall k :: k in old(promises) <==> k in promises || Rejected(k, Disconnected) in rejected
        invariant forall k :: k in promises ==> Rejected(k, Disconnected) !in rejected
        invariant forall i :: 0 <= i < |rejected| ==> rejected[i] == Rejected(rejected[i].id, Disconnected)
        invariant forall i, j :: 0 <= i < j < |rejected| ==> rejected[i] != rejected[j]
        invariant id == old(id) && handles == old(handles) && issued == old(issued) && state == old(state)
        decreases |promises|
      {
        assert exists k :: k in promises by {
          if forall k :: k !in promises { assert false; }
        }
        var key :| key in promises;
        promises := promises - {key};
        rejected := rejected + [Rejected(key, Disconnected)];
      }
      state := Closed;
    }

    /** The 500 ms timer after a close: `_createSocket` replaces only the socket. */
    method OnReconnectTimer()
      requires Valid() && state == Closed
      modifies this
      ensures Valid() && state == Connecting
      ensures id == old(id) && promises == old(promises) && handles == old(handles) && issued == old(issued)
    {
      state := Connecting;
    }

    /**
     * `request(method, params)`. On an open socket it takes the next id, registers
     * it and sends the frame; otherwise it rejects at once and changes nothing.
     */
    method Request(name: string, params: Json) returns (r: RequestOutcome)
      requires Valid()
      modifies this
      ensures Valid() && state == old(state) && handles == old(handles)
      ensures old(state) == Open ==>
        && r == Sent(old(id) + 1, Call(name, params))
        && id == r.id
        && promises == old(promises)[r.id := Call(name, params)]
        && issued == old(issued) + [r.id]
        && r.id !in old(promises)
        && (forall i :: 0 <= i < |old(issued)| ==> old(issued)[i] < r.id)
      ensures old(state) != Open ==>
        r == Refused(NotConnected) && id == old(id) && promises == old(promises) && issued == old(issued)
    {
      if state != Open {
        return Refused(NotConnected);
      }
      id := id + 1;
      promises := promises[id := Call(name, params)];
      issued := issued + [id];
      r := Sent(id, Call(name, params));
    }

    /** The request's 10 s timer: a still-pending request is removed and rejected; a settled one is left alone. */
    method OnTimeout(requestId: int) returns (s: Option<Settlement>)
      requires Valid()
      modifies this
      ensures Valid()
      ensures id == old(id) && state == old(state) && handles == old(handles) && issued == old(issued)
      ensures requestId in old(promises) ==>
        s == Some(Rejected(requestId, Timeout)) && promises == old(promises) - {requestId}
      ensures requestId !in old(promises) ==> s == None && promises == old(promises)
    {
      if requestId in promises {
        promises := promises - {requestId};
        s := Some(Rejected(requestId, Timeout));
      } else {
        s := None;
      }
    }

    /**
     * `onmessage`. A response whose id is pending removes that entry and settles
     * it by `Settle`; a push of a registered method goes to all its handlers in
     * registration order; every other frame changes nothing.
     */
    method OnMessage(frame: Frame) returns (effect: Effect<Callback>)
      requires Valid()
      modifies this
      ensures Valid()
      ensures id == old(id) && state == old(state) && handles == old(handles) && issued == old(issued)
      ensures match Classify(frame)
        case Response(rid, result, error) =>
          var key := RegistryKey(rid);
          if key.Some? && key.value in old(promises) then
            promises == old(promises) - {key.value} && effect == Settle(key.value, result, error)
          else
            promises == old(promises) && effect == Dropped
        case Push(name, params) =>
          promises == old(promises) &&
          effect == (if name.JStr? && name.s in handles then Dispatched(handles[name.s], params) else Dropped)
        case Other =>
          promises == old(promises) && effect == Dropped
    {
      match Classify(frame)
      case Response(rid, result, error) =>
        var key := RegistryKey(rid);
        if key.Some? && key.value in promises {
          promises := promises - {key.value};
          effect := Settle(key.value, result, error);
        } else {
          effect := Dropped;
        }
      case Push(name, params) =>
        if name.JStr? && name.s in handles {
          effect := Dispatched(handles[name.s], params);
        } else {
          effect := Dropped;
        }
      case Other =>
        effect := Dropped;
    }

    /** `setHandler(method, callback)`: appends to that method's list, creating it if absent. */
    method SetHandler(name: string, callback: Callback)
      requires Valid()
      modifies this
      ensures Valid()
      ensures id == old(id) && state == old(state) && promises == old(promises) && issued == old(issued)
      ensures handles.Keys == old(handles).Keys + {name}
      ensures handles[name] == old(HandlersOf(name)) + [callback]
      ensures forall m :: m in old(handles) && m != name ==> handles[m] == old(handles)[m]
    {
      var existing := if name in handles then handles[name] else [];
      handles := handles[name := existing + [callback]];
    }
  }
}
