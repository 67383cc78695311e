/**
  `OSCRelayClient` in client.js: a small relay client with a whitelist of address
  filters. Its counter `connectionAttempts` is only ever set to 0, so every close arms
  a reconnect after 2000 ms and the error listener's rejection cannot fire.

  The filters are regular expressions written by the user; the model does not interpret
  them: `re(pattern, address)` says whether `address.match(new RegExp(pattern))` finds a
  match, or None when the pattern does not compile (a SyntaxError).
*/
module LegacyClient {
  import opened Js
  import Handlers

  const MaxRetries: int := 5
  const RetryDelay: int := 2000
  const FailedToConnect: string := "Failed to connect after 5 attempts"

  /** `{ type: 'osc_subscribe' }` */
  const Subscribe: Value := Obj(map["type" := Str("osc_subscribe")])

  type Matcher = (string, string) -> Option<bool>

  /** `filters.some(p => address.match(new RegExp(p)))`: stops at the first match, so a
      pattern after it is never compiled; a pattern that does not compile throws (None). */
  function AnyMatch(re: Matcher, filters: seq<string>, address: string): Option<bool> {
    if filters == [] then Some(false)
    else match re(filters[0], address)
      case None => None
      case Some(hit) => if hit then Some(true) else AnyMatch(re, filters[1..], address)
  }

  /** `shouldProcessMessage(message)`; None when it throws. */
  function ShouldProcess(re: Matcher, filters: seq<string>, message: Value): Option<bool> {
    if filters == [] then Some(true)
    else match Get(message, "address")
      case None => None
      case Some(address) => if address.Str? then AnyMatch(re, filters, address.s) else None
  }

  /** With no filter every message passes, whatever it holds. */
  lemma NoFilterPassesAll(re: Matcher, message: Value)
    ensures ShouldProcess(re, [], message) == Some(true)
  {
  }

  /** When every pattern compiles, a message passes exactly when some filter matches its
      address: a whitelist. */
  lemma {:induction false} WhitelistSemantics(re: Matcher, filters: seq<string>, address: string)
    requires forall k | 0 <= k < |filters| :: re(filters[k], address).Some?
    ensures AnyMatch(re, filters, address) == Some(exists k | 0 <= k < |filters| :: re(filters[k], address) == Some(true))
  {
    if filters != [] {
      assert forall k | 0 <= k < |filters[1..]| :: filters[1..][k] == filters[k + 1];
      WhitelistSemantics(re, filters[1..], address);
      if re(filters[0], address) == Some(false) {
        assert (exists k | 0 <= k < |filters| :: re(filters[k], address) == Some(true))
          == (exists k | 0 <= k < |filters[1..]| :: re(filters[1..][k], address) == Some(true)) by {
          forall k | 0 <= k < |filters| && re(filters[k], address) == Some(true)
            ensures 0 < k && re(filters[1..][k - 1], address) == Some(true) { }
        }
      }
    }
  }

  /** A pattern that does not compile is harmless once an earlier filter has matched. */
  lemma {:induction false} EarlierMatchHidesBadPattern(re: Matcher, filters: seq<string>, address: string, k: nat)
    requires k < |filters| && re(filters[k], address) == Some(true)
    requires forall i | 0 <= i < k :: re(filters[i], address) == Some(false)
    ensures AnyMatch(re, filters, address) == Some(true)
  {
    if k > 0 {
      EarlierMatchHidesBadPattern(re, filters[1..], address, k - 1);
    }
  }

  /** With a filter registered, a message whose address is not text makes the filter throw. */
  lemma NonTextAddressThrows(re: Matcher, filters: seq<string>, message: Value)
    requires filters != [] && !Read(message, "address").Str?
    ensures ShouldProcess(re, filters, message) == None
  {
  }

  datatype Sock = Sock(state: ReadyState, call: nat)

  /** `ws.send(...)` on socket `sock`. */
  datatype Written = Written(sock: nat, message: Value)

  datatype Handled = Handled(handler: HandlerId, message: Value)

  function HandledBy(hs: seq<HandlerId>, message: Value): seq<Handled> {
    seq(|hs|, i requires 0 <= i < |hs| => Handled(hs[i], message))
  }

  /** What `send(address, ...args)` builds. */
  function TunnelMessage(address: Value, args: seq<Value>): Value {
    Obj(map["type" := Str("osc_tunnel"), "address" := address, "args" := Arr(args)])
  }

  function ParameterUpdate(address: Value, value: Value): Value {
    Obj(map["type" := Str("parameter_update"), "address" := address, "value" := value])
  }

  class OSCRelayClient {
    const re: Matcher
    /** Whether `new WebSocket(serverUrl)` accepts the URL. */
    const urlValid: bool
    const maxRetries: int

    var ws: Option<nat>
    var sockets: seq<Sock>
    /** The promise of each `connect` call. */
    var calls: seq<Outcome>
    /** Reconnect timers armed by the close listener and not yet fired. */
    var timers: seq<int>
    var connected: bool
    var connectionAttempts: int
    var handlers: seq<HandlerId>
    var filters: seq<string>
    var written: seq<Written>
    var handled: seq<Handled>

    ghost predicate Valid()
      reads this
    {
      (ws.Some? ==> ws.value < |sockets|)
      && (forall i | 0 <= i < |sockets| :: sockets[i].call < |calls|)
      && Distinct(handlers) && Distinct(filters)
    }

    constructor (matcher: Matcher, urlOk: bool)
      ensures Valid()
      ensures re == matcher && urlValid == urlOk && maxRetries == MaxRetries
      ensures ws == None && sockets == [] && calls == [] && timers == []
      ensures !connected && connectionAttempts == 0
      ensures handlers == [] && filters == [] && written == [] && handled == []
    {
      re, urlValid, maxRetries := matcher, urlOk, MaxRetries;
      ws, sockets, calls, timers := None, [], [], [];
      connected, connectionAttempts := false, 0;
      handlers, filters, written, handled := [], [], [], [];
    }

    /** `connect()`: a new socket replaces `ws`; the old one is not closed. A URL that
        `new WebSocket` refuses rejects the new promise and leaves `ws` as it was. */
    method Connect() returns (c: nat)
      requires Valid()
      modifies this`ws, this`sockets, this`calls
      ensures Valid()
      ensures c == |old(calls)|
      ensures urlValid ==>
        calls == old(calls) + [Pending] && sockets == old(sockets) + [Sock(Connecting, c)] && ws == Some(|old(sockets)|)
      ensures !urlValid ==> calls == old(calls) + [Rejected(SetupFailure)] && sockets == old(sockets) && ws == old(ws)
    {
      c := |calls|;
      if urlValid {
        calls := calls + [Pending];
        sockets := sockets + [Sock(Connecting, c)];
        ws := Some(|sockets| - 1);
      } else {
        calls := calls + [Rejected(SetupFailure)];
      }
    }

    /** The 'open' listener. */
    method OnOpen(s: nat)
      requires Valid() && s < |sockets| && sockets[s].state == Connecting
      modifies this`sockets, this`connected, this`connectionAttempts, this`calls
      ensures Valid()
      ensures sockets == old(sockets)[s := Sock(Open, old(sockets)[s].call)]
      ensures connected && connectionAttempts == 0
      ensures var c := old(sockets)[s].call;
        calls == old(calls)[c := if old(calls)[c].Pending? then Resolved else old(calls)[c]]
    {
      var c := sockets[s].call;
      sockets := sockets[s := Sock(Open, c)];
      connected, connectionAttempts := true, 0;
      if calls[c].Pending? {
        calls := calls[c := Resolved];
      }
    }

    /** The 'error' listener: rejects only when not connected and the counter has reached
        `maxRetries`, which a counter that stays 0 never does. */
    method OnError(s: nat)
      requires Valid() && s < |sockets|
      modifies this`calls
      ensures connectionAttempts < maxRetries ==> calls == old(calls)
      ensures !connected && connectionAttempts >= maxRetries ==>
        var c := sockets[s].call;
        calls == old(calls)[c := if old(calls)[c].Pending? then Rejected(FailedToConnect) else old(calls)[c]]
    {
      if !connected && connectionAttempts >= maxRetries {
        var c := sockets[s].call;
        if calls[c].Pending? {
          calls := calls[c := Rejected(FailedToConnect)];
        }
      }
    }

    /** The 'close' listener: not connected any more, and a reconnect in 2000 ms while the
        counter is below `maxRetries`; the counter itself does not move. */
    method OnClose(s: nat)
      requires Valid() && s < |sockets| && sockets[s].state != Closed
      modifies this`sockets, this`connected, this`timers
      ensures Valid()
      ensures sockets == old(sockets)[s := Sock(Closed, old(sockets)[s].call)]
      ensures !connected
      ensures timers == old(timers) + if connectionAttempts < maxRetries then [RetryDelay] else []
    {
      sockets := sockets[s := Sock(Closed, sockets[s].call)];
      connected := false;
      if connectionAttempts < maxRetries {
        timers := timers + [RetryDelay];
      }
    }

    /** A reconnect timer fires and calls `connect()`; nobody awaits the new promise. */
    method FireTimer(t: nat) returns (c: nat)
      requires Valid() && t < |timers|
      modifies this`timers, this`ws, this`sockets, this`calls
      ensures Valid()
      ensures timers == old(timers[..t] + timers[t + 1..])
      ensures c == |old(calls)| && |calls| == c + 1 && calls[..c] == old(calls)
      ensures urlValid ==>
        calls == old(calls) + [Pending] && sockets == old(sockets) + [Sock(Connecting, c)] && ws == Some(|old(sockets)|)
    {
      timers := timers[..t] + timers[t + 1..];
      c := Connect();
    }

    /** The 'message' listener has no try: a frame that does not parse, a filter that
        throws or a handler that throws escapes the listener (`crashed`). A frame that
        passes the filter goes to every handler. */
    method OnFrame(frame: Frame, throwing: set<HandlerId>) returns (crashed: bool)
      requires Valid()
      modifies this`handled
      ensures frame.Malformed? ==> crashed && handled == old(handled)
      ensures frame.Json? ==>
        match ShouldProcess(re, filters, frame.value)
        case None => crashed && handled == old(handled)
        case Some(pass) =>
          (!pass ==> !crashed && handled == old(handled))
          && (pass ==>
                crashed == Handlers.AnyThrows(handlers, throwing)
                && handled == old(handled) + HandledBy(Handlers.CalledUntilThrow(handlers, throwing), frame.value))
    {
      if frame.Malformed? {
        return true;
      }
      var verdict := ShouldProcess(re, filters, frame.value);
      if verdict.None? {
        return true;
      }
      crashed := false;
      if verdict.value {
        var called;
        called, crashed := Handlers.Dispatch(handlers, throwing);
        handled := handled + HandledBy(called, frame.value);
      }
    }

    predicate IsOpen()
      reads this
    {
      ws.Some? && ws.value < |sockets| && sockets[ws.value].state == Open
    }

    /** `send(address, ...args)`: sent only on an OPEN socket and through the filter; a
        filter that throws makes `send` throw (None). */
    method Send(address: Value, args: seq<Value>) returns (ok: Option<bool>)
      requires Valid()
      modifies this`written
      ensures !IsOpen() ==> ok == Some(false) && written == old(written)
      ensures IsOpen() ==> ok == ShouldProcess(re, filters, TunnelMessage(address, args))
      ensures written == old(written) + if ok == Some(true) then [Written(ws.value, TunnelMessage(address, args))] else []
    {
      if !IsOpen() {
        return Some(false);
      }
      var message := TunnelMessage(address, args);
      ok := ShouldProcess(re, filters, message);
      if ok == Some(true) {
        written := written + [Written(ws.value, message)];
      }
    }

    /** `updateParameter`: guarded by the `connected` flag alone. `ws.send` on a socket
        that is still CONNECTING throws (`threw`); on one that is closing or closed the
        data is discarded. */
    method UpdateParameter(address: Value, value: Value) returns (threw: bool)
      requires Valid()
      modifies this`written
      ensures !connected ==> !threw && written == old(written)
      ensures connected && ws.Some? ==>
        threw == (sockets[ws.value].state == Connecting)
        && written == old(written) + if sockets[ws.value].state == Open then [Written(ws.value, ParameterUpdate(address, value))] else []
    {
      threw := false;
      if connected && ws.Some? {
        var s := ws.value;
        if sockets[s].state == Connecting {
          threw := true;
        } else if sockets[s].state == Open {
          written := written + [Written(s, ParameterUpdate(address, value))];
        }
      }
    }

    method SubscribeToOSC()
      requires Valid()
      modifies this`written
      ensures written == old(written) + if IsOpen() then [Written(ws.value, Subscribe)] else []
    {
      if IsOpen() {
        written := written + [Written(ws.value, Subscribe)];
      }
    }

    method OnMessage(h: HandlerId)
      requires Valid()
      modifies this`handlers
      ensures Valid()
      ensures handlers == AddOnce(old(handlers), h)
    {
      handlers := AddOnce(handlers, h);
    }

    /** `addFilter(pattern)`: a Set add, so adding a pattern twice is the same as once. */
    method AddFilter(pattern: string)
      requires Valid()
      modifies this`filters
      ensures Valid()
      ensures filters == AddOnce(old(filters), pattern)
      ensures pattern in old(filters) ==> filters == old(filters)
    {
      filters := AddOnce(filters, pattern);
    }
  }

  const SetupFailure: string := "Invalid URL"

  /** The state after the first open and close and `k` failed reconnects: the counter is
      0, one retry is armed, only the first promise settled, every socket closed. */
  ghost predicate AfterFailures(client: OSCRelayClient, k: nat)
    reads client
  {
    client.Valid() && client.connectionAttempts == 0 && client.maxRetries == MaxRetries
    && client.urlValid && client.timers == [RetryDelay]
    && |client.calls| == k + 1 && |client.sockets| == k + 1 && client.calls[0] == Resolved
    && (forall i | 1 <= i < |client.calls| :: client.calls[i] == Pending)
    && (forall i | 0 <= i < |client.sockets| :: client.sockets[i].state == Closed)
  }

  /** One failed reconnect: the timer fires, the new socket errors and then closes. */
  method FailOnce(client: OSCRelayClient, k: nat)
    requires AfterFailures(client, k)
    modifies client
    ensures AfterFailures(client, k + 1)
  {
    var c := client.FireTimer(0);
    client.OnError(k + 1);
    client.OnClose(k + 1);
  }

  /** Nothing moves the counter off 0: on a new client, after `n` reconnects in a row that
      fail (error, then close), one more reconnect is armed and no promise was rejected,
      however large `n` is compared with `maxRetries`. */
  method FailingReconnects(matcher: Matcher, n: nat) returns (client: OSCRelayClient)
    ensures fresh(client) && client.Valid() && client.connectionAttempts == 0
    ensures client.timers == [RetryDelay]
    ensures |client.calls| == n + 1 && client.calls[0] == Resolved
    ensures forall i | 1 <= i < |client.calls| :: client.calls[i] == Pending
  {
    client := new OSCRelayClient(matcher, true);
    var first := client.Connect();
    client.OnOpen(0);
    client.OnClose(0);
    var k := 0;
    while k < n
      invariant k <= n && fresh(client) && AfterFailures(client, k)
    {
      FailOnce(client, k);
      k := k + 1;
    }
  }
}
