/**
  The outgoing relay link: the `connect` / close / reconnect machinery that appears, with
  small differences, in three classes:

    - `HubManagerLink`:   the link half of `RelayManager` in managers/RelayManager.js.
      The close handler checks the counter and then increments it; a failed reconnect
      rejects the earlier promise only when the counter has reached the limit. The socket
      has no 'message' listener.
    - `ClientRelayLink`:  `RelayManager` in client/managers/RelayManager.js. The close
      handler increments the counter and then checks it; a failed reconnect always
      rejects. Incoming frames are logged (by `message.type`) and handed to the handlers.
    - `ClientSocketLink`: `WebSocketManager` in client/managers/WebSocketManager.js.
      Increments then checks, like `ClientRelayLink`; a successful reconnect does not
      resubscribe. Incoming frames go straight to the handlers.

  Sockets are `ws` client sockets: the model keeps every socket created, with its
  readyState and the connect call whose listeners it carries; opening and closing are
  events the environment delivers. Timers are pending entries that the environment fires.
  Promises are outcomes: each call of `connect` has one, and a call made by a reconnect
  timer remembers the earlier call whose timer is awaiting it.
*/
module Link {
  import opened Js
  import Handlers

  datatype Variant = HubManagerLink | ClientRelayLink | ClientSocketLink

  /** What the close handler decides. */
  datatype Decision = Retry | GiveUp

  const MaxReached: string := "Maximum reconnection attempts reached"

  /** The error `new WebSocket(url)` throws for a URL it cannot use. */
  const SetupFailure: string := "Invalid URL"

  const DefaultRetries: int := 3
  const DefaultRetryDelay: int := 5000

  /** `{ type: 'osc_subscribe' }` */
  const Subscribe: Value := Obj(map["type" := Str("osc_subscribe")])

  /** The counter after one close, and the decision, starting from `attempts`. */
  function CloseStep(v: Variant, attempts: int, maxRetries: int): (int, Decision) {
    if v == HubManagerLink then
      // check, then increment; the `else if (maxRetries !== -1)` test always holds here
      if maxRetries == -1 || attempts < maxRetries then (attempts + 1, Retry) else (attempts, GiveUp)
    else
      // increment, then check
      var a := attempts + 1;
      if maxRetries == -1 || a < maxRetries then (a, Retry) else (a, GiveUp)
  }

  /** The counter after `n` closes in a row, with no successful open in between. */
  function AttemptsAfter(v: Variant, attempts: int, maxRetries: int, n: nat): int {
    if n == 0 then attempts else CloseStep(v, AttemptsAfter(v, attempts, maxRetries, n - 1), maxRetries).0
  }

  /** What the close numbered `n + 1` in such a run decides. */
  function DecisionAt(v: Variant, attempts: int, maxRetries: int, n: nat): Decision {
    CloseStep(v, AttemptsAfter(v, attempts, maxRetries, n), maxRetries).1
  }

  /** The client copies count every close: after `n` closes the counter is `n`. */
  lemma {:induction false} ClientCountsEveryClose(v: Variant, maxRetries: int, n: nat)
    requires v != HubManagerLink
    ensures AttemptsAfter(v, 0, maxRetries, n) == n
  {
    if n > 0 {
      ClientCountsEveryClose(v, maxRetries, n - 1);
    }
  }

  /** The client copies retry after the first `maxRetries - 1` closes and give up on close
      number `maxRetries`: with `maxRetries` = 3, the third close in a row rejects. */
  lemma ClientGivesUpOnCloseNumberMax(v: Variant, maxRetries: int, n: nat)
    requires v != HubManagerLink && maxRetries != -1
    ensures DecisionAt(v, 0, maxRetries, n) == Retry <==> n + 1 < maxRetries
  {
    ClientCountsEveryClose(v, maxRetries, n);
  }

  /** The hub copy counts only the closes it retries: after `n` closes in a row the
      counter is `min(n, maxRetries)`. */
  lemma {:induction false} HubCountsRetriesOnly(maxRetries: nat, n: nat)
    ensures AttemptsAfter(HubManagerLink, 0, maxRetries, n) == if n < maxRetries then n else maxRetries
  {
    if n > 0 {
      HubCountsRetriesOnly(maxRetries, n - 1);
    }
  }

  /** The hub copy retries after each of the first `maxRetries` closes and gives up on the
      one after: one more reconnect than the client copies make. */
  lemma HubGivesUpAfterMaxRetries(maxRetries: nat, n: nat)
    ensures DecisionAt(HubManagerLink, 0, maxRetries, n) == Retry <==> n < maxRetries
  {
    HubCountsRetriesOnly(maxRetries, n);
  }

  /** With `maxRetries` = -1 no variant ever gives up, from any counter. */
  lemma UnboundedNeverGivesUp(v: Variant, attempts: int, n: nat)
    ensures DecisionAt(v, attempts, -1, n) == Retry
  {
  }

  /** The scenario of the defaults: with 3 retries the client copies reject on the third
      consecutive close and the hub copy on the fourth. */
  lemma DefaultRetriesExample()
    ensures DecisionAt(ClientRelayLink, 0, DefaultRetries, 1) == Retry
    ensures DecisionAt(ClientRelayLink, 0, DefaultRetries, 2) == GiveUp
    ensures DecisionAt(HubManagerLink, 0, DefaultRetries, 2) == Retry
    ensures DecisionAt(HubManagerLink, 0, DefaultRetries, 3) == GiveUp
  {
    ClientGivesUpOnCloseNumberMax(ClientRelayLink, DefaultRetries, 1);
    ClientGivesUpOnCloseNumberMax(ClientRelayLink, DefaultRetries, 2);
    HubGivesUpAfterMaxRetries(DefaultRetries, 2);
    HubGivesUpAfterMaxRetries(DefaultRetries, 3);
  }

  // ---------------------------------------------------------------- promises

  /** One call of `connect`: its promise, and the earlier call whose reconnect timer made
      this call and awaits it. */
  datatype Call = Call(outcome: Outcome, awaiter: Option<nat>)

  /** Every awaiter is an earlier call. */
  predicate ChainOk(calls: seq<Call>) {
    forall i | 0 <= i < |calls| :: calls[i].awaiter.Some? ==> calls[i].awaiter.value < i
  }

  /** Whether the catch in a reconnect timer passes a rejection on to its own promise. */
  predicate Propagates(v: Variant, attempts: int, maxRetries: int) {
    v != HubManagerLink || (attempts >= maxRetries && maxRetries != -1)
  }

  /** `reject(reason)` on call `c`, followed by the catch blocks of the timers awaiting it. */
  function RejectChain(calls: seq<Call>, c: nat, reason: string, propagate: bool): (r: seq<Call>)
    requires ChainOk(calls) && c < |calls|
    ensures |r| == |calls| && ChainOk(r)
    decreases c
  {
    if !calls[c].outcome.Pending? then calls
    else
      var r1 := calls[c := Call(Rejected(reason), calls[c].awaiter)];
      match calls[c].awaiter
      case Some(j) => if propagate then RejectChain(r1, j, reason, propagate) else r1
      case None => r1
  }

  /** A rejection settles call `c`, never changes a settled promise, and only ever turns a
      pending promise into one rejected with `reason`; awaiters stay as they were. */
  lemma {:induction false} RejectChainSettles(calls: seq<Call>, c: nat, reason: string, propagate: bool)
    requires ChainOk(calls) && c < |calls|
    ensures var r := RejectChain(calls, c, reason, propagate);
      !r[c].outcome.Pending?
      && (forall i | 0 <= i < |calls| :: r[i].awaiter == calls[i].awaiter)
      && (forall i | 0 <= i < |calls| && !calls[i].outcome.Pending? :: r[i] == calls[i])
      && (forall i | 0 <= i < |calls| && r[i] != calls[i] :: r[i].outcome == Rejected(reason))
      && (forall i | c < i < |calls| :: r[i] == calls[i])
    decreases c
  {
    if calls[c].outcome.Pending? {
      var r1 := calls[c := Call(Rejected(reason), calls[c].awaiter)];
      if calls[c].awaiter.Some? && propagate {
        RejectChainSettles(r1, calls[c].awaiter.value, reason, propagate);
      }
    }
  }

  /** A failed reconnect rejects the promise of the call that scheduled it, when that promise
      is still pending and the variant passes the rejection on. */
  lemma RejectReachesAwaiter(calls: seq<Call>, c: nat, reason: string, propagate: bool)
    requires ChainOk(calls) && c < |calls| && calls[c].outcome.Pending?
    requires calls[c].awaiter.Some? && calls[calls[c].awaiter.value].outcome.Pending?
    ensures var j := calls[c].awaiter.value;
      RejectChain(calls, c, reason, propagate)[j].outcome == if propagate then Rejected(reason) else Pending
  {
    var j := calls[c].awaiter.value;
    var r1 := calls[c := Call(Rejected(reason), calls[c].awaiter)];
    if propagate {
      RejectChainSettles(r1, j, reason, propagate);
    }
  }

  /** Without propagation only call `c` is touched. */
  lemma RejectWithoutPropagation(calls: seq<Call>, c: nat, reason: string)
    requires ChainOk(calls) && c < |calls|
    ensures forall i | 0 <= i < |calls| && i != c :: RejectChain(calls, c, reason, false)[i] == calls[i]
  {
  }

  // ---------------------------------------------------------------- the link

  /** A `ws` client socket and the connect call whose listeners it carries. */
  datatype Sock = Sock(state: ReadyState, call: nat)

  /** A pending `setTimeout` of the close handler: the call whose resolve/reject it holds. */
  datatype Timer = Timer(call: nat, delay: int)

  /** `ws.send(JSON.stringify(message))` on socket `sock`. */
  datatype Written = Written(sock: nat, message: Value)

  /** `handler(message)`. */
  datatype Handled = Handled(handler: HandlerId, message: Value)

  class RelayLink {
    const variant: Variant
    const maxRetries: int
    const retryDelay: int
    /** Whether `new WebSocket(url)` accepts the configured host and port. */
    const urlValid: bool

    var connectionAttempts: int
    /** `this.ws`: an index into `sockets`, or null. */
    var ws: Option<nat>
    var sockets: seq<Sock>
    var calls: seq<Call>
    var timers: seq<Timer>
    var handlers: seq<HandlerId>
    var written: seq<Written>
    var handled: seq<Handled>

    ghost predicate Valid()
      reads this
    {
      connectionAttempts >= 0
      && ChainOk(calls)
      && (forall i | 0 <= i < |sockets| :: sockets[i].call < |calls|)
      && (forall t | 0 <= t < |timers| :: timers[t].call < |calls|)
      && (ws.Some? ==> ws.value == |sockets| - 1)
      && (forall i | 0 <= i < |sockets| :: sockets[i].state in {Open, Connecting} ==> ws == Some(i))
      && Distinct(handlers)
    }

    /** `maxRetries` and `retryDelay` default to 3 and 5000 when the configuration leaves
        them null or undefined (`??` keeps every other value, 0 included). */
    constructor (v: Variant, retries: Option<int>, delay: Option<int>, urlOk: bool)
      ensures Valid()
      ensures variant == v && urlValid == urlOk
      ensures maxRetries == (if retries.Some? then retries.value else DefaultRetries)
      ensures retryDelay == (if delay.Some? then delay.value else DefaultRetryDelay)
      ensures connectionAttempts == 0 && ws == None
      ensures sockets == [] && calls == [] && timers == [] && handlers == [] && written == [] && handled == []
    {
      variant, urlValid := v, urlOk;
      maxRetries := if retries.Some? then retries.value else DefaultRetries;
      retryDelay := if delay.Some? then delay.value else DefaultRetryDelay;
      connectionAttempts, ws := 0, None;
      sockets, calls, timers, handlers, written, handled := [], [], [], [], [], [];
    }

    /** Whether `this.ws` is set and OPEN. */
    predicate IsOpen()
      reads this
    {
      ws.Some? && ws.value < |sockets| && sockets[ws.value].state == Open
    }

    /** Rejects call `c`; the catch blocks of the timers awaiting it pass the rejection on
        as far as the variant lets them. */
    method Reject(c: nat, reason: string)
      requires ChainOk(calls) && c < |calls|
      modifies this`calls
      ensures calls == RejectChain(old(calls), c, reason, Propagates(variant, connectionAttempts, maxRetries))
      decreases c
    {
      if calls[c].outcome.Pending? {
        var awaiter := calls[c].awaiter;
        calls := calls[c := Call(Rejected(reason), awaiter)];
        if awaiter.Some? && Propagates(variant, connectionAttempts, maxRetries) {
          Reject(awaiter.value, reason);
        }
      }
    }

    /** `connect()`: a stale OPEN or CONNECTING socket is closed and `ws` cleared before a
        new socket is made. Returns the index of the new call. */
    method Connect(awaiter: Option<nat>) returns (c: nat)
      requires Valid()
      requires awaiter.Some? ==> awaiter.value < |calls|
      modifies this`ws, this`sockets, this`calls
      ensures Valid()
      ensures c == |old(calls)| && |calls| == c + 1
      ensures |old(sockets)| <= |sockets|
      ensures old(ws).Some? && old(sockets)[old(ws).value].state in {Open, Connecting} ==>
        sockets[old(ws).value].state == Closing
      ensures urlValid ==>
        calls == old(calls) + [Call(Pending, awaiter)]
        && |sockets| == |old(sockets)| + 1 && ws == Some(|old(sockets)|)
        && sockets[|old(sockets)|] == Sock(Connecting, c)
      ensures !urlValid ==>
        calls == RejectChain(old(calls) + [Call(Pending, awaiter)], c, SetupFailure, Propagates(variant, connectionAttempts, maxRetries))
        && |sockets| == |old(sockets)| && ws == None
      ensures forall i | 0 <= i < |old(sockets)| ::
        sockets[i] == if Some(i) == old(ws) && old(sockets)[i].state in {Open, Connecting}
                      then Sock(Closing, old(sockets)[i].call) else old(sockets)[i]
    {
      if ws.Some? {
        var s := ws.value;
        if sockets[s].state in {Open, Connecting} {
          sockets := sockets[s := Sock(Closing, sockets[s].call)];
        }
        ws := None;
      }
      calls := calls + [Call(Pending, awaiter)];
      c := |calls| - 1;
      if urlValid {
        sockets := sockets + [Sock(Connecting, c)];
        ws := Some(|sockets| - 1);
      } else {
        Reject(c, SetupFailure);
      }
    }

    /** `handleClientMessage` / `send`: written only when OPEN, otherwise dropped. */
    method Send(message: Value)
      requires Valid()
      modifies this`written
      ensures written == old(written) + if IsOpen() then [Written(ws.value, message)] else []
    {
      if IsOpen() {
        written := written + [Written(ws.value, message)];
      }
    }

    /** `subscribeToOSC` of the two RelayManager copies. */
    method SubscribeToOSC()
      requires Valid() && variant != ClientSocketLink
      modifies this`written
      ensures written == old(written) + if IsOpen() then [Written(ws.value, Subscribe)] else []
    {
      Send(Subscribe);
    }

    /** The 'open' listener: the counter goes back to 0 and the call's promise resolves;
        a call made by a reconnect timer then resubscribes (RelayManager copies only). */
    method OnOpen(s: nat)
      requires Valid() && s < |sockets| && sockets[s].state == Connecting
      modifies this`sockets, this`connectionAttempts, this`calls, this`written
      ensures Valid()
      ensures sockets == old(sockets)[s := Sock(Open, old(sockets)[s].call)]
      ensures connectionAttempts == 0
      ensures var c := old(sockets)[s].call;
        calls == old(calls)[c := if old(calls)[c].outcome.Pending? then Call(Resolved, old(calls)[c].awaiter) else old(calls)[c]]
      ensures var c := old(sockets)[s].call;
        written == old(written) +
          if old(calls)[c].outcome.Pending? && old(calls)[c].awaiter.Some? && variant != ClientSocketLink
          then [Written(s, Subscribe)] else []
    {
      var c := sockets[s].call;
      sockets := sockets[s := Sock(Open, c)];
      connectionAttempts := 0;
      if calls[c].outcome.Pending? {
        calls := calls[c := Call(Resolved, calls[c].awaiter)];
        if calls[c].awaiter.Some? && variant != ClientSocketLink {
          SubscribeToOSC();
        }
      }
    }

    /** The 'close' listener of socket `s`: one step of the counter, then either a
        reconnect timer or the rejection of `s`'s call. `ws` is left pointing at the
        closed socket. */
    method OnClose(s: nat)
      requires Valid() && s < |sockets| && sockets[s].state != Closed
      modifies this`sockets, this`connectionAttempts, this`timers, this`calls
      ensures Valid()
      ensures sockets == old(sockets)[s := Sock(Closed, old(sockets)[s].call)]
      ensures connectionAttempts == CloseStep(variant, old(connectionAttempts), maxRetries).0
      ensures CloseStep(variant, old(connectionAttempts), maxRetries).1 == Retry ==>
        timers == old(timers) + [Timer(old(sockets)[s].call, retryDelay)] && calls == old(calls)
      ensures CloseStep(variant, old(connectionAttempts), maxRetries).1 == GiveUp ==>
        timers == old(timers)
        && calls == RejectChain(old(calls), old(sockets)[s].call, MaxReached, Propagates(variant, connectionAttempts, maxRetries))
    {
      var c := sockets[s].call;
      sockets := sockets[s := Sock(Closed, c)];
      var step := CloseStep(variant, connectionAttempts, maxRetries);
      connectionAttempts := step.0;
      if step.1 == Retry {
        timers := timers + [Timer(c, retryDelay)];
      } else {
        Reject(c, MaxReached);
      }
    }

    /** A reconnect timer fires: it calls `connect` on behalf of the call that armed it. */
    method FireTimer(t: nat) returns (c: nat)
      requires Valid() && t < |timers|
      modifies this`timers, this`ws, this`sockets, this`calls
      ensures Valid()
      ensures timers == old(timers[..t] + timers[t + 1..])
      ensures c == |old(calls)| && |calls| == c + 1 && calls[c].awaiter == Some(old(timers)[t].call)
      ensures urlValid ==> calls == old(calls) + [Call(Pending, Some(old(timers)[t].call))]
    {
      var armed := timers[t].call;
      timers := timers[..t] + timers[t + 1..];
      c := Connect(Some(armed));
      if !urlValid {
        RejectChainSettles(old(calls) + [Call(Pending, Some(armed))], c, SetupFailure, Propagates(variant, connectionAttempts, maxRetries));
      }
    }

    /** `onMessage(handler)`: a Set, so a second add changes nothing. The link half of
        managers/RelayManager.js has no such method. */
    method OnMessage(h: HandlerId)
      requires Valid() && variant != HubManagerLink
      modifies this`handlers
      ensures Valid()
      ensures handlers == AddOnce(old(handlers), h)
      ensures h in old(handlers) ==> handlers == old(handlers)
    {
      handlers := AddOnce(handlers, h);
    }

    /** Whether the message listener hands a parsed frame to the handlers. */
    predicate Dispatched(frame: Frame) {
      match variant
      case HubManagerLink => false
      case ClientRelayLink =>
        // the log line `${message.type}` throws on null and on text it cannot convert
        frame.Json? && Get(frame.value, "type").Some? && Stringable(Get(frame.value, "type").value)
      case ClientSocketLink => frame.Json?
    }

    /** A frame arriving on a socket: the handlers are called until one throws. */
    method OnFrame(frame: Frame, throwing: set<HandlerId>)
      requires Valid()
      modifies this`handled
      ensures !Dispatched(frame) ==> handled == old(handled)
      ensures Dispatched(frame) ==>
        handled == old(handled) + HandledBy(Handlers.CalledUntilThrow(handlers, throwing), frame.value)
    {
      if Dispatched(frame) {
        var called, _ := Handlers.Dispatch(handlers, throwing);
        handled := handled + HandledBy(called, frame.value);
      }
    }
  }

  function HandledBy(hs: seq<HandlerId>, message: Value): seq<Handled> {
    seq(|hs|, i requires 0 <= i < |hs| => Handled(hs[i], message))
  }

  /** A user `connect()` while the link is up: the open socket is closed and replaced; its
      close event then arms a reconnect timer while the new socket is live, and a failure of
      the new socket arms a second one. Two reconnect timers are pending at once. */
  method TwoPendingReconnects() returns (link: RelayLink)
    ensures fresh(link) && link.Valid()
    ensures |link.timers| == 2 && link.IsOpen() == false
  {
    link := new RelayLink(ClientRelayLink, None, None, true);
    var first := link.Connect(None);
    link.OnOpen(0);
    var second := link.Connect(None);
    assert link.sockets[0].state == Closing;
    link.OnClose(0);
    assert link.sockets[1].state == Connecting;
    link.OnClose(1);
  }
}
