/**
  What the four relay hubs (managers/RelayManager.js, server/managers/RelayManager.js,
  managers/WebSocketManager.js, server.js) have in common: connections registered in a
  JavaScript Map under the key `${remoteAddress}:${remotePort}`, a `broadcast` that walks
  the Map in insertion order, skips the sender and every socket that is not OPEN, and the
  log lines that run before a message is handled and may throw.

  The `ws` sockets are foreign: a socket is a reference, and what it does when written
  to at a given moment (its readyState, whether `send` throws) is a parameter `net`.
*/
module Hub {
  import opened Js

  /** A connection id, `addr:port`. */
  type ConnId = string

  /** A server-side `ws` socket, by identity. */
  type SockRef = nat

  /** What a socket is doing when the broadcast reaches it. */
  datatype Peer = Peer(state: ReadyState, sendThrows: bool)

  type Net = SockRef -> Peer

  /** `ws.send(JSON.stringify(message))` that returned normally. */
  datatype Delivery = Delivery(to: ConnId, message: Value)

  /** `handler(clientId, message)`. */
  datatype Invocation = Invocation(handler: HandlerId, from: ConnId, message: Value)

  function Deliveries(ids: seq<ConnId>, message: Value): seq<Delivery> {
    seq(|ids|, i requires 0 <= i < |ids| => Delivery(ids[i], message))
  }

  function Invocations(hs: seq<HandlerId>, from: ConnId, message: Value): seq<Invocation> {
    seq(|hs|, i requires 0 <= i < |hs| => Invocation(hs[i], from, message))
  }

  // ---------------------------------------------------------------- connection ids

  predicate IsDigit(c: char) { '0' <= c <= '9' }

  predicate Digits(s: string) { forall i | 0 <= i < |s| :: IsDigit(s[i]) }

  function DigitChar(d: nat): (c: char)
    requires d < 10
    ensures IsDigit(c) && c as int - '0' as int == d
  {
    ('0' as int + d) as char
  }

  /** A port number as JavaScript's template literal writes it. */
  function Decimal(n: nat): (s: string)
    ensures |s| > 0 && Digits(s)
  {
    if n < 10 then [DigitChar(n)] else Decimal(n / 10) + [DigitChar(n % 10)]
  }

  function DecimalValue(s: string): nat
    requires Digits(s)
  {
    if s == [] then 0 else DecimalValue(s[..|s| - 1]) * 10 + (s[|s| - 1] as int - '0' as int)
  }

  lemma {:induction false} DecimalRoundTrip(n: nat)
    ensures DecimalValue(Decimal(n)) == n
  {
    if n >= 10 {
      DecimalRoundTrip(n / 10);
      var s := Decimal(n);
      assert s[..|s| - 1] == Decimal(n / 10);
    }
  }

  /** `${req.socket.remoteAddress}:${req.socket.remotePort}` */
  function ConnKey(address: string, port: nat): ConnId {
    address + ":" + Decimal(port)
  }

  /** The colon before the port is the last colon of a connection id. */
  lemma ColonSplit(a1: string, d1: string, a2: string, d2: string)
    requires Digits(d1) && Digits(d2)
    requires a1 + ":" + d1 == a2 + ":" + d2
    ensures a1 == a2 && d1 == d2
  {
    var s := a1 + ":" + d1;
    assert s[|a1|] == ':' && s[|a2|] == ':';
    assert forall i | |a1| < i < |s| :: s[i] == d1[i - |a1| - 1];
    assert forall i | |a2| < i < |s| :: s[i] == d2[i - |a2| - 1];
    assert |a1| == |a2|;
    assert a1 == s[..|a1|] == a2;
    assert d1 == s[|a1| + 1..] == d2;
  }

  /** Two connections share a registry key only if they come from the same address and
      port, even when the address is an IPv6 text holding colons of its own. */
  lemma ConnKeyInjective(a1: string, p1: nat, a2: string, p2: nat)
    requires ConnKey(a1, p1) == ConnKey(a2, p2)
    ensures a1 == a2 && p1 == p2
  {
    ColonSplit(a1, Decimal(p1), a2, Decimal(p2));
    DecimalRoundTrip(p1);
    DecimalRoundTrip(p2);
  }

  // ---------------------------------------------------------------- the Map

  /** A JavaScript Map: its keys in insertion order, and its entries. */
  predicate Registry<V>(order: seq<ConnId>, m: map<ConnId, V>) {
    Distinct(order) && (forall k | k in order :: k in m) && (forall k | k in m :: k in order)
  }

  /** The key order after `map.delete(k)`. */
  function Remove(order: seq<ConnId>, k: ConnId): (r: seq<ConnId>)
    ensures forall x :: x in r <==> x in order && x != k
  {
    if order == [] then []
    else
      assert order == [order[0]] + order[1..];
      (if order[0] == k then [] else [order[0]]) + Remove(order[1..], k)
  }

  lemma {:induction false} RemoveDistinct(order: seq<ConnId>, k: ConnId)
    requires Distinct(order)
    ensures Distinct(Remove(order, k))
  {
    if order != [] {
      var rest := Remove(order[1..], k);
      RemoveDistinct(order[1..], k);
      if order[0] != k {
        assert order[0] !in order[1..];
        assert order[0] !in rest;
        var r := [order[0]] + rest;
        assert forall j | 0 < j < |r| :: r[j] == rest[j - 1];
      }
    }
  }

  /** `map.set(k, v)` keeps a Map a Map: a new key goes last, an existing key keeps its place. */
  lemma RegistrySet<V>(order: seq<ConnId>, m: map<ConnId, V>, k: ConnId, v: V)
    requires Registry(order, m)
    ensures Registry(AddOnce(order, k), m[k := v])
    ensures k in order ==> AddOnce(order, k) == order
  {
    assert AddOnce(order, k) == order || AddOnce(order, k) == order + [k];
  }

  /** `map.delete(k)` keeps a Map a Map, and drops only `k`. */
  lemma RegistryDelete<V>(order: seq<ConnId>, m: map<ConnId, V>, k: ConnId)
    requires Registry(order, m)
    ensures Registry(Remove(order, k), m - {k})
    ensures forall x | x in m && x != k :: x in m - {k} && (m - {k})[x] == m[x]
  {
    RemoveDistinct(order, k);
  }

  // ---------------------------------------------------------------- broadcast

  /** Whether `broadcast(message, exclude)` tries to write to the socket registered as `id`. */
  predicate Eligible(id: ConnId, clients: map<ConnId, SockRef>, net: Net, exclude: Option<ConnId>) {
    Some(id) != exclude && id in clients && net(clients[id]).state == Open
  }

  predicate Throws(id: ConnId, clients: map<ConnId, SockRef>, net: Net) {
    id in clients && net(clients[id]).sendThrows
  }

  /** The peers that receive the message when every send has its own try/catch. */
  function Delivered(order: seq<ConnId>, clients: map<ConnId, SockRef>, net: Net, exclude: Option<ConnId>): seq<ConnId> {
    if order == [] then []
    else
      var before := Delivered(order[..|order| - 1], clients, net, exclude);
      var last := order[|order| - 1];
      if Eligible(last, clients, net, exclude) && !Throws(last, clients, net) then before + [last] else before
  }

  /** The peers that receive it, in Map order: exactly the OPEN, non-excluded peers
      whose send does not throw. The sender is never among them. */
  lemma {:induction false} DeliveredMembers(order: seq<ConnId>, clients: map<ConnId, SockRef>, net: Net, exclude: Option<ConnId>)
    requires Distinct(order)
    ensures forall id :: id in Delivered(order, clients, net, exclude) <==>
      id in order && Eligible(id, clients, net, exclude) && !Throws(id, clients, net)
    ensures Distinct(Delivered(order, clients, net, exclude))
  {
    if order != [] {
      var init := order[..|order| - 1];
      var last := order[|order| - 1];
      assert order == init + [last];
      assert Distinct(init);
      DeliveredMembers(init, clients, net, exclude);
      assert last !in init;
    }
  }

  /** One peer whose send throws loses only its own copy. */
  lemma ThrowingPeerLosesOnlyItsCopy(order: seq<ConnId>, clients: map<ConnId, SockRef>, net: Net, net': Net, exclude: Option<ConnId>, bad: ConnId)
    requires Registry(order, clients) && bad in clients
    requires forall id | id in clients && id != bad :: net'(clients[id]) == net(clients[id])
    requires net'(clients[bad]) == Peer(net(clients[bad]).state, true)
    requires forall id | id in clients && id != bad :: clients[id] != clients[bad]
    ensures forall id :: id in Delivered(order, clients, net', exclude) <==>
      id in Delivered(order, clients, net, exclude) && id != bad
  {
    DeliveredMembers(order, clients, net, exclude);
    DeliveredMembers(order, clients, net', exclude);
  }

  /** The `forEach` with a try/catch around each send (both RelayManager copies and
      managers/WebSocketManager.js). */
  method DeliverEach(order: seq<ConnId>, clients: map<ConnId, SockRef>, net: Net, exclude: Option<ConnId>)
    returns (delivered: seq<ConnId>)
    requires Registry(order, clients)
    ensures delivered == Delivered(order, clients, net, exclude)
    ensures forall id :: id in delivered <==> id in clients && Eligible(id, clients, net, exclude) && !Throws(id, clients, net)
  {
    delivered := [];
    var i := 0;
    while i < |order|
      invariant 0 <= i <= |order|
      invariant delivered == Delivered(order[..i], clients, net, exclude)
    {
      var id := order[i];
      assert order[..i + 1][..i] == order[..i];
      if Eligible(id, clients, net, exclude) && !net(clients[id]).sendThrows {
        delivered := delivered + [id];
      }
      i := i + 1;
    }
    assert order[..i] == order;
    DeliveredMembers(order, clients, net, exclude);
  }

  /** The `forEach` of server.js, with no try inside: the first send that throws ends the
      walk. The result is what was delivered and whether an exception escaped. */
  function Unguarded(order: seq<ConnId>, clients: map<ConnId, SockRef>, net: Net, exclude: Option<ConnId>): (seq<ConnId>, bool) {
    if order == [] then ([], false)
    else
      var before := Unguarded(order[..|order| - 1], clients, net, exclude);
      var last := order[|order| - 1];
      if before.1 || !Eligible(last, clients, net, exclude) then before
      else if Throws(last, clients, net) then (before.0, true)
      else (before.0 + [last], false)
  }

  /** While no eligible peer throws, the unguarded walk delivers what the guarded one does. */
  lemma {:induction false} UnguardedWithoutThrow(order: seq<ConnId>, clients: map<ConnId, SockRef>, net: Net, exclude: Option<ConnId>)
    requires forall id | id in order :: Eligible(id, clients, net, exclude) ==> !Throws(id, clients, net)
    ensures Unguarded(order, clients, net, exclude) == (Delivered(order, clients, net, exclude), false)
  {
    if order != [] {
      var init, last := order[..|order| - 1], order[|order| - 1];
      assert order == init + [last];
      assert last in order;
      assert forall id | id in init :: id in order;
      UnguardedWithoutThrow(init, clients, net, exclude);
    }
  }

  /** When a send throws, the walk stops there: the peers delivered to are the ones before
      the first eligible peer that throws, and none after it. */
  lemma {:induction false} UnguardedStopsAtFirstThrow(order: seq<ConnId>, clients: map<ConnId, SockRef>, net: Net, exclude: Option<ConnId>, k: nat)
    requires k < |order| && Eligible(order[k], clients, net, exclude) && Throws(order[k], clients, net)
    requires forall i | 0 <= i < k :: Eligible(order[i], clients, net, exclude) ==> !Throws(order[i], clients, net)
    ensures Unguarded(order, clients, net, exclude) == (Delivered(order[..k], clients, net, exclude), true)
  {
    if k == |order| - 1 {
      assert order[..k] == order[..|order| - 1];
      UnguardedWithoutThrow(order[..k], clients, net, exclude);
    } else {
      assert order[..|order| - 1][..k] == order[..k];
      UnguardedStopsAtFirstThrow(order[..|order| - 1], clients, net, exclude, k);
    }
  }

  /** The walk itself. */
  method DeliverUntilThrow(order: seq<ConnId>, clients: map<ConnId, SockRef>, net: Net, exclude: Option<ConnId>)
    returns (delivered: seq<ConnId>, threw: bool)
    requires Registry(order, clients)
    ensures (delivered, threw) == Unguarded(order, clients, net, exclude)
    ensures !threw ==> delivered == Delivered(order, clients, net, exclude)
  {
    delivered, threw := [], false;
    var i := 0;
    while i < |order| && !threw
      invariant 0 <= i <= |order|
      invariant delivered == Delivered(order[..i], clients, net, exclude)
      invariant !threw ==> forall j | 0 <= j < i :: Eligible(order[j], clients, net, exclude) ==> !Throws(order[j], clients, net)
      invariant threw ==> 0 < i && Eligible(order[i - 1], clients, net, exclude) && Throws(order[i - 1], clients, net)
      invariant threw ==> forall j | 0 <= j < i - 1 :: Eligible(order[j], clients, net, exclude) ==> !Throws(order[j], clients, net)
    {
      var id := order[i];
      assert order[..i + 1][..i] == order[..i];
      if Eligible(id, clients, net, exclude) {
        if net(clients[id]).sendThrows {
          threw := true;
        } else {
          delivered := delivered + [id];
        }
      }
      i := i + 1;
    }
    if threw {
      UnguardedStopsAtFirstThrow(order, clients, net, exclude, i - 1);
      assert order[..i][..i - 1] == order[..i - 1];
    } else {
      assert order[..i] == order;
      UnguardedWithoutThrow(order, clients, net, exclude);
    }
  }

  // ---------------------------------------------------------------- log lines

  /** Whether the relay's log line for a parsed message runs without throwing: reading
      `message.type` throws on null; an identify line turns `userId` into text; a tunnel
      line turns `address` into text and calls `args.join`. */
  predicate RelayLogOk(message: Value) {
    match Get(message, "type")
    case None => false
    case Some(t) =>
      if t == Str("identify") then Stringable(Read(message, "userId"))
      else if t == Str("osc_tunnel") then Stringable(Read(message, "address")) && JoinOk(Read(message, "args"))
      else true
  }

  /** A tunnel message whose `args` is not an array never gets past the log line. */
  lemma TunnelWithoutArrayArgsIsDropped(message: Value)
    requires TypeIs(message, "osc_tunnel") && !Read(message, "args").Arr?
    ensures !RelayLogOk(message)
  {
  }

  /** Messages of any other type pass the log line, whatever they hold. */
  lemma OtherTypesPassTheLogLine(message: Value)
    requires message.Obj? && !TypeIs(message, "identify") && !TypeIs(message, "osc_tunnel")
    ensures RelayLogOk(message)
  {
  }
}
