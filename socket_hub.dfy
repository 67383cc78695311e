/**
  `WebSocketManager` in managers/WebSocketManager.js: a hub that keeps, beside the Map
  of sockets, a second Map of per-connection records (who the peer said it is, how many
  messages it sent). Both Maps are set and deleted together, so they share one key order.
*/
module SocketHub {
  import opened Js
  import opened Hub
  import Handlers

  /** The `clientInfo` record; `connectedAt` is a clock reading and is not modelled. */
  datatype ClientInfo = ClientInfo(id: ConnId, ip: string, port: nat, userId: Value, messageCount: nat)

  /** The record after one parsed message: counted, and renamed when it is an identify. */
  function Account(info: ClientInfo, message: Value): (r: ClientInfo)
    ensures r.messageCount == info.messageCount + 1
    ensures r.id == info.id && r.ip == info.ip && r.port == info.port
    ensures r.userId == if TypeIs(message, "identify") then Read(message, "userId") else info.userId
  {
    info.(messageCount := info.messageCount + 1,
          userId := if TypeIs(message, "identify") then Read(message, "userId") else info.userId)
  }

  /** Whether the log line that follows the count runs without throwing. */
  predicate SocketLogOk(info: ClientInfo, message: Value) {
    match Get(message, "type")
    case None => false
    case Some(t) =>
      if t == Str("identify") then Stringable(Read(message, "userId"))
      else if t == Str("osc_tunnel") then
        (!Truthy(info.userId) || Stringable(info.userId))
        && Stringable(Read(message, "address")) && JoinOk(Read(message, "args"))
      else true
  }

  /** Whether the disconnect log line, which names the peer by `userId || clientId`, throws. */
  predicate ByeThrows(info: ClientInfo) {
    Truthy(info.userId) && !Stringable(info.userId)
  }

  /** An identify counts as a message like any other and overwrites the earlier name. */
  lemma IdentifyIsCountedAndOverwrites(info: ClientInfo, name: string)
    ensures Account(info, Obj(map["type" := Str("identify"), "userId" := Str(name)])).messageCount == info.messageCount + 1
    ensures Account(info, Obj(map["type" := Str("identify"), "userId" := Str(name)])).userId == Str(name)
  {
  }

  class WebSocketManager {
    var order: seq<ConnId>
    var clients: map<ConnId, SockRef>
    var info: map<ConnId, ClientInfo>
    var handlers: seq<HandlerId>
    var invoked: seq<Invocation>
    var sent: seq<Delivery>

    ghost predicate Valid()
      reads this
    {
      Registry(order, clients) && info.Keys == clients.Keys && Distinct(handlers)
      && forall k | k in info :: info[k].id == k
    }

    constructor ()
      ensures Valid()
      ensures order == [] && clients == map[] && info == map[] && handlers == [] && invoked == [] && sent == []
    {
      order, clients, info, handlers, invoked, sent := [], map[], map[], [], [], [];
    }

    /** Registers the socket and a fresh record: no name yet, no messages. */
    method HandleConnection(address: string, port: nat, ws: SockRef)
      requires Valid()
      modifies this`order, this`clients, this`info
      ensures Valid()
      ensures clients == old(clients)[ConnKey(address, port) := ws]
      ensures info == old(info)[ConnKey(address, port) := ClientInfo(ConnKey(address, port), address, port, Null, 0)]
      ensures order == AddOnce(old(order), ConnKey(address, port))
    {
      var id := ConnKey(address, port);
      RegistrySet(order, clients, id, ws);
      order, clients := AddOnce(order, id), clients[id := ws];
      info := info[id := ClientInfo(id, address, port, Null, 0)];
    }

    /** Parses a frame and counts it before anything else can throw; a parse failure or a
        connection without a record changes nothing. The handlers run only when the log
        line does not throw. */
    method HandleMessage(id: ConnId, frame: Frame, throwing: set<HandlerId>)
      requires Valid()
      modifies this`info, this`invoked
      ensures Valid()
      ensures frame.Malformed? || id !in old(info) ==> info == old(info) && invoked == old(invoked)
      ensures frame.Json? && id in old(info) ==> info == old(info)[id := Account(old(info)[id], frame.value)]
      ensures frame.Json? && id in old(info) ==>
        invoked == old(invoked) +
          if SocketLogOk(old(info)[id], frame.value)
          then Invocations(Handlers.CalledUntilThrow(handlers, throwing), id, frame.value) else []
    {
      if frame.Malformed? || id !in info {
        return;
      }
      var message := frame.value;
      var record := info[id];
      info := info[id := Account(record, message)];
      if SocketLogOk(record, message) {
        var called, _ := Handlers.Dispatch(handlers, throwing);
        invoked := invoked + Invocations(called, id, message);
      }
    }

    /** Removes the connection from both Maps, unless the goodbye log line throws first. */
    method HandleDisconnect(id: ConnId) returns (threw: bool)
      requires Valid()
      modifies this`order, this`clients, this`info
      ensures Valid()
      ensures threw <==> id in old(info) && ByeThrows(old(info)[id])
      ensures threw ==> order == old(order) && clients == old(clients) && info == old(info)
      ensures !threw ==> clients == old(clients) - {id} && info == old(info) - {id} && order == Remove(old(order), id)
    {
      threw := id in info && ByeThrows(info[id]);
      if !threw {
        RegistryDelete(order, clients, id);
        order, clients, info := Remove(order, id), clients - {id}, info - {id};
      }
    }

    method Broadcast(message: Value, exclude: Option<ConnId>, net: Net)
      requires Valid()
      modifies this`sent
      ensures sent == old(sent) + Deliveries(Delivered(order, clients, net, exclude), message)
    {
      var delivered := DeliverEach(order, clients, net, exclude);
      sent := sent + Deliveries(delivered, message);
    }

    method OnMessage(h: HandlerId)
      requires Valid()
      modifies this`handlers
      ensures Valid()
      ensures handlers == AddOnce(old(handlers), h)
      ensures h in old(handlers) ==> handlers == old(handlers)
    {
      handlers := AddOnce(handlers, h);
    }

    /** `Array.from(clientInfo.values())`: one record per registered connection, in
        connection order. */
    method GetConnectedClients() returns (r: seq<ClientInfo>)
      requires Valid()
      ensures |r| == |order|
      ensures forall i | 0 <= i < |r| :: order[i] in info && r[i] == info[order[i]]
      ensures forall k :: k in info <==> exists i | 0 <= i < |r| :: r[i].id == k
    {
      r := [];
      var i := 0;
      while i < |order|
        invariant 0 <= i <= |order|
        invariant |r| == i
        invariant forall j | 0 <= j < i :: order[j] in info && r[j] == info[order[j]]
      {
        r := r + [info[order[i]]];
        i := i + 1;
      }
      forall k | k in info ensures exists j | 0 <= j < |r| :: r[j].id == k {
        var j :| 0 <= j < |order| && order[j] == k;
        assert r[j].id == k;
      }
    }
  }
}
