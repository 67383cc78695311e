/**
  `OSCRelay` in server.js: the minimal relay. Every parsed message, whatever its type,
  goes to every other open peer; there is no try around each send, so the first send
  that throws ends the broadcast and the exception is caught by the message listener.
*/
module RelayServer {
  import opened Js
  import opened Hub

  /** The port the relay listens on. */
  const WsPort: nat := 4953

  class OSCRelay {
    var order: seq<ConnId>
    var clients: map<ConnId, SockRef>
    var sent: seq<Delivery>

    ghost predicate Valid()
      reads this
    {
      Registry(order, clients)
    }

    constructor ()
      ensures Valid()
      ensures order == [] && clients == map[] && sent == []
    {
      order, clients, sent := [], map[], [];
    }

    method OnConnection(address: string, port: nat, ws: SockRef)
      requires Valid()
      modifies this`order, this`clients
      ensures Valid()
      ensures clients == old(clients)[ConnKey(address, port) := ws]
      ensures order == AddOnce(old(order), ConnKey(address, port))
    {
      var id := ConnKey(address, port);
      RegistrySet(order, clients, id, ws);
      order, clients := AddOnce(order, id), clients[id := ws];
    }

    method OnClose(id: ConnId)
      requires Valid()
      modifies this`order, this`clients
      ensures Valid()
      ensures clients == old(clients) - {id} && order == Remove(old(order), id)
    {
      RegistryDelete(order, clients, id);
      order, clients := Remove(order, id), clients - {id};
    }

    /** `broadcastToClients`: `threw` says a send threw and ended the walk. */
    method BroadcastToClients(message: Value, sender: ConnId, net: Net) returns (threw: bool)
      requires Valid()
      modifies this`sent
      ensures sent == old(sent) + Deliveries(Unguarded(order, clients, net, Some(sender)).0, message)
      ensures threw == Unguarded(order, clients, net, Some(sender)).1
    {
      var delivered;
      delivered, threw := DeliverUntilThrow(order, clients, net, Some(sender));
      sent := sent + Deliveries(delivered, message);
    }

    /** The 'message' listener: no type is filtered out, identify included. */
    method OnFrame(id: ConnId, frame: Frame, net: Net)
      requires Valid()
      modifies this`sent
      ensures frame.Malformed? ==> sent == old(sent)
      ensures frame.Json? ==> sent == old(sent) + Deliveries(Unguarded(order, clients, net, Some(id)).0, frame.value)
    {
      if frame.Json? {
        var _ := BroadcastToClients(frame.value, id, net);
      }
    }
  }
}
