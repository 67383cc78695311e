/**
  `RelayManager` in server/managers/RelayManager.js: the stand-alone relay server.
  It registers connections, hands every parsed message to the handlers and forwards
  tunnel messages, and only those, to every other open peer.
*/
module ServerRelay {
  import opened Js
  import opened Hub
  import Handlers

  class RelayManager {
    var order: seq<ConnId>
    var clients: map<ConnId, SockRef>
    var handlers: seq<HandlerId>
    var invoked: seq<Invocation>
    var sent: seq<Delivery>

    ghost predicate Valid()
      reads this
    {
      Registry(order, clients) && Distinct(handlers)
    }

    constructor ()
      ensures Valid()
      ensures order == [] && clients == map[] && handlers == [] && invoked == [] && sent == []
    {
      order, clients, handlers, invoked, sent := [], map[], [], [], [];
    }

    method HandleConnection(address: string, port: nat, ws: SockRef)
      requires Valid()
      modifies this`order, this`clients
      ensures Valid()
      ensures clients == old(clients)[ConnKey(address, port) := ws]
      ensures order == AddOnce(old(order), ConnKey(address, port))
    {
      var id := ConnKey(address, port);
      RegistrySet(order, clients, id, ws);
      order, clients := AddOnce(order, id), clients[id := ws];
    }

    method HandleDisconnect(id: ConnId)
      requires Valid()
      modifies this`order, this`clients
      ensures Valid()
      ensures clients == old(clients) - {id} && order == Remove(old(order), id)
    {
      RegistryDelete(order, clients, id);
      order, clients := Remove(order, id), clients - {id};
    }

    /** `messageHandlers.add(handler)`: adding a handler twice changes nothing. */
    method OnMessage(h: HandlerId)
      requires Valid()
      modifies this`handlers
      ensures Valid()
      ensures handlers == AddOnce(old(handlers), h)
      ensures h in old(handlers) ==> handlers == old(handlers)
    {
      handlers := AddOnce(handlers, h);
    }

    /** Calls the handlers in insertion order until one throws. */
    method HandleMessage(id: ConnId, message: Value, throwing: set<HandlerId>) returns (threw: bool)
      requires Valid()
      modifies this`invoked
      ensures invoked == old(invoked) + Invocations(Handlers.CalledUntilThrow(handlers, throwing), id, message)
      ensures threw <==> Handlers.AnyThrows(handlers, throwing)
    {
      var called;
      called, threw := Handlers.Dispatch(handlers, throwing);
      invoked := invoked + Invocations(called, id, message);
    }

    method Broadcast(message: Value, exclude: Option<ConnId>, net: Net)
      requires Valid()
      modifies this`sent
      ensures sent == old(sent) + Deliveries(Delivered(order, clients, net, exclude), message)
    {
      var delivered := DeliverEach(order, clients, net, exclude);
      sent := sent + Deliveries(delivered, message);
    }

    /** `handleIncomingMessage`: parse, log, run the handlers, then forward a tunnel
        message to the other open peers. Anything that throws on the way ends the
        method and is caught. */
    method HandleIncomingMessage(id: ConnId, frame: Frame, net: Net, throwing: set<HandlerId>)
      requires Valid()
      modifies this`invoked, this`sent
      ensures frame.Malformed? || !RelayLogOk(frame.value) ==> invoked == old(invoked) && sent == old(sent)
      ensures frame.Json? && RelayLogOk(frame.value) ==>
        invoked == old(invoked) + Invocations(Handlers.CalledUntilThrow(handlers, throwing), id, frame.value)
      ensures frame.Json? && RelayLogOk(frame.value) ==>
        sent == old(sent) +
          if !Handlers.AnyThrows(handlers, throwing) && TypeIs(frame.value, "osc_tunnel")
          then Deliveries(Delivered(order, clients, net, Some(id)), frame.value) else []
    {
      if frame.Malformed? || !RelayLogOk(frame.value) {
        return;
      }
      var message := frame.value;
      var threw := HandleMessage(id, message, throwing);
      if !threw && TypeIs(message, "osc_tunnel") {
        Broadcast(message, Some(id), net);
      }
    }
  }
}
