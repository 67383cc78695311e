/**
  The hub half of `RelayManager` in managers/RelayManager.js: the server side that
  registers incoming connections, calls the message handlers and forwards tunnel
  traffic to every other open peer. (The other half of that class, the outgoing link,
  is `Link.RelayLink` with variant `HubManagerLink`; the two halves share no state.)

  The class has no `onMessage`: `messageHandlers` is a public Set that code outside the
  class fills, so here it is a public field the methods read.
*/
module RelayHub {
  import opened Js
  import opened Hub
  import Handlers

  class RelayManager {
    /** `clients`: the Map from connection id to socket, keys in insertion order. */
    var order: seq<ConnId>
    var clients: map<ConnId, SockRef>
    /** `messageHandlers`, in insertion order. */
    var handlers: seq<HandlerId>
    /** Every handler call made so far. */
    var invoked: seq<Invocation>
    /** Every send that returned normally so far. */
    var sent: seq<Delivery>

    ghost predicate Valid()
      reads this
    {
      Registry(order, clients) && Distinct(handlers)
    }

    constructor ()
      ensures Valid()
      ensures order == [] && clients == map[] && handlers == [] && invoked == [] && sent == []
    {
      order, clients, handlers, invoked, sent := [], map[], [], [], [];
    }

    /** A new connection is registered under `addr:port`; an id already present keeps
        its place in the Map and gets the new socket. */
    method HandleConnection(address: string, port: nat, ws: SockRef)
      requires Valid()
      modifies this`order, this`clients
      ensures Valid()
      ensures clients == old(clients)[ConnKey(address, port) := ws]
      ensures order == AddOnce(old(order), ConnKey(address, port))
    {
      var id := ConnKey(address, port);
      RegistrySet(order, clients, id, ws);
      order, clients := AddOnce(order, id), clients[id := ws];
    }

    /** `clients.delete(clientId)`: only that entry goes. */
    method HandleDisconnect(id: ConnId)
      requires Valid()
      modifies this`order, this`clients
      ensures Valid()
      ensures clients == old(clients) - {id} && order == Remove(old(order), id)
    {
      RegistryDelete(order, clients, id);
      order, clients := Remove(order, id), clients - {id};
    }

    /** Sends to every registered peer but `exclude` whose socket is OPEN; a peer whose
        send throws is skipped and the walk goes on. */
    method Broadcast(message: Value, exclude: Option<ConnId>, net: Net)
      requires Valid()
      modifies this`sent
      ensures sent == old(sent) + Deliveries(Delivered(order, clients, net, exclude), message)
    {
      var delivered := DeliverEach(order, clients, net, exclude);
      sent := sent + Deliveries(delivered, message);
    }

    /** Calls every handler (until one throws), then forwards tunnel messages to the
        other peers. `threw` says an exception left the method: a handler threw, or
        `message.type` could not be read. */
    method HandleMessage(id: ConnId, message: Value, net: Net, throwing: set<HandlerId>) returns (threw: bool)
      requires Valid()
      modifies this`invoked, this`sent
      ensures invoked == old(invoked) + Invocations(Handlers.CalledUntilThrow(handlers, throwing), id, message)
      ensures threw <==> Handlers.AnyThrows(handlers, throwing) || Get(message, "type") == None
      ensures sent == old(sent) +
        if !threw && TypeIs(message, "osc_tunnel") then Deliveries(Delivered(order, clients, net, Some(id)), message) else []
    {
      var called, handlerThrew := Handlers.Dispatch(handlers, throwing);
      invoked := invoked + Invocations(called, id, message);
      threw := handlerThrew || Get(message, "type") == None;
      if !threw && TypeIs(message, "osc_tunnel") {
        Broadcast(message, Some(id), net);
      }
    }

    /** The socket's 'message' listener: parse, log, handle; every exception is caught.
        A frame that does not parse, or whose log line throws, reaches no handler and
        no peer. */
    method OnFrame(id: ConnId, frame: Frame, net: Net, throwing: set<HandlerId>)
      requires Valid()
      modifies this`invoked, this`sent
      ensures frame.Malformed? || !RelayLogOk(frame.value) ==> invoked == old(invoked) && sent == old(sent)
      ensures frame.Json? && RelayLogOk(frame.value) ==>
        invoked == old(invoked) + Invocations(Handlers.CalledUntilThrow(handlers, throwing), id, frame.value)
      ensures frame.Json? && RelayLogOk(frame.value) ==>
        sent == old(sent) +
          if !Handlers.AnyThrows(handlers, throwing) && TypeIs(frame.value, "osc_tunnel")
          then Deliveries(Delivered(order, clients, net, Some(id)), frame.value) else []
    {
      if frame.Json? && RelayLogOk(frame.value) {
        var _ := HandleMessage(id, frame.value, net, throwing);
      }
    }
  }
}
