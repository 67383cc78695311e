/**
  `OSCManager`, in its three copies (managers/OSCManager.js, client/managers/OSCManager.js,
  server/managers/OSCManager.js): a cache of OSC senders keyed by port, receivers
  registered once their UDP server is listening, and the handler "vote" that decides
  whether an incoming OSC message is logged. The copies differ only in their log prefix.

  `node-osc` is foreign: a sender or server is a reference, and `sender.send(...)` is
  recorded, not performed. Ports are JavaScript values used as Map keys, so the port
  9000 and the text "9000" are different keys.
*/
module Osc {
  import opened Js
  import Handlers

  /** Which copy: the shared one decides its prefix from `!!config.server`. */
  datatype Copy = SharedCopy | ClientCopy | ServerCopy

  /** A `node-osc` `Client` object. */
  type SenderRef = nat

  /** `sender.send(address, ...args)` on sender `sender`, created for `port`. */
  datatype OscSend = OscSend(sender: SenderRef, port: Value, address: Value, args: seq<Value>)

  /** A console line about an incoming message. */
  datatype Logged = Logged(prefix: string, message: Value)

  /** The message object handed to the handlers: `{ address, args, source, port }`. */
  function Incoming(msg: seq<Value>, source: string, port: nat): (m: Value)
    ensures m.Obj? && Read(m, "address") == (if msg == [] then Undefined else msg[0])
    ensures Read(m, "args") == Arr(if msg == [] then [] else msg[1..])
  {
    Obj(map["address" := (if msg == [] then Undefined else msg[0]),
            "args" := Arr(if msg == [] then [] else msg[1..]),
            "source" := Str(source), "port" := Num(port)])
  }

  /** A handler result that withholds logging: exactly `false`. */
  predicate Veto(result: Value) {
    result == Bool(false)
  }

  predicate Vetoed(hs: seq<HandlerId>, results: HandlerId -> Value) {
    exists i | 0 <= i < |hs| :: Veto(results(hs[i]))
  }

  /** Only a strict `false` withholds: `undefined`, `null`, `0` and `""` do not. */
  lemma OnlyStrictFalseVetoes(hs: seq<HandlerId>, results: HandlerId -> Value)
    requires forall i | 0 <= i < |hs| :: results(hs[i]) in {Undefined, Null, Num(0), Str(""), Bool(true)}
    ensures !Vetoed(hs, results)
  {
  }

  /** One veto is enough, wherever it comes in the order. */
  lemma OneVetoSuffices(hs: seq<HandlerId>, results: HandlerId -> Value, k: nat)
    requires k < |hs| && Veto(results(hs[k]))
    ensures Vetoed(hs, results)
    ensures forall perm: seq<HandlerId> | multiset(perm) == multiset(hs) :: Vetoed(perm, results)
  {
    forall perm: seq<HandlerId> | multiset(perm) == multiset(hs) ensures Vetoed(perm, results) {
      assert hs[k] in multiset(hs);
      assert hs[k] in perm;
    }
  }

  /** Whether the incoming log line can be written: its text includes the address and
      `args.join(', ')`. */
  predicate IncomingLineOk(msg: seq<Value>) {
    (msg == [] || Stringable(msg[0])) && Stringable(Arr(if msg == [] then [] else msg[1..]))
  }

  /** Whether the outgoing log line (port, address and `args.join(', ')`) can be written. */
  predicate OutgoingLineOk(port: Value, address: Value, args: seq<Value>) {
    Stringable(port) && Stringable(address) && Stringable(Arr(args))
  }

  class OSCManager {
    const copy: Copy
    const isServer: bool
    const logIncoming: bool
    const logOutgoing: bool

    /** `senders`: port to sender. */
    var senders: map<Value, SenderRef>
    var nextSender: SenderRef
    /** `osc.Server` objects created so far, by the port they were made for. */
    var servers: seq<Value>
    /** The promise of each `createReceiver` call. */
    var serverOutcomes: seq<Outcome>
    /** `receivers`: port to the server listening on it. */
    var receivers: map<Value, nat>
    var handlers: seq<HandlerId>
    var oscSent: seq<OscSend>
    var logged: seq<Logged>

    ghost predicate Valid()
      reads this
    {
      (forall p | p in senders :: senders[p] < nextSender)
      && |serverOutcomes| == |servers|
      && (forall p | p in receivers :: receivers[p] < |servers| && servers[receivers[p]] == p)
      && Distinct(handlers)
    }

    /** The prefix of the log lines. */
    function Prefix(): string
      reads this
    {
      match copy
      case SharedCopy => if isServer then "[Server]" else "[Client]"
      case ClientCopy => "[Client]"
      case ServerCopy => "[Server]"
    }

    /** A truthy `osc.local.sendPort` gets a sender at once. */
    constructor (c: Copy, configServer: Value, sendPort: Value, incoming: bool, outgoing: bool)
      ensures Valid()
      ensures copy == c && isServer == Truthy(configServer) && logIncoming == incoming && logOutgoing == outgoing
      ensures senders == if Truthy(sendPort) then map[sendPort := 0] else map[]
      ensures nextSender == if Truthy(sendPort) then 1 else 0
      ensures servers == [] && serverOutcomes == [] && receivers == map[]
      ensures handlers == [] && oscSent == [] && logged == []
    {
      copy, isServer, logIncoming, logOutgoing := c, Truthy(configServer), incoming, outgoing;
      senders, nextSender := map[], 0;
      servers, serverOutcomes, receivers := [], [], map[];
      handlers, oscSent, logged := [], [], [];
      new;
      if Truthy(sendPort) {
        var _ := CreateSender(sendPort);
      }
    }

    /** `createSender(port)`: a new sender, stored under `port` whether or not one was
        there; the other ports keep theirs. */
    method CreateSender(port: Value) returns (s: SenderRef)
      requires Valid()
      modifies this`senders, this`nextSender
      ensures Valid()
      ensures s == old(nextSender) && nextSender == s + 1
      ensures senders == old(senders)[port := s]
      ensures s !in old(senders).Values
    {
      s := nextSender;
      senders := senders[port := s];
      nextSender := nextSender + 1;
    }

    /** `send(port, address, ...args)`: the cached sender for `port`, or a new one on
        first use. The outgoing log line, when enabled, converts the address and the
        arguments to text and can throw before anything is sent. */
    method Send(port: Value, address: Value, args: seq<Value>) returns (threw: bool)
      requires Valid()
      modifies this`senders, this`nextSender, this`oscSent
      ensures Valid()
      ensures port in old(senders) ==> senders == old(senders) && nextSender == old(nextSender)
      ensures port !in old(senders) ==> senders == old(senders)[port := old(nextSender)] && nextSender == old(nextSender) + 1
      ensures threw <==> logOutgoing && !OutgoingLineOk(port, address, args)
      ensures oscSent == old(oscSent) + if threw then [] else [OscSend(senders[port], port, address, args)]
    {
      var sender;
      if port in senders {
        sender := senders[port];
      } else {
        sender := CreateSender(port);
      }
      threw := logOutgoing && !OutgoingLineOk(port, address, args);
      if !threw {
        oscSent := oscSent + [OscSend(sender, port, address, args)];
      }
    }

    /** `createReceiver(port)`: a server is made; the port is not a receiver yet. */
    method CreateReceiver(port: Value) returns (r: nat)
      requires Valid()
      modifies this`servers, this`serverOutcomes
      ensures Valid()
      ensures r == |old(servers)| && servers == old(servers) + [port] && serverOutcomes == old(serverOutcomes) + [Pending]
    {
      r := |servers|;
      servers, serverOutcomes := servers + [port], serverOutcomes + [Pending];
    }

    /** The server's 'listening' event: only now does its port enter `receivers`. The
        client and server copies then log the port, which throws for a port that cannot
        be made text; the promise is then left pending. */
    method OnListening(r: nat) returns (threw: bool)
      requires Valid() && r < |servers|
      modifies this`receivers, this`serverOutcomes
      ensures Valid()
      ensures receivers == old(receivers)[servers[r] := r]
      ensures threw <==> copy != SharedCopy && !Stringable(servers[r])
      ensures serverOutcomes == old(serverOutcomes)[r := if !threw && old(serverOutcomes)[r].Pending? then Resolved else old(serverOutcomes)[r]]
    {
      receivers := receivers[servers[r] := r];
      threw := copy != SharedCopy && !Stringable(servers[r]);
      if !threw && serverOutcomes[r].Pending? {
        serverOutcomes := serverOutcomes[r := Resolved];
      }
    }

    /** The server's 'error' event rejects a promise that has not settled yet. */
    method OnServerError(r: nat, reason: string)
      requires Valid() && r < |servers|
      modifies this`serverOutcomes
      ensures Valid()
      ensures serverOutcomes == old(serverOutcomes)[r := if old(serverOutcomes)[r].Pending? then Rejected(reason) else old(serverOutcomes)[r]]
    {
      if serverOutcomes[r].Pending? {
        serverOutcomes := serverOutcomes[r := Rejected(reason)];
      }
    }

    method OnMessage(h: HandlerId)
      requires Valid()
      modifies this`handlers
      ensures Valid()
      ensures handlers == AddOnce(old(handlers), h)
    {
      handlers := AddOnce(handlers, h);
    }

    /** `handleMessage(msg, rinfo)`: every handler is called, in order, even after one has
        returned `false`; `results` is what each returns, `throwing` the ones that throw
        (an exception ends the walk and escapes the listener). The message is logged when
        no handler returned exactly `false` and incoming logging is on. `called` are the
        handlers invoked. */
    method HandleMessage(msg: seq<Value>, source: string, port: nat, results: HandlerId -> Value, throwing: set<HandlerId>)
      returns (called: seq<HandlerId>, crashed: bool)
      requires Valid()
      modifies this`logged
      ensures called == Handlers.CalledUntilThrow(handlers, throwing)
      ensures !Handlers.AnyThrows(handlers, throwing) ==> called == handlers
      ensures crashed <==>
        (Handlers.AnyThrows(handlers, throwing) || (!Vetoed(handlers, results) && logIncoming && !IncomingLineOk(msg)))
      ensures logged == old(logged) +
        if !Handlers.AnyThrows(handlers, throwing) && !Vetoed(handlers, results) && logIncoming && IncomingLineOk(msg)
        then [Logged(Prefix(), Incoming(msg, source, port))] else []
    {
      var message := Incoming(msg, source, port);
      var shouldLog := true;
      called, crashed := [], false;
      var i := 0;
      while i < |handlers| && !crashed
        invariant 0 <= i <= |handlers|
        invariant called == handlers[..i]
        invariant !crashed ==> (shouldLog <==> !Vetoed(handlers[..i], results))
        invariant !crashed ==> forall k | 0 <= k < i :: handlers[k] !in throwing
        invariant crashed ==> 0 < i && handlers[i - 1] in throwing && forall k | 0 <= k < i - 1 :: handlers[k] !in throwing
      {
        var h := handlers[i];
        called := called + [h];
        if h in throwing {
          crashed := true;
        } else if results(h) == Bool(false) {
          shouldLog := false;
        }
        assert handlers[..i + 1] == handlers[..i] + [h];
        i := i + 1;
      }
      if crashed {
        Handlers.ThrowStopsAtFirst(handlers, throwing, i - 1);
        return;
      }
      Handlers.NoThrowCallsAll(handlers, throwing);
      assert handlers[..i] == handlers;
      if shouldLog && logIncoming {
        if IncomingLineOk(msg) {
          logged := logged + [Logged(Prefix(), message)];
        } else {
          crashed := true;
        }
      }
    }
  }
}
