/**
  The bridge of client/client.js: between the local OSC application and the relay. A
  local OSC message is judged by two blacklists (what may be printed, what may be sent),
  tagged as a tunnel message and forwarded over the relay link; a tunnel message handed
  to the inbound handler is re-emitted as local OSC. The client also names itself (`userId`) from its
  configured user once a parameter update arrives.

  The bridge builds its managers from managers/OSCManager.js (`Osc.OSCManager`, shared
  copy) and managers/RelayManager.js (`Link.RelayLink`, hub-manager variant). Reading the
  configuration file, saving it, OSCQuery, the keyboard controls and the startup block are
  not part of this model: the configuration is a `Config` value.
*/
module Bridge {
  import opened Js
  import opened Glob
  import Osc
  import Link
  import Hub

  /** A blacklist is absent (or falsy) or a list of patterns. */
  datatype Blacklists = Blacklists(console: Option<seq<string>>, transmission: Option<seq<string>>)

  /** The two channels of `ProcessMessage`. */
  datatype Channel = Console | Transmission

  /** `config.relay.user`; an empty text stands for a missing or empty field. */
  datatype User = User(name: string, id: string)

  /** Where `setupManagers` stands: waiting for the receiver's promise, given up after the
      receiver failed, or done with both handlers registered. */
  datatype Setup = AwaitingReceiver(receiver: nat) | Aborted | Registered

  /** The entry of `parameters`: the last value and its `typeof`. */
  datatype Param = Param(value: Value, kind: string)

  /** What the bridge reads from its configuration. `urlValid` says whether the relay URL
      can be opened at all; `server` is `config.server`. */
  datatype Config = Config(
    blacklist: Blacklists, sendPort: Value, receivePort: Value, user: Option<User>,
    server: Value, logIncoming: bool, logOutgoing: bool,
    maxRetries: Option<int>, retryDelay: Option<int>, urlValid: bool)

  function OrEmpty(list: Option<seq<string>>): seq<string> {
    if list.Some? then list.value else []
  }

  /** The patterns a channel checks: the console channel checks both lists, console first. */
  function Patterns(lists: Blacklists, ch: Channel): (ps: seq<string>)
    ensures ch == Transmission ==> ps == OrEmpty(lists.transmission)
    ensures ch == Console ==> |ps| == |OrEmpty(lists.console)| + |OrEmpty(lists.transmission)|
  {
    match ch
    case Console => OrEmpty(lists.console) + OrEmpty(lists.transmission)
    case Transmission => OrEmpty(lists.transmission)
  }

  /** One pattern against the message's address. A text address is tested as is; any
      other value is first converted to text by the regex engine (`toText`, None when
      that conversion throws, which the try block catches like a bad pattern). */
  function PatternVerdict(oracle: (string, string) -> Verdict, toText: Value -> Option<string>, p: string, address: Value): Verdict {
    if address.Str? then Judge(oracle, p, address.s)
    else match toText(address)
      case None => Invalid
      case Some(t) => Judge(oracle, p, t)
  }

  /** Some pattern of `ps` is a hit under `judge`. */
  predicate BlockedBy(judge: string -> Verdict, ps: seq<string>) {
    exists k | 0 <= k < |ps| :: judge(ps[k]) == Hit
  }

  /** Some pattern matches the address. */
  predicate Blocked(oracle: (string, string) -> Verdict, toText: Value -> Option<string>, ps: seq<string>, address: Value) {
    BlockedBy(p => PatternVerdict(oracle, toText, p, address), ps)
  }

  lemma BlockedByConcat(judge: string -> Verdict, c: seq<string>, t: seq<string>)
    ensures BlockedBy(judge, c + t) <==> BlockedBy(judge, c) || BlockedBy(judge, t)
  {
    var ps := c + t;
    if BlockedBy(judge, c) {
      var k :| 0 <= k < |c| && judge(c[k]) == Hit;
      assert ps[k] == c[k];
    }
    if BlockedBy(judge, t) {
      var k :| 0 <= k < |t| && judge(t[k]) == Hit;
      assert ps[|c| + k] == t[k];
    }
    if BlockedBy(judge, ps) {
      var k :| 0 <= k < |ps| && judge(ps[k]) == Hit;
      if k < |c| {
        assert c[k] == ps[k];
      } else {
        assert t[k - |c|] == ps[k];
      }
    }
  }

  lemma BlockedBySingleton(judge: string -> Verdict, p: string)
    ensures BlockedBy(judge, [p]) <==> judge(p) == Hit
  {
    if judge(p) == Hit {
      assert [p][0] == p;
    }
  }

  /** The patterns reported as invalid while scanning `ps` to its end. */
  function Invalids(oracle: (string, string) -> Verdict, toText: Value -> Option<string>, ps: seq<string>, address: Value): (r: seq<string>)
    ensures forall p | p in r :: p in ps && PatternVerdict(oracle, toText, p, address) == Invalid
  {
    if ps == [] then []
    else
      var before := Invalids(oracle, toText, ps[..|ps| - 1], address);
      if PatternVerdict(oracle, toText, ps[|ps| - 1], address) == Invalid then before + [ps[|ps| - 1]] else before
  }

  /** `ProcessMessage(message, channel)`: a message without an address is refused; one
      with an address passes unless a pattern of the channel matches it. */
  predicate Allowed(oracle: (string, string) -> Verdict, toText: Value -> Option<string>, lists: Blacklists, ch: Channel, message: Value) {
    Truthy(message) && Truthy(Read(message, "address"))
    && !Blocked(oracle, toText, Patterns(lists, ch), Read(message, "address"))
  }

  /** The blacklist loop: the first matching pattern ends it; a pattern whose regex throws
      is reported and the scan goes on. */
  method Scan(oracle: (string, string) -> Verdict, toText: Value -> Option<string>, ps: seq<string>, address: Value)
    returns (blocked: bool, warnings: seq<string>)
    ensures blocked <==> Blocked(oracle, toText, ps, address)
    ensures !blocked ==> warnings == Invalids(oracle, toText, ps, address)
    ensures blocked ==> exists k | 0 <= k < |ps| ::
      PatternVerdict(oracle, toText, ps[k], address) == Hit
      && (forall j | 0 <= j < k :: PatternVerdict(oracle, toText, ps[j], address) != Hit)
      && warnings == Invalids(oracle, toText, ps[..k], address)
  {
    warnings := [];
    var i := 0;
    while i < |ps|
      invariant 0 <= i <= |ps|
      invariant warnings == Invalids(oracle, toText, ps[..i], address)
      invariant forall j | 0 <= j < i :: PatternVerdict(oracle, toText, ps[j], address) != Hit
    {
      var v := PatternVerdict(oracle, toText, ps[i], address);
      assert ps[..i + 1][..i] == ps[..i];
      if v == Hit {
        return true, warnings;
      }
      if v == Invalid {
        warnings := warnings + [ps[i]];
      }
      i := i + 1;
    }
    assert ps[..i] == ps;
    return false, warnings;
  }

  /** `ProcessMessage`, with the warnings it prints. */
  method ProcessMessage(oracle: (string, string) -> Verdict, toText: Value -> Option<string>, lists: Blacklists, message: Value, ch: Channel)
    returns (allowed: bool, warnings: seq<string>)
    ensures allowed <==> Allowed(oracle, toText, lists, ch, message)
    ensures !Truthy(message) || !Truthy(Read(message, "address")) ==> !allowed && warnings == []
    ensures allowed ==> warnings == Invalids(oracle, toText, Patterns(lists, ch), Read(message, "address"))
  {
    if !Truthy(message) || !Truthy(Read(message, "address")) {
      return false, [];
    }
    var blocked;
    blocked, warnings := Scan(oracle, toText, Patterns(lists, ch), Read(message, "address"));
    allowed := !blocked;
  }

  /** With no blacklist, or empty ones, every message with an address passes on both
      channels. */
  lemma NoBlacklistAllowsAll(oracle: (string, string) -> Verdict, toText: Value -> Option<string>, lists: Blacklists, ch: Channel, message: Value)
    requires OrEmpty(lists.console) == [] && OrEmpty(lists.transmission) == []
    ensures Allowed(oracle, toText, lists, ch, message) <==> Truthy(message) && Truthy(Read(message, "address"))
  {
    assert Patterns(lists, ch) == [];
  }

  /** The console channel refuses what either list matches: it passes exactly what the
      transmission channel passes and the console list does not match. */
  lemma ConsoleChecksBothLists(oracle: (string, string) -> Verdict, toText: Value -> Option<string>, lists: Blacklists, message: Value)
    ensures Allowed(oracle, toText, lists, Console, message) <==>
      Allowed(oracle, toText, lists, Transmission, message)
      && !Blocked(oracle, toText, OrEmpty(lists.console), Read(message, "address"))
  {
    var a := Read(message, "address");
    BlockedByConcat(p => PatternVerdict(oracle, toText, p, a), OrEmpty(lists.console), OrEmpty(lists.transmission));
  }

  /** So whatever is printed is also allowed onto the relay. */
  lemma ConsoleImpliesTransmission(oracle: (string, string) -> Verdict, toText: Value -> Option<string>, lists: Blacklists, message: Value)
    requires Allowed(oracle, toText, lists, Console, message)
    ensures Allowed(oracle, toText, lists, Transmission, message)
  {
    ConsoleChecksBothLists(oracle, toText, lists, message);
  }

  /** A pattern whose regex cannot be built is as good as absent. */
  lemma InvalidPatternIsSkipped(oracle: (string, string) -> Verdict, toText: Value -> Option<string>, ps: seq<string>, k: nat, address: Value)
    requires k < |ps| && PatternVerdict(oracle, toText, ps[k], address) == Invalid
    ensures Blocked(oracle, toText, ps, address) <==> Blocked(oracle, toText, ps[..k] + ps[k + 1..], address)
  {
    var judge := p => PatternVerdict(oracle, toText, p, address);
    assert ps == ps[..k] + ([ps[k]] + ps[k + 1..]);
    BlockedByConcat(judge, ps[..k], [ps[k]] + ps[k + 1..]);
    BlockedByConcat(judge, [ps[k]], ps[k + 1..]);
    BlockedByConcat(judge, ps[..k], ps[k + 1..]);
    assert !BlockedBy(judge, [ps[k]]);
  }

  /** A blacklist entry written as text and one star, such as "Secret*", keeps off the relay
      every address containing the text, wherever it occurs. */
  lemma StarPatternBlocksContainingAddresses(oracle: (string, string) -> Verdict, toText: Value -> Option<string>, p: string, message: Value)
    requires Literal(p) && Read(message, "address").Str?
    ensures Allowed(oracle, toText, Blacklists(None, Some([p + "*"])), Transmission, message) <==>
      Truthy(message) && Truthy(Read(message, "address")) && !Contains(Read(message, "address").s, p)
  {
    var a := Read(message, "address");
    TrailingStarHitsSubstrings(oracle, p, a.s);
    assert Patterns(Blacklists(None, Some([p + "*"])), Transmission) == [p + "*"];
    BlockedBySingleton(q => PatternVerdict(oracle, toText, q, a), p + "*");
  }

  /** An empty pattern matches every address, so it blacklists everything. */
  lemma EmptyPatternBlocksAll(oracle: (string, string) -> Verdict, toText: Value -> Option<string>, message: Value)
    requires Read(message, "address").Str?
    ensures !Allowed(oracle, toText, Blacklists(Some([""]), None), Console, message)
  {
    var a := Read(message, "address");
    LiteralPatternHitsSubstrings(oracle, "", a.s);
    assert OccursAt(a.s, "", 0);
    assert Patterns(Blacklists(Some([""]), None), Console)[0] == "";
  }

  /** The object the outbound handler forwards: the tunnel tags, overridden by every field
      of the local message (`{ type, userId, relayed, ...msg }`). */
  function Forwarded(userId: Value, msg: Value): (r: Value)
    ensures r.Obj?
    ensures msg.Obj? ==> forall k | k in msg.fields :: Read(r, k) == msg.fields[k]
    ensures !msg.Obj? || "type" !in msg.fields ==> Read(r, "type") == Str("osc_tunnel")
    ensures !msg.Obj? || "userId" !in msg.fields ==> Read(r, "userId") == userId
    ensures !msg.Obj? || "relayed" !in msg.fields ==> Read(r, "relayed") == Bool(true)
  {
    var tags := map["type" := Str("osc_tunnel"), "userId" := userId, "relayed" := Bool(true)];
    Obj(tags + if msg.Obj? then msg.fields else map[])
  }

  /** What the inbound handler re-emits: tunnel messages not marked as relayed. */
  predicate Reemits(message: Value) {
    TypeIs(message, "osc_tunnel") && !Truthy(Read(message, "relayed"))
  }

  /** A forwarded message would be re-emitted by a receiving client's inbound handler, if
      it reached that handler, exactly when the local message itself carried a falsy
      `relayed` field and no type other than a tunnel. */
  lemma ForwardedIsReemittedIff(userId: Value, msg: Value)
    requires msg.Obj?
    ensures Reemits(Forwarded(userId, msg)) <==>
      "relayed" in msg.fields && !Truthy(msg.fields["relayed"])
      && ("type" in msg.fields ==> msg.fields["type"] == Str("osc_tunnel"))
  {
  }

  /** The OSC adapter never sets `relayed`, and the hubs forward what they get unchanged, so
      what one client forwards is dropped by every other client. */
  lemma PeerTunnelTrafficDiscarded(userId: Value, packet: seq<Value>, source: string, port: nat)
    ensures !Reemits(Forwarded(userId, Osc.Incoming(packet, source, port)))
  {
    var msg := Osc.Incoming(packet, source, port);
    assert "relayed" !in msg.fields;
    ForwardedIsReemittedIff(userId, msg);
  }

  /** JavaScript's `typeof`. */
  function TypeOf(v: Value): string {
    match v
    case Undefined => "undefined"
    case Null => "object"
    case Bool(_) => "boolean"
    case Num(_) => "number"
    case Str(_) => "string"
    case Arr(_) => "object"
    case Obj(_) => "object"
  }

  /** `ensureUserId`: a missing user becomes one with empty name and id. */
  function EnsuredUser(configured: Option<User>): User {
    if configured.Some? then configured.value else User("", "")
  }

  /** The user after a parameter update: an id is generated only when none is set. */
  function WithId(u: User, randomId: string): (r: User)
    ensures r.name == u.name
    ensures u.id != "" ==> r == u
  {
    if u.id == "" then u.(id := randomId) else u
  }

  /** `userId`: the name when there is one, else "default-" and the id. */
  function DerivedUserId(u: User): string {
    if u.name != "" then u.name else "default-" + u.id
  }

  /** The name wins; without a name, the configured id; without either, the generated one. */
  lemma UserIdDerivation(u: User, randomId: string)
    ensures u.name != "" ==> DerivedUserId(WithId(u, randomId)) == u.name
    ensures u.name == "" && u.id != "" ==> DerivedUserId(WithId(u, randomId)) == "default-" + u.id
    ensures u.name == "" && u.id == "" ==> DerivedUserId(WithId(u, randomId)) == "default-" + randomId
  {
  }

  /** Once an id is generated, later updates keep it and the derived name. */
  lemma UserIdIsStable(u: User, random1: string, random2: string)
    requires random1 != ""
    ensures WithId(WithId(u, random1), random2) == WithId(u, random1)
    ensures DerivedUserId(WithId(WithId(u, random1), random2)) == DerivedUserId(WithId(u, random1))
  {
  }

  class ClientBridge {
    const oracle: (string, string) -> Verdict
    const toText: Value -> Option<string>
    const config: Config
    const osc: Osc.OSCManager
    const relay: Link.RelayLink

    var user: User
    var userId: Value
    /** `this.parameters`; None while it was never assigned. */
    var parameters: Option<map<string, Param>>
    var warnings: seq<string>
    var setup: Setup

    ghost predicate Valid()
      reads this, osc, relay
    {
      osc.Valid() && relay.Valid()
      && osc.copy == Osc.SharedCopy && relay.variant == Link.HubManagerLink
      && (setup.AwaitingReceiver? ==>
            setup.receiver < |osc.servers| && osc.servers[setup.receiver] == config.receivePort
            && osc.serverOutcomes[setup.receiver].Pending?)
    }

    /** The constructor as written: the user is ensured, the managers are made, and
        `parameters` is never assigned. `setupManagers` starts at once and runs up to its
        first `await`: the receiver for the receive port is created. */
    constructor (matcher: (string, string) -> Verdict, text: Value -> Option<string>, c: Config)
      ensures Valid() && fresh(osc) && fresh(relay)
      ensures oracle == matcher && toText == text && config == c
      ensures user == EnsuredUser(c.user) && userId == Undefined && parameters == None && warnings == []
      ensures osc.senders == (if Truthy(c.sendPort) then map[c.sendPort := 0] else map[]) && osc.oscSent == []
      ensures relay.written == [] && relay.ws == None && relay.connectionAttempts == 0
      ensures osc.servers == [c.receivePort] && osc.serverOutcomes == [Pending] && osc.receivers == map[]
      ensures setup == AwaitingReceiver(0)
    {
      oracle, toText, config := matcher, text, c;
      user, userId, parameters, warnings := EnsuredUser(c.user), Undefined, None, [];
      osc := new Osc.OSCManager(Osc.SharedCopy, c.server, c.sendPort, c.logIncoming, c.logOutgoing);
      relay := new Link.RelayLink(Link.HubManagerLink, c.maxRetries, c.retryDelay, c.urlValid);
      setup := Registered;
      new;
      var r := osc.CreateReceiver(c.receivePort);
      setup := AwaitingReceiver(r);
    }

    /** The constructor with `this.parameters = new Map()`, which the parameter handler
        evidently expects. */
    constructor WithParameters(matcher: (string, string) -> Verdict, text: Value -> Option<string>, c: Config)
      ensures Valid() && fresh(osc) && fresh(relay)
      ensures oracle == matcher && toText == text && config == c
      ensures user == EnsuredUser(c.user) && userId == Undefined && parameters == Some(map[]) && warnings == []
      ensures osc.senders == (if Truthy(c.sendPort) then map[c.sendPort := 0] else map[]) && osc.oscSent == []
      ensures osc.servers == [c.receivePort] && osc.serverOutcomes == [Pending] && setup == AwaitingReceiver(0)
    {
      oracle, toText, config := matcher, text, c;
      user, userId, parameters, warnings := EnsuredUser(c.user), Undefined, Some(map[]), [];
      osc := new Osc.OSCManager(Osc.SharedCopy, c.server, c.sendPort, c.logIncoming, c.logOutgoing);
      relay := new Link.RelayLink(Link.HubManagerLink, c.maxRetries, c.retryDelay, c.urlValid);
      setup := Registered;
      new;
      var r := osc.CreateReceiver(c.receivePort);
      setup := AwaitingReceiver(r);
    }

    /** The receiver's 'listening' event resumes `setupManagers`: the receiver is registered
        and its promise resolves, a new sender replaces the one the constructor made for
        the send port, and both handlers are registered. */
    method ReceiverListening()
      requires Valid() && setup.AwaitingReceiver?
      modifies this`setup, osc`receivers, osc`serverOutcomes, osc`senders, osc`nextSender
      ensures Valid() && setup == Registered
      ensures osc.receivers == old(osc.receivers)[config.receivePort := old(setup).receiver]
      ensures osc.serverOutcomes == old(osc.serverOutcomes)[old(setup).receiver := Resolved]
      ensures osc.senders == old(osc.senders)[config.sendPort := old(osc.nextSender)]
      ensures config.sendPort in old(osc.senders) ==> osc.senders[config.sendPort] != old(osc.senders)[config.sendPort]
    {
      var r := setup.receiver;
      var threw := osc.OnListening(r);
      var _ := osc.CreateSender(config.sendPort);
      setup := Registered;
    }

    /** The receiver's 'error' event rejects its promise and so `setupManagers`: the send
        port keeps the constructor's sender and neither handler is ever registered. */
    method ReceiverFailed(reason: string)
      requires Valid() && setup.AwaitingReceiver?
      modifies this`setup, osc`serverOutcomes
      ensures Valid() && setup == Aborted
      ensures osc.serverOutcomes == old(osc.serverOutcomes)[old(setup).receiver := Rejected(reason)]
      ensures osc.senders == old(osc.senders) && osc.receivers == old(osc.receivers)
    {
      osc.OnServerError(setup.receiver, reason);
      setup := Aborted;
    }

    /** The handler given to the OSC adapter: both verdicts are computed, the message is
        forwarded over the link when it may be transmitted and is not marked as relayed
        (and dropped when the link is not open), and the console verdict is returned as
        the handler's vote. */
    method OnLocalMessage(msg: Value) returns (shouldLog: bool)
      requires Valid() && setup == Registered
      modifies this`warnings, relay`written
      ensures Valid()
      ensures shouldLog <==> Allowed(oracle, toText, config.blacklist, Console, msg)
      ensures relay.written == old(relay.written) +
        if Allowed(oracle, toText, config.blacklist, Transmission, msg) && !Truthy(Read(msg, "relayed")) && relay.IsOpen()
        then [Link.Written(relay.ws.value, Forwarded(userId, msg))] else []
      ensures Allowed(oracle, toText, config.blacklist, Transmission, msg) ==> msg.Obj?
    {
      var consoleWarnings, transmissionWarnings;
      shouldLog, consoleWarnings := ProcessMessage(oracle, toText, config.blacklist, msg, Console);
      var shouldTransmit;
      shouldTransmit, transmissionWarnings := ProcessMessage(oracle, toText, config.blacklist, msg, Transmission);
      warnings := warnings + consoleWarnings + transmissionWarnings;
      if shouldTransmit && !Truthy(Read(msg, "relayed")) {
        relay.Send(Forwarded(userId, msg));
      }
    }

    /** Whether the inbound log line, which names the sender and the address, can be
        written. */
    predicate InboundLineOk(message: Value) {
      Stringable(Read(message, "userId")) && Stringable(Read(message, "address"))
    }

    /** The handler added to the relay manager: a tunnel message not marked as relayed is
        logged and sent to the local send port with its own address and arguments; any
        other message is ignored. Reading the type of null throws, and so do the log
        line, spreading arguments that are not iterable, and the adapter's own log. */
    method OnRelayMessage(message: Value) returns (threw: bool)
      requires Valid() && setup == Registered
      modifies osc`senders, osc`nextSender, osc`oscSent
      ensures Valid()
      ensures !Reemits(message) ==>
        osc.senders == old(osc.senders) && osc.oscSent == old(osc.oscSent) && (threw <==> Get(message, "type").None?)
      ensures Reemits(message) && !(InboundLineOk(message) && Spread(Read(message, "args")).Some?) ==>
        threw && osc.senders == old(osc.senders) && osc.oscSent == old(osc.oscSent)
      ensures Reemits(message) && InboundLineOk(message) && Spread(Read(message, "args")).Some? ==>
        var args := Spread(Read(message, "args")).value;
        var sent := !(osc.logOutgoing && !Osc.OutgoingLineOk(config.sendPort, Read(message, "address"), args));
        config.sendPort in osc.senders
        && (threw <==> !sent)
        && osc.oscSent == old(osc.oscSent) +
          if sent then [Osc.OscSend(osc.senders[config.sendPort], config.sendPort, Read(message, "address"), args)] else []
    {
      if Get(message, "type").None? {
        return true;
      }
      if !Reemits(message) {
        return false;
      }
      var args := Spread(Read(message, "args"));
      if !InboundLineOk(message) || args.None? {
        return true;
      }
      threw := osc.Send(config.sendPort, Read(message, "address"), args.value);
    }

    /** `handleParameterUpdate` as written: its first statement reads `parameters`, which
        throws while it was never assigned, and then nothing else happens. */
    method HandleParameterUpdate(address: string, value: Value, randomId: string) returns (threw: bool)
      modifies this`parameters, this`user, this`userId
      ensures threw <==> old(parameters).None?
      ensures threw ==> parameters == old(parameters) && user == old(user) && userId == old(userId)
      ensures !threw ==> parameters == Some(old(parameters).value[address := Param(value, TypeOf(value))])
      ensures !threw ==> user == WithId(old(user), randomId) && userId == Str(DerivedUserId(user))
    {
      if parameters.None? {
        return true;
      }
      parameters := Some(parameters.value[address := Param(value, TypeOf(value))]);
      user := WithId(user, randomId);
      userId := Str(DerivedUserId(user));
      return false;
    }
  }

  /** As written, a freshly built client never gets past the first parameter update, so its
      `userId` stays undefined and every tunnel message it forwards carries no sender. */
  method FreshClientNeverDerivesUserId(matcher: (string, string) -> Verdict, text: Value -> Option<string>, c: Config,
                                       address: string, value: Value, randomId: string)
    returns (client: ClientBridge, threw: bool)
    ensures threw && client.userId == Undefined
    ensures Read(Forwarded(client.userId, Obj(map["address" := Str(address)])), "userId") == Undefined
  {
    client := new ClientBridge(matcher, text, c);
    threw := client.HandleParameterUpdate(address, value, randomId);
  }

  /** The hub half of managers/RelayManager.js calls each handler as
      `handler(clientId, message)`, but the inbound handler declares one parameter, so it
      receives the connection id. Text has no `type`, so nothing is re-emitted, whatever
      the peer sent. */
  method HubPassesConnectionId(matcher: (string, string) -> Verdict, text: Value -> Option<string>, c: Config,
                               address: string, port: nat)
    returns (client: ClientBridge, threw: bool)
    ensures client.setup == Registered
    ensures !threw && client.osc.oscSent == []
  {
    client := new ClientBridge(matcher, text, c);
    client.ReceiverListening();
    threw := client.OnRelayMessage(Str(Hub.ConnKey(address, port)));
  }

  /** With `parameters` initialised, the first update records the parameter and names the
      client after its user. */
  method InitialisedClientDerivesUserId(matcher: (string, string) -> Verdict, text: Value -> Option<string>, c: Config,
                                        address: string, value: Value, randomId: string)
    returns (client: ClientBridge, threw: bool)
    ensures !threw && client.parameters == Some(map[address := Param(value, TypeOf(value))])
    ensures client.userId == Str(DerivedUserId(WithId(EnsuredUser(c.user), randomId)))
    ensures EnsuredUser(c.user).name != "" ==> client.userId == Str(EnsuredUser(c.user).name)
  {
    client := new ClientBridge.WithParameters(matcher, text, c);
    threw := client.HandleParameterUpdate(address, value, randomId);
    UserIdDerivation(EnsuredUser(c.user), randomId);
  }
}
