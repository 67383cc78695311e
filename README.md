# OSCRemote relay and bridge, modelled in Dafny

OSCRemote carries OSC traffic between VRChat instances over a WebSocket relay. This
project models its relay and bridging engine as the repository writes it, in all of its
near-duplicate snapshots:

- the **hubs**: the hub half of `RelayManager` in managers/RelayManager.js
  (`RelayHub`), `RelayManager` in server/managers/RelayManager.js (`ServerRelay`),
  `WebSocketManager` in managers/WebSocketManager.js (`SocketHub`) and `OSCRelay` in
  server.js (`RelayServer`). Each keeps a registry from connection id `addr:port` to
  socket and forwards to every other open peer. The shared parts are in `Hub`: connection
  keys, the registry, the guarded broadcast (a failing peer loses only its own copy) and
  the unguarded one of server.js (the first failing send ends the walk);
- the **links**: the reconnecting client side of managers/RelayManager.js,
  client/managers/RelayManager.js and client/managers/WebSocketManager.js, one class
  `Link.RelayLink` with a `variant`. It models the counter, the reconnect timers, the
  promise of each `connect` call and the awaiting chain between them;
- the **legacy client** `OSCRelayClient` of client.js (`LegacyClient`), with its
  whitelist filters and a counter that never moves;
- the **OSC adapter** `OSCManager`, in its three copies (`Osc`): the per-port sender
  cache, receivers registered on 'listening', and the handler vote on logging;
- the **log de-duplication** of client/managers/logger.js (`DedupLog`);
- the **bridge** `OSCRelayClient` of client/client.js (`Bridge`). It has the two-channel
  blacklist `ProcessMessage` over the regex fragment in `Glob`, the outbound and inbound
  handlers, and the `userId` derivation.

JavaScript values are `Js.Value`. A property read on `null`/`undefined` throws, and so
does turning into text an object with its own `toString` key (as JSON can produce).
Sockets are abstract: a `readyState` and whether `send` throws. Timers are pending
entries that the environment fires. Promises are outcome values. Handlers are identified
by number; the model is told which of them throw and what they return.

Points where the code behaves differently from what one might expect:

- The console channel of `ProcessMessage` checks the console list and the transmission
  list, so whatever is printed may also be transmitted (`Bridge.ConsoleImpliesTransmission`).
- No link sends an `identify` message; only `osc_subscribe` is sent, after a reconnect.
- A user `connect()` on a live link closes the old socket, and that close arms a
  reconnect timer while the new socket is up, so two reconnect timers can be pending at
  once (`Link.TwoPendingReconnects`).
- In client.js the counter is only ever set to 0: every close arms a retry and the error
  listener's rejection never fires (`LegacyClient.FailingReconnects`).
- managers/RelayManager.js has no `onMessage`; its `messageHandlers` Set is filled from
  outside and is read only by its hub half, which calls `handler(clientId, message)`. Its
  link socket has no 'message' listener. The bridge in client/client.js uses that class
  and adds a one-parameter inbound handler, so the handler receives the connection id and
  never re-emits anything (see Findings, `Bridge.HubPassesConnectionId`).
- `setupManagers` in client/client.js creates the send-port sender and registers both
  handlers only after the receiver reports 'listening'; if the receiver fails first,
  neither handler is ever registered (`Bridge.ClientBridge.ReceiverFailed`).
- In the hub half of managers/RelayManager.js, a failed reconnect rejects the earlier
  promise only when the counter has reached the limit. The counter is checked before it
  is incremented, so that copy makes one more reconnect than the client copies.
- In managers/WebSocketManager.js the goodbye log line names the peer by
  `userId || clientId`. A truthy `userId` that cannot be made text makes
  `handleDisconnect` throw before either Map entry is deleted.
- The client and server copies of `OSCManager` log the port after registering a
  receiver; when that log throws, the receiver is registered and the promise never settles.

## Model

| member | source | states |
|---|---|---|
| Glob.ReplaceFirstStarShape | client/client.js:237 | `pattern.replace('*', '.*')` rewrites only the first star and keeps the text around it |
| Glob.LiteralPatternHitsSubstrings | client/client.js:237 | a star-free plain pattern matches exactly the addresses containing it anywhere (the regex is unanchored) |
| Glob.TrailingStarHitsSubstrings | client/client.js:249 | a plain pattern followed by one star matches exactly the addresses containing its text |
| Glob.DoubleStarIsInvalid | client/client.js:240-242 | a pattern ending in two stars does not compile ("nothing to repeat"), so it is reported and skipped |
| Glob.SecondStarRepeatsPrecedingCharacter | client/client.js:237 | only the first star is a wildcard: "a*b*" matches "ac", which has no `b` |
| Bridge.Patterns | client/client.js:230-232 | the console channel checks both lists (console first); the transmission channel only its own; a missing list counts as empty |
| Bridge.Invalids | client/client.js:240-242 | every pattern reported as invalid is a pattern of the list whose regex throws |
| Bridge.Scan | client/client.js:235-243 | the loop blocks iff some pattern matches; it stops at the first match, after warning about exactly the invalid patterns before it; with no match it warns about every invalid pattern |
| Bridge.ProcessMessage | client/client.js:226-259 | a missing message or a missing or empty address is refused with no warning; otherwise allowed iff no pattern of the channel matches |
| Bridge.NoBlacklistAllowsAll | client/client.js:231-232 | with both lists absent or empty, a message is allowed on either channel iff it has an address |
| Bridge.ConsoleChecksBothLists | client/client.js:230-243 | console-allowed iff transmission-allowed and no console pattern matches |
| Bridge.ConsoleImpliesTransmission | client/client.js:230-243 | whatever may be printed may also be transmitted |
| Bridge.InvalidPatternIsSkipped | client/client.js:240-242 | removing a pattern whose regex throws changes no verdict: the remaining patterns are still checked |
| Bridge.StarPatternBlocksContainingAddresses | client/client.js:249 | a blacklist entry "text*" keeps off the relay every address containing the text, and only those |
| Bridge.EmptyPatternBlocksAll | client/client.js:237 | an empty blacklist entry matches every address |
| Bridge.Forwarded | client/client.js:54-59 | the forwarded object has every field of the local message; the tags `type`, `userId` and `relayed: true` only where the message has no such field |
| Bridge.ForwardedIsReemittedIff | client/client.js:65 | a forwarded message would be re-emitted by a receiving client's inbound handler, if it reached it, iff the local message had a falsy `relayed` field and no type other than `osc_tunnel` |
| Bridge.PeerTunnelTrafficDiscarded | client/client.js:53-59 | what the OSC adapter hands the outbound handler has no `relayed` field, so every message one client forwards is ignored by the others |
| Bridge.ClientBridge.OnLocalMessage | client/client.js:49-62 | returns the console verdict; writes the tagged message to the link iff transmission is allowed, `msg.relayed` is falsy and the link is OPEN |
| Bridge.ClientBridge.OnRelayMessage | client/client.js:64-73 | only a tunnel message with falsy `relayed` is sent, to the configured send port with its own address and spread args; a null message, a log line that cannot be written or non-iterable args throw and send nothing |
| Bridge.WithId | client/client.js:208-212 | an id is generated only when none is configured; the name is kept |
| Bridge.UserIdDerivation | client/client.js:208-214 | `userId` is the name when non-empty, else `default-` and the configured id, else `default-` and the generated id |
| Bridge.UserIdIsStable | client/client.js:208-214 | once an id was generated, later updates keep the id and the derived `userId` |
| Bridge.ClientBridge.constructor | client/client.js:9-14 | the user is ensured (`{name:"", id:""}` when missing), the managers are built, `userId` is undefined, `parameters` is never assigned, and `setupManagers` has created the receiver and waits for it |
| Bridge.ClientBridge.ReceiverListening | client/client.js:45-74 | once the receiver is listening it is registered and its promise resolves; then a new sender replaces the send port's sender, and both handlers are registered |
| Bridge.ClientBridge.ReceiverFailed | client/client.js:45-47 | a receiver error rejects `setupManagers`: the send port keeps the constructor's sender and no handler is ever registered |
| Bridge.HubPassesConnectionId | client/client.js:64-65 | as written, the hub half's call `handler(clientId, message)` gives the one-parameter inbound handler the connection id, so it sends nothing and does not throw |
| Bridge.ClientBridge.HandleParameterUpdate | client/client.js:202-216 | throws iff `parameters` is unassigned, changing nothing; otherwise records the parameter with its `typeof` and derives `userId` |
| Bridge.FreshClientNeverDerivesUserId | client/client.js:203 | as written, a freshly built client's first parameter update throws, and its `userId` stays undefined |
| Bridge.ClientBridge.WithParameters | client/client.js:202-206 | the constructor with `parameters` initialised to an empty Map |
| Bridge.InitialisedClientDerivesUserId | client/client.js:206-214 | with `parameters` initialised, the first update records the parameter and names the client after its user |
| Handlers.NoThrowCallsAll | server/managers/RelayManager.js:46-48 | when no handler throws, every handler is called once, in insertion order |
| Handlers.ThrowStopsAtFirst | server/managers/RelayManager.js:46-48 | a throwing handler ends `forEach`: exactly the handlers up to the first throwing one are called |
| Handlers.Dispatch | client/managers/RelayManager.js:104-106 | the handler loop calls exactly the handlers up to the first that throws, and all of them when none throws |
| Hub.Decimal | managers/RelayManager.js:23 | the port's decimal text is non-empty and all digits |
| Hub.DecimalRoundTrip | managers/RelayManager.js:23 | the decimal text reads back as the port |
| Hub.ConnKeyInjective | managers/RelayManager.js:23-24 | two connections share a key `addr:port` only when they have the same address and port, even for IPv6 addresses with colons of their own |
| Hub.Remove | managers/RelayManager.js:55 | deleting an id keeps every other id and removes only that one |
| Hub.RemoveDistinct | managers/RelayManager.js:55 | deletion keeps the key order free of repeats |
| Hub.RegistrySet | managers/RelayManager.js:24 | `clients.set` keeps key order and Map in step: a new id is appended, an existing one keeps its place |
| Hub.RegistryDelete | managers/RelayManager.js:55 | `clients.delete` keeps key order and Map in step |
| Hub.DeliveredMembers | managers/RelayManager.js:65-68 | the guarded broadcast delivers to exactly the registered ids other than the excluded one whose socket is OPEN and whose send does not throw, each once |
| Hub.ThrowingPeerLosesOnlyItsCopy | managers/RelayManager.js:68-72 | a peer whose send throws changes no other peer's delivery |
| Hub.DeliverEach | managers/RelayManager.js:65-75 | the broadcast loop delivers exactly what the guarded broadcast specifies |
| Hub.UnguardedWithoutThrow | server.js:37-43 | with no throwing send, the unguarded walk delivers what the guarded one does and does not throw |
| Hub.UnguardedStopsAtFirstThrow | server.js:37-43 | with a first throwing eligible peer, delivery stops at it: exactly the eligible peers before it receive |
| Hub.DeliverUntilThrow | server.js:37-43 | the loop of `broadcastToClients` stops at the first send that throws, and reports it |
| Hub.TunnelWithoutArrayArgsIsDropped | managers/RelayManager.js:32-38 | a tunnel message whose `args` is not an array fails its log line |
| Hub.OtherTypesPassTheLogLine | managers/RelayManager.js:30-35 | a message with any other type passes the log line |
| RelayHub.RelayManager.constructor | managers/RelayManager.js:4-11 | empty registry and handler set |
| RelayHub.RelayManager.HandleConnection | managers/RelayManager.js:22-24 | registers the socket under `addr:port`, other entries unchanged |
| RelayHub.RelayManager.HandleDisconnect | managers/RelayManager.js:54-57 | deletes only that id |
| RelayHub.RelayManager.Broadcast | managers/RelayManager.js:65-75 | sends to exactly the other OPEN peers; a failing send is skipped |
| RelayHub.RelayManager.HandleMessage | managers/RelayManager.js:44-52 | handlers run first (until one throws); only an `osc_tunnel` message is then broadcast, never to its sender |
| RelayHub.RelayManager.OnFrame | managers/RelayManager.js:27-39 | a frame that does not parse, or whose log line throws, reaches no handler and no peer |
| ServerRelay.RelayManager.constructor | server/managers/RelayManager.js:4-8 | empty registry and handler set |
| ServerRelay.RelayManager.HandleConnection | server/managers/RelayManager.js:20-22 | registers the socket under `addr:port`, other entries unchanged |
| ServerRelay.RelayManager.HandleDisconnect | server/managers/RelayManager.js:54-57 | deletes only that id |
| ServerRelay.RelayManager.OnMessage | server/managers/RelayManager.js:50-52 | adding a handler twice changes nothing |
| ServerRelay.RelayManager.HandleMessage | server/managers/RelayManager.js:46-48 | calls the handlers in order until one throws |
| ServerRelay.RelayManager.Broadcast | server/managers/RelayManager.js:59-69 | sends to exactly the other OPEN peers; a failing send is skipped |
| ServerRelay.RelayManager.HandleIncomingMessage | server/managers/RelayManager.js:28-44 | parse failure or a failing log line: nothing happens; otherwise handlers run, and only a tunnel message is broadcast afterwards, when no handler threw |
| SocketHub.Account | managers/WebSocketManager.js:43-48 | a parsed message adds exactly one to the count, identify included; identify overwrites `userId`; id, ip and port never change |
| SocketHub.IdentifyIsCountedAndOverwrites | managers/WebSocketManager.js:47-48 | an identify is counted and replaces any earlier name |
| SocketHub.WebSocketManager.constructor | managers/WebSocketManager.js:4-9 | both Maps empty |
| SocketHub.WebSocketManager.HandleConnection | managers/WebSocketManager.js:22-33 | both Maps hold the id; the record has `userId` null and count 0 |
| SocketHub.WebSocketManager.HandleMessage | managers/WebSocketManager.js:41-59 | a parse failure or an unknown id changes nothing; a parsed message is counted first and reaches the handlers only when its log line succeeds |
| SocketHub.WebSocketManager.HandleDisconnect | managers/WebSocketManager.js:61-69 | removes the id from both Maps and nothing else, unless the goodbye log line throws first |
| SocketHub.WebSocketManager.Broadcast | managers/WebSocketManager.js:75-85 | sends to exactly the other OPEN peers; a failing send is skipped |
| SocketHub.WebSocketManager.OnMessage | managers/WebSocketManager.js:87-89 | adding a handler twice changes nothing |
| SocketHub.WebSocketManager.GetConnectedClients | managers/WebSocketManager.js:91-93 | exactly one record per registered connection, in connection order |
| RelayServer.OSCRelay.constructor | server.js:7-10 | empty registry |
| RelayServer.OSCRelay.OnConnection | server.js:14-16 | registers the socket under `addr:port` |
| RelayServer.OSCRelay.OnClose | server.js:30-33 | deletes only that connection's entry |
| RelayServer.OSCRelay.BroadcastToClients | server.js:37-43 | sends to the other OPEN peers in Map order until a send throws |
| RelayServer.OSCRelay.OnFrame | server.js:20-28 | every parsed message is broadcast whatever its type; a frame that does not parse is not |
| Link.ClientCountsEveryClose | client/managers/RelayManager.js:72 | the client copies count every close: after `n` closes in a row the counter is `n` |
| Link.ClientGivesUpOnCloseNumberMax | client/managers/RelayManager.js:72-79 | close number `n+1` retries iff `n+1 < maxRetries`: with 3 retries the third close rejects; the same in client/managers/WebSocketManager.js:72-79 |
| Link.HubCountsRetriesOnly | managers/RelayManager.js:109-110 | the hub copy counts only retried closes: after `n` closes the counter is `min(n, maxRetries)` |
| Link.HubGivesUpAfterMaxRetries | managers/RelayManager.js:109-130 | close number `n+1` retries iff `n < maxRetries`, else the promise rejects |
| Link.UnboundedNeverGivesUp | client/managers/RelayManager.js:73-74 | with `maxRetries` -1 no variant ever gives up |
| Link.DefaultRetriesExample | client/managers/RelayManager.js:7-8 | with the default 3 retries the client copies reject on the third close and the hub copy on the fourth |
| Link.RejectChain | managers/RelayManager.js:115-125 | a rejection keeps the awaiting chain well-formed |
| Link.RejectChainSettles | client/managers/RelayManager.js:87-95 | a rejection settles its call, turns only pending promises into rejections with that reason, and leaves settled ones alone |
| Link.RejectReachesAwaiter | managers/RelayManager.js:119-123 | a failed reconnect rejects the promise awaiting it iff the variant passes rejections on |
| Link.RejectWithoutPropagation | managers/RelayManager.js:120 | without propagation only the failing call is touched |
| Link.RelayLink.constructor | client/managers/RelayManager.js:4-10 | `maxRetries` and `retryDelay` default to 3 and 5000 only when unset; counter 0, no socket |
| Link.RelayLink.Reject | client/managers/RelayManager.js:91-93 | rejecting a call follows the awaiting chain as far as the variant lets it |
| Link.RelayLink.Connect | client/managers/RelayManager.js:12-38 | a stale OPEN or CONNECTING socket is closed and `ws` cleared before a new socket is made; a URL `ws` refuses rejects the new promise; the same in managers/RelayManager.js:77-90; the same in client/managers/WebSocketManager.js:12-31 |
| Link.RelayLink.Send | managers/RelayManager.js:59-63 | written iff the socket is OPEN, otherwise dropped (no queue); the same in client/managers/RelayManager.js:56-60; the same in client/managers/WebSocketManager.js:55-59 |
| Link.RelayLink.SubscribeToOSC | managers/RelayManager.js:139-143 | `osc_subscribe` is written iff the socket is OPEN |
| Link.RelayLink.OnOpen | managers/RelayManager.js:92-96 | the counter goes to 0 and the call resolves; a timer-made call then resubscribes, except in the copy of client/managers/WebSocketManager.js:35-39 |
| Link.RelayLink.OnClose | client/managers/RelayManager.js:69-80 | one counter step, then one reconnect timer after `retryDelay`, or rejection with "Maximum reconnection attempts reached"; the same in managers/RelayManager.js:106-131 with check-then-increment, and in client/managers/WebSocketManager.js:69-80 |
| Link.RelayLink.FireTimer | client/managers/RelayManager.js:82-96 | a firing timer makes one new `connect` call awaited by the call that armed it; the same in client/managers/WebSocketManager.js:82-93 |
| Link.RelayLink.OnMessage | client/managers/RelayManager.js:108-110 | adding a handler twice changes nothing |
| Link.RelayLink.OnFrame | client/managers/RelayManager.js:42-50 | a parsed frame whose type can be logged goes to every handler (until one throws); others reach none; in client/managers/WebSocketManager.js:46-53 every parsed frame goes to the handlers, and in managers/RelayManager.js no frame does |
| Link.TwoPendingReconnects | client/managers/RelayManager.js:12-19 | a user reconnect on a live link leads to two pending reconnect timers |
| LegacyClient.NoFilterPassesAll | client.js:95 | with no filter every message passes |
| LegacyClient.WhitelistSemantics | client.js:96-97 | with compiling patterns, a message passes iff some filter matches: a whitelist |
| LegacyClient.EarlierMatchHidesBadPattern | client.js:96-97 | `some` stops at the first match, so a bad pattern after it never throws |
| LegacyClient.NonTextAddressThrows | client.js:97 | with a filter, an address that is not text makes the filter throw |
| LegacyClient.OSCRelayClient.constructor | client.js:4-12 | no socket, not connected, counter 0, `maxRetries` 5 |
| LegacyClient.OSCRelayClient.Connect | client.js:14-18 | a new socket replaces `ws` and the old one is not closed |
| LegacyClient.OSCRelayClient.OnOpen | client.js:19-24 | connected, counter 0, the promise resolves |
| LegacyClient.OSCRelayClient.OnError | client.js:33-38 | rejects only when not connected and the counter reached `maxRetries` |
| LegacyClient.OSCRelayClient.OnClose | client.js:40-47 | not connected; a retry after 2000 ms while the counter is below `maxRetries`; the counter does not move |
| LegacyClient.OSCRelayClient.FireTimer | client.js:45 | the timer calls `connect` again |
| LegacyClient.OSCRelayClient.OnFrame | client.js:26-31 | a frame that passes the filter goes to every handler; parse or filter errors escape the listener |
| LegacyClient.OSCRelayClient.Send | client.js:62-74 | `{type:'osc_tunnel', address, args}` is written iff the socket is OPEN and the filter passes it |
| LegacyClient.OSCRelayClient.UpdateParameter | client.js:76-84 | sends only when `connected`; a CONNECTING socket throws, a closing one discards |
| LegacyClient.OSCRelayClient.SubscribeToOSC | client.js:55-60 | written iff OPEN |
| LegacyClient.OSCRelayClient.OnMessage | client.js:86-88 | adding a handler twice changes nothing |
| LegacyClient.OSCRelayClient.AddFilter | client.js:90-92 | adding a filter twice changes nothing |
| LegacyClient.FailingReconnects | client.js:35-45 | after any number of failed reconnects the counter is still 0, one more retry is armed and no promise was rejected |
| Osc.Incoming | managers/OSCManager.js:43-44 | the first packet element is the address, the rest the args |
| Osc.OnlyStrictFalseVetoes | managers/OSCManager.js:51-57 | `undefined`, `null`, `0`, `""` and `true` returns never suppress logging |
| Osc.OneVetoSuffices | managers/OSCManager.js:49-55 | one `false` anywhere suppresses logging, in any handler order |
| Osc.OSCManager.constructor | managers/OSCManager.js:4-14 | a sender is pre-created for a set `sendPort`; the prefix follows `!!config.server`; the same in client/managers/OSCManager.js:4-13; the same in server/managers/OSCManager.js:4-13 |
| Osc.OSCManager.CreateSender | managers/OSCManager.js:32-40 | the new sender is stored under its port; other ports keep theirs; the same in client/managers/OSCManager.js:32-41 |
| Osc.OSCManager.Send | managers/OSCManager.js:67-79 | reuses the cached sender and creates one only for a new port; the outgoing log line can throw before the send; the same in client/managers/OSCManager.js:67-78; the same in server/managers/OSCManager.js:67-78 |
| Osc.OSCManager.CreateReceiver | managers/OSCManager.js:16-30 | a server is made; its port is not a receiver yet |
| Osc.OSCManager.OnListening | managers/OSCManager.js:20-23 | the port enters `receivers` only on 'listening', and the promise resolves; in client/managers/OSCManager.js:19-23 and the server copy the port is registered first, and a port that cannot be logged leaves the promise pending |
| Osc.OSCManager.OnServerError | managers/OSCManager.js:25 | an error rejects a promise not yet settled |
| Osc.OSCManager.OnMessage | managers/OSCManager.js:63-65 | adding a handler twice changes nothing |
| Osc.OSCManager.HandleMessage | managers/OSCManager.js:42-61 | every handler is called even after a `false`; the message is logged iff no handler returned exactly `false`, incoming logging is on and the line can be written; the client and server copies (server/managers/OSCManager.js:43-61) fix the prefix |
| DedupLog.KeyDeterminesType | client/managers/logger.js:33 | the same text under another type has another key, so it is not a duplicate |
| DedupLog.DedupKeyInjective | client/managers/logger.js:33 | for colon-free types a key determines type and message |
| DedupLog.ColonInTypeCollides | client/managers/logger.js:33 | a type with a colon lets two different lines share a key |
| DedupLog.Logger.constructor | client/managers/logger.js:5-10 | verbose, nothing remembered |
| DedupLog.Logger.SetVerbose | client/managers/logger.js:21-23 | sets the flag |
| DedupLog.Logger.IsDuplicate | client/managers/logger.js:39-51 | true iff the key is remembered, then nothing changes; a new key is remembered with one timer to forget it |
| DedupLog.Logger.Expire | client/managers/logger.js:46-48 | the oldest timer forgets exactly its key |
| DedupLog.Logger.Log | client/managers/logger.js:25-37 | always one file line; printed iff the console is not skipped and the key is new; with the console skipped the remembered keys are untouched |
| DedupLog.Logger.Info | client/managers/logger.js:62-64 | logs `[component] message` as INFO |
| DedupLog.Logger.Error | client/managers/logger.js:66-68 | logs `[component] ERROR: message` as ERROR |
| DedupLog.Logger.Debug | client/managers/logger.js:70-77 | always written to the file; printed only while verbose; when not verbose the remembered keys stay as they were |
| DedupLog.RepeatWithinWindow | client/managers/logger.js:33-36 | a repeat inside the window goes to the file only; after expiry the message prints again |

## Left out

- The `ws` and `node-osc` libraries, JSON parsing and serialisation: a frame is either
  malformed or a parsed `Value`, and a socket is a ready state plus whether `send` throws.
- Console output text, timestamps, `Date`, connection durations and the log file on disk.
  Log lines are modelled only by whether they throw, except in the logger, whose file and
  console lines are recorded without timestamps.
- Floating-point numbers: `Js.Value` numbers are integers.
- Glob.Judge: addresses and patterns are sequences of Unicode code points, and `.` consumes
  one code point. The source's regexes have no `u` flag, so there `.` consumes one UTF-16
  code unit: "a.b" matches "a😀b" in the model but not in the program.
- Bridge.ClientBridge.ReceiverListening: `oscQueryManager.start()`, awaited between the
  sender and the handlers, is taken to resolve; its failure, which would also leave both
  handlers unregistered, is not modelled.
- Regular expressions: `Glob` covers patterns built from text, `.` and `*` after the first
  star is rewritten. Any other regex syntax goes to an uninterpreted verdict parameter,
  and so do the user's whitelist regexes in client.js.
- Bridge.ProcessMessage: blacklist entries that are not text, and lists that are not
  arrays, are not modelled (a YAML list of strings is assumed). A truthy address that is
  not text is converted by a parameter standing for JavaScript's string conversion.
- Bridge.ClientBridge.OnRelayMessage: the console line's text is not recorded, only
  whether it throws.
- Bridge.User: the configured name and id are text, with the empty text standing for a
  missing field; a non-text name or id is not modelled.
- `loadConfig`/`saveConfig` (YAML and the file system), OSCQuery, VRChat parameter
  discovery, the keyboard controls and the startup block of client/client.js. The
  configuration is a `Config` value. The generated id is a parameter instead of
  `Math.random`.
- The registration of the bridge's handlers with its managers: the handlers are modelled
  as the methods `OnLocalMessage` and `OnRelayMessage`.
- `logger.discovery` and `setLogPath` of client/managers/logger.js: text formatting and
  directory creation only.
- The server-start methods (`startServer`, `setupRelayServer`): they only create the
  listening socket, which is foreign.
- Concurrency: every event is a separate, atomic step, as in the single-threaded event
  loop; the order of events is chosen by the caller of the model.

## Findings

| source | as written | input that shows it | evidently intended | confidence | as-written member | corrected member |
|---|---|---|---|---|---|---|
| client/client.js:203 | `handleParameterUpdate` reads `this.parameters.has(...)`, but no code assigns `this.parameters`, so the first statement throws a TypeError every time | any parameter update on a freshly constructed client | `parameters` starts as an empty Map, each update is recorded, and `userId` is derived from the configured name or id | high (not executed) | Bridge.FreshClientNeverDerivesUserId | Bridge.InitialisedClientDerivesUserId |
| client/client.js:64 | the inbound handler is declared `(message) =>`, but managers/RelayManager.js:46 calls every handler as `handler(clientId, message)`, so `message` is the connection id text, `message.type` is undefined and nothing is ever re-emitted | any tunnel message a peer sends through the hub half | the handler is declared `(clientId, message) =>` and re-emits tunnel messages not marked as relayed to the local send port | high (not executed) | Bridge.HubPassesConnectionId | Bridge.ClientBridge.OnRelayMessage |
