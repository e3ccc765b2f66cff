# Cursor Web relay, channel and injector — a Dafny model

Cursor Web mirrors the chat panel of the Cursor editor into a web page. The
project has three cooperating pieces, each modelled here.

- **The relay server** (`app.js`) keeps one process-wide chat-content string
  and a set of connected WebSocket clients. It updates the content from
  `html_content` and `clear_content` messages and replays it to every client
  that joins. It broadcasts to the other OPEN clients, deleting any client
  whose `send` throws. It answers `ping` and `debug` directly, prunes
  non-OPEN clients every 30 seconds, and accepts content over `POST
  /api/content`. Module `Relay` holds this: pure transitions on
  `RelayState` (content and client sequence) plus a class `RelayServer`
  whose methods are the event handlers, each proved to realise its
  transition. `outbox` records every send that did not throw.
- **The injected client** (`inject.js`) has two parts.
  - `WSManager` is a reconnecting WebSocket channel. It has an outbound
    queue, a heartbeat, and a cap of five reconnect attempts 3000 ms apart.
  - `AIResponseListener` forwards chat messages found in the page, at most
    once per message id.

  Module `Channel` models the manager's whole state as the value `Link`, with
  one pure step per handler. A class `WSManager` has one method per handler,
  and each is proved equal to its step. The listener's deduplication is the
  function `Scan`. The class `AIResponseListener` has its loops proved
  against `Scan`.
- **The launcher** (`scripts/auto-inject-cursor.js`) waits for Cursor's
  DevTools port. It then injects the browser script into every relevant
  target it lists, and into every relevant target created later. Module
  `Injector` models target selection and the wrapping of the script. Each
  injection session is the trace of DevTools calls it makes, with every
  call's outcome a parameter. It also models the sweep, the `targetCreated`
  feed, the readiness wait and `main`.

Time, the outcome of each `send`, and which sockets are OPEN are inputs:
`World` in the relay, and `throws`, `stamps`, `SessionOutcomes`, `Probe` and
the clock elsewhere. Strings are sequences of characters. Module `Text`
models `startsWith`, `includes` and `trim`, using ECMAScript's whitespace
set, and `length` as a count of UTF-16 code units. Module `Seqs` holds
generic sequence facts.

Behaviours of the code worth noting:

- `test` is broadcast to the other clients as `test_response`; it is not
  echoed to the sender.
- `cursor_message`, the frame the listener sends, has no case in the
  server's `switch`. It is logged and dropped.
- `connect` is a no-op only for an OPEN socket, not for a CONNECTING one.
- `onerror` only clears the connected flag. It neither stops the heartbeat
  nor schedules a reconnect.
- The outbound queue is unbounded and drops nothing.
- Nothing remembers the targets the sweep handled. A target that is both
  listed and announced is attached to twice, one session each
  (`Injector.NoDedupAcrossSweepAndFeed`).
- The client set is not "exactly the OPEN clients" at all times. A client
  that stops being OPEN stays registered until its `close` or `error`
  event or the next prune removes it. A broadcast skips it, and deletes
  only OPEN clients whose `send` throws.
- "Connected" does not mean "OPEN". The browser marks a closing socket
  CLOSING before `onclose` clears `isConnected`, and a message sent in that
  window is queued (`Channel.ClosingWindowDefersSends`).
- An element with neither `id` nor `data-message-index` gets a fresh
  random id at every parse, so every scan forwards it again
  (`Channel.UnnamedElementForwardedAgain`).

## Model

| member | source | states |
|---|---|---|
| Relay.Eligible | app.js:427 | a broadcast target: OPEN and not the sender |
| Relay.HasContent | app.js:305 | JavaScript truthiness of the content: present and not the empty string; `JoinReplays` and `NoReplayAfterClear` state its effect |
| Relay.Deliveries | app.js:426-436 | a broadcast makes no more deliveries than there are registered clients, each carrying the envelope to a registered client that is OPEN, not the sender, and whose send does not throw |
| Relay.BroadcastStep | app.js:422-441 | the broadcast as a transition; `DeliveredIff`, `DeliveredAtMostOnce` and `Survivors` state what it sends and whom it keeps |
| Relay.Delete | app.js:409 | `Set.delete`: the client is gone afterwards, every other client's membership is unchanged, and deleting an absent client changes nothing |
| Relay.Survivors | app.js:426-436 | after a broadcast a client is still registered exactly when it was, unless it was OPEN, not the sender, and its send threw |
| Relay.DeliveredIff | app.js:422-436 | a broadcast reaches a client iff the client is registered, OPEN, not the sender, and its send does not throw |
| Relay.DeliveredAtMostOnce | app.js:426-436 | no client receives the same broadcast twice |
| Relay.Handle | app.js:321-405 | the message handler as a transition; the lemmas below state what each message type does |
| Relay.HandleKeepsDistinct | app.js:321-405 | no message handler ever makes the client set hold a client twice |
| Relay.HandleOnlyDropsFailedSends | app.js:326-400 | a message never adds a client; a client disappears only if it was OPEN and its send threw, and the sender only through `clear_content` or `sync_clear_timestamp`, which do not skip it |
| Relay.SenderNeverReceives | app.js:326-354 | `html_content`, `user_message` and `test` never send anything to their sender, and send only to OPEN clients |
| Relay.HtmlContentRelayed | app.js:327-334 | `html_content` makes its html the content, and relays the envelope itself, at most once each, to exactly the other registered OPEN clients whose send does not throw |
| Relay.ClearContentReachesAll | app.js:378-388 | `clear_content` empties the content and notifies every registered OPEN client whose send does not throw, the sender included, stamped with the message's timestamp when truthy and the current time otherwise |
| Relay.Reply | app.js:363-375 | a direct `ws.send` to one client, not guarded by its ready state; `PingAndDebugReplyToSender` states its effect |
| Relay.PingAndDebugReplyToSender | app.js:356-376 | `ping` and `debug` send exactly one `pong` or `debug_response` to the sender (none if that send throws) and change no state |
| Relay.IgnoredMessages | app.js:398-404 | an unparseable payload, an unknown type, or `html_content` without data changes nothing and sends nothing |
| Relay.ContentLastWriteWins | app.js:326-388 | only `html_content` and `clear_content` change the content, and each replaces it outright |
| Relay.Join | app.js:298-318 | the connection handler as a transition; `JoinReplays` and `NoReplayAfterClear` state its effect |
| Relay.JoinReplays | app.js:298-318 | a connecting client is registered once; when the content is non-empty it alone is sent exactly one replay of that content |
| Relay.NoReplayAfterClear | app.js:378-388 | after `clear_content`, a client that connects is sent nothing |
| Relay.RelayScenario | app.js:302-334 | client A posts html; the registered OPEN client B receives exactly that envelope; a client C connecting later receives a replay of that html |
| Relay.Leave | app.js:408-418 | the close and error handlers as a transition; `LeaveDeletes` states its effect |
| Relay.Prune | app.js:444-457 | the prune as a transition; `PruneKeepsOpen` and `OpenOnlyFull` state its effect |
| Relay.PostContent | app.js:65-100 | the POST route as a transition with its status; `PostContentRoutesToBroadcast` states its effect |
| Relay.LeaveDeletes | app.js:408-418 | `close` and `error` delete exactly that client; repeating it or deleting an unknown client changes nothing |
| Relay.PruneKeepsOpen | app.js:444-457 | the prune keeps exactly the OPEN clients, never grows the set, and is idempotent |
| Relay.OpenOnlyFull | app.js:453-456 | when the prune keeps as many clients as there were, it keeps them all, in place, so skipping the reassignment is sound |
| Relay.PostContentRoutesToBroadcast | app.js:65-100 | `POST /api/content` with html answers 200, sets the content, sends the posted data and nothing else to exactly the registered OPEN clients whose send does not throw, and deletes exactly the OPEN clients whose send throws; with data lacking html it answers 500, leaves the content cleared and sends nothing; any other body answers 400 and changes nothing |
| Relay.RelayServer.constructor | app.js:12-13 | empty content and no clients |
| Relay.RelayServer.Broadcast | app.js:422-441 | the `forEach` loop with deletion in the middle leaves the survivors, appends the deliveries in order, and counts them |
| Relay.RelayServer.BroadcastTo | app.js:426-435 | one callback: it sends iff the client is eligible and its send does not throw, and deletes it iff the send throws |
| Relay.RelayServer.Connect | app.js:298-318 | the connection handler realises `Join` and keeps the set distinct |
| Relay.RelayServer.OnMessage | app.js:321-405 | the message handler realises `Handle` |
| Relay.RelayServer.SendReply | app.js:363-375 | a direct reply goes out unless its send throws; the state is unchanged |
| Relay.RelayServer.Disconnect | app.js:408-418 | close and error realise `Leave` |
| Relay.RelayServer.PruneTick | app.js:444-457 | the interval body's loop realises `Prune` |
| Relay.RelayServer.HandlePost | app.js:65-100 | the POST route realises `PostContent`, including status 500 when `data.html` is missing |
| Channel.ScheduleStep | inject.js:333-344 | `scheduleReconnect` as a step; `ReconnectBudget` states its effect |
| Channel.ConnectStep | inject.js:26-38 | `connect` as a step; `ConnectOutcomes` states its effect |
| Channel.TimerStep | inject.js:338-340 | the reconnect timeout firing as a step: it consumes its timer and connects |
| Channel.OpenStep | inject.js:41-47 | `onopen` as a step; `OpenFlushesQueue` states its effect |
| Channel.ReceiveStep | inject.js:49-98 | `onmessage` as a step; `ReceiveEffects` states its effect |
| Channel.CloseStep | inject.js:58-63 | `onclose` as a step; `CloseAndError` states its effect |
| Channel.ErrorStep | inject.js:65-68 | `onerror` as a step; `CloseAndError` states its effect |
| Channel.ClosingStep | inject.js:58-63 | the browser marking an OPEN socket CLOSING before `onclose` runs; `ClosingWindowDefersSends` states its effect |
| Channel.BeatStep | inject.js:319-323 | one heartbeat tick as a step; `HeartbeatPingsOnlyWhenConnected` states its effect |
| Channel.SendStep | inject.js:302-308 | `send` keeps the manager invariant and appends the frame to everything sent so far |
| Channel.FlushStep | inject.js:310-315 | flushing while connected transmits the whole queue in order and leaves it empty |
| Channel.SendAll | inject.js:302-308 | `send` on many frames keeps the invariant, appends them all in order, and changes nothing else |
| Channel.Inv | inject.js:26-68 | the manager invariant: the attempt cap, and an empty queue whenever `send` would transmit at once; `StepsKeepInv` shows every step keeps it |
| Channel.StepsKeepInv | inject.js:26-68 | every handler, and the browser marking the socket CLOSING, keeps the attempt cap and "connected with an OPEN socket implies an empty queue" |
| Channel.SendTransmitsIffConnected | inject.js:302-308 | `send` transmits iff connected and OPEN, and queues iff not |
| Channel.OpenFlushesQueue | inject.js:41-47 | on open: connected, attempts reset, heartbeat running, and every queued frame transmitted in enqueue order |
| Channel.FlushStallsWhenDisconnected | inject.js:310-315 | without a connection one round of the flush loop rotates the queue without shortening it |
| Channel.ConnectOutcomes | inject.js:26-47 | `connect` changes nothing at all when the socket is already OPEN; otherwise it sends nothing and leaves the connected flag and heartbeat alone; it spends one reconnect attempt and one timer iff the socket is not OPEN, construction throws and the cap is not reached; a socket it opens that then fires `onopen` is connected and OPEN with attempts reset, heartbeat running and the whole queue transmitted after what went before |
| Channel.ClosingWindowDefersSends | inject.js:302-308 | a frame sent after the socket turned CLOSING but before `onclose` is queued, not transmitted, although the manager still counts as connected; after `onclose`, a reconnect timer and `onopen` it is transmitted after everything sent before it |
| Channel.ReconnectBudget | inject.js:333-344 | `k` failures in a row raise the attempt count to `min(attempts + k, 5)` and schedule exactly that many timers; at the cap nothing more is scheduled |
| Channel.CloseAndError | inject.js:58-68 | close disconnects, stops the heartbeat and schedules a reconnect iff below the cap; error only clears the flag |
| Channel.HeartbeatPingsOnlyWhenConnected | inject.js:317-324 | a heartbeat tick sends one `ping` iff connected |
| Channel.ReceiveEffects | inject.js:49-98 | a `ping` is answered by exactly one `pong`; only `ai_chat` and `web_message` with non-empty text reach the Cursor input, carrying that text |
| Channel.WSManager.constructor | inject.js:21-24 | a new manager starts from the initial state and connects |
| Channel.WSManager.Connect | inject.js:26-38 | realises `ConnectStep` |
| Channel.WSManager.ScheduleReconnect | inject.js:333-344 | realises `ScheduleStep` |
| Channel.WSManager.ReconnectTimerFires | inject.js:338-340 | the timeout callback consumes its timer and connects |
| Channel.WSManager.Send | inject.js:302-308 | realises `SendStep` |
| Channel.WSManager.FlushMessageQueue | inject.js:310-315 | the `shift`/`send` loop realises `FlushStep` |
| Channel.WSManager.StartHeartbeat | inject.js:317-324 | the heartbeat is running and nothing else changes |
| Channel.WSManager.StopHeartbeat | inject.js:326-331 | the heartbeat is stopped and nothing else changes |
| Channel.WSManager.OnOpen | inject.js:41-47 | realises `OpenStep` |
| Channel.WSManager.OnMessage | inject.js:49-98 | realises `ReceiveStep` |
| Channel.WSManager.OnClosing | inject.js:58-63 | realises `ClosingStep` and keeps the manager invariant |
| Channel.WSManager.OnClose | inject.js:58-63 | realises `CloseStep` |
| Channel.WSManager.OnError | inject.js:65-68 | realises `ErrorStep` |
| Channel.WSManager.HeartbeatTick | inject.js:319-323 | realises `BeatStep` |
| Channel.TextOf | inject.js:468 | an element's text: its `textContent` when that is non-empty, its `innerText` otherwise |
| Channel.IsValidMessage | inject.js:467-470 | `isValidMessage` on the element's text, its length counted in UTF-16 code units; the lemmas below state its effect |
| Channel.MessageLengthBounds | inject.js:467-470 | a text whose trim has at most 2 characters is never a message; one whose trim has more than 5 is a message unless it contains "Load older messages"; a text containing that marker never is |
| Channel.AstralTextIsAMessage | inject.js:469 | three to eighteen characters outside the Basic Multilingual Plane (three emoji, say) make a message, although fewer than six characters, because `length` counts each as two |
| Channel.ValidIgnoresPadding | inject.js:467-470 | whitespace around a text never changes whether it is a message |
| Channel.DetectMessageType | inject.js:488-516 | `detectMessageType`; `DetectUserIff` and `DetectIgnoresText` state its effect |
| Channel.MessageIdOf | inject.js:474 | the message id: the `id` attribute, else `data-message-index`, else the random fallback; `RescanForwardsNothing` and `UnnamedElementForwardedAgain` state its effect |
| Channel.ParseMessage | inject.js:472-486 | `parseMessage`: the id, the trimmed text and the role |
| Channel.Scan | inject.js:431-441 | the deduplicating scan; `ScanForwardsUnseenOnce`, `ScanAppend` and `ScanAllSeen` state its effect |
| Channel.DetectUserIff | inject.js:488-516 | the role is `user` iff the class or markup has a user marker or the element is right-aligned; otherwise it is `ai` |
| Channel.DetectIgnoresText | inject.js:509-515 | the text heuristics decide nothing: the role does not depend on the element's text |
| Channel.ScanForwardsUnseenOnce | inject.js:431-441 | a scan forwards only messages whose id was not processed, each id at most once; it processes exactly the forwarded ids, and afterwards every scanned id is processed |
| Channel.ScanAppend | inject.js:518-537 | scanning two lists in turn is scanning their concatenation |
| Channel.ScanAllSeen | inject.js:436-439 | a scan over ids that are all processed forwards nothing |
| Channel.RescanForwardsNothing | inject.js:380-382 | rescanning the same elements when each has an `id` or `data-message-index` forwards nothing, whatever the fallback stamps |
| Channel.UnnamedElementForwardedAgain | inject.js:474 | an element with no id attribute is forwarded again by every scan |
| Channel.AIResponseListener.constructor | inject.js:349-355 | no id is processed and nothing is forwarded |
| Channel.AIResponseListener.SendMessage | inject.js:539-547 | the message is sent as a `cursor_message` frame through the manager, if there is one |
| Channel.AIResponseListener.Consider | inject.js:434-440 | one element is parsed and forwarded iff its id is new; the listener invariant (forwarded ids distinct and processed) is kept |
| Channel.AIResponseListener.ExtractAllMessages | inject.js:431-441 | the loop forwards exactly what `Scan` forwards, in order, and sends exactly those frames through the manager |
| Channel.AIResponseListener.CheckForNewMessages | inject.js:518-537 | the node itself (when valid), then its child messages, are scanned as one list |
| Text.IsJsWhitespace | inject.js:469 | the ECMAScript white-space and line-terminator characters that `trim` removes |
| Text.StartsWith | scripts/auto-inject-cursor.js:108-112 | `startsWith`: the string begins with the prefix |
| Text.Utf16Length | inject.js:469 | `length` counts between one and two code units per character, exactly one each when all lie in the Basic Multilingual Plane |
| Text.Utf16LengthAstral | inject.js:469 | characters outside the Basic Multilingual Plane count two code units each |
| Text.TrimUnframed | inject.js:469 | a text that neither starts nor ends with whitespace trims to itself |
| Text.Contains | inject.js:469 | `includes` is true iff the string occurs at some index |
| Text.Trim | inject.js:469 | `trim` yields a slice framed by whitespace on both sides, which neither starts nor ends with whitespace |
| Text.TrimIdempotent | inject.js:481 | trimming twice is trimming once |
| Text.TrimEmptyIffBlank | inject.js:469 | a text trims to empty iff it is all whitespace |
| Text.TrimIgnoresPadding | inject.js:481 | whitespace added around a text does not change its trim |
| Text.ContainsIgnoresPadding | inject.js:469 | whitespace added around a text does not change whether it contains a word that starts and ends with a non-space |
| Injector.UrlOf | scripts/auto-inject-cursor.js:105 | a target's URL, or the empty string when it has none |
| Injector.TargetLooksRelevant | scripts/auto-inject-cursor.js:101-116 | `targetLooksRelevant`; the three lemmas below state its effect |
| Injector.IrrelevantTargets | scripts/auto-inject-cursor.js:101-116 | a missing target, a target of another type, and a target without a URL are never relevant |
| Injector.RelevantByScheme | scripts/auto-inject-cursor.js:104-113 | a page, webview or other target whose URL starts with an editor scheme is relevant |
| Injector.RelevantByWorkbench | scripts/auto-inject-cursor.js:104-113 | ... as is one whose URL contains `workbench` anywhere |
| Injector.RelevantTargets | scripts/auto-inject-cursor.js:144 | the filter keeps exactly the relevant targets, and never more targets than it is given |
| Injector.RelevantTargetsAppend | scripts/auto-inject-cursor.js:144 | the filter of a concatenation is the concatenation of the filters, so it keeps the listed order |
| Injector.RelevantTargetsSnoc | scripts/auto-inject-cursor.js:144 | the filter of nothing is nothing, and a target appended to a list is kept, at the end, exactly when it looks relevant |
| Injector.Wrap | scripts/auto-inject-cursor.js:79 | the `try`/`catch` IIFE around the script; `UnwrapWrap`, `WrapUnwrap` and `WrapInjective` state its effect |
| Injector.UnwrapWrap | scripts/auto-inject-cursor.js:79 | unwrapping the wrapped script gives the script back |
| Injector.WrapUnwrap | scripts/auto-inject-cursor.js:79 | whatever unwraps is exactly the wrapping of its script |
| Injector.WrapInjective | scripts/auto-inject-cursor.js:79 | different scripts give different injected sources |
| Injector.BuildInjectionSource | scripts/auto-inject-cursor.js:72-80 | a source exists iff the script file does, and it unwraps to the file's contents |
| Injector.SessionTrace | scripts/auto-inject-cursor.js:82-99 | the DevTools calls one injection session makes, given each call's outcome; `SessionLifecycle` states its effect |
| Injector.SessionLifecycle | scripts/auto-inject-cursor.js:82-99 | a session attaches once, first; it is closed iff opened, last and only once; the script is installed iff attaching and both enables succeed, and evaluated iff installing succeeds too, right after it |
| Injector.AttachedSession | scripts/auto-inject-cursor.js:82-99 | a session attaches to its own target and nothing else |
| Injector.InjectIntoTarget | scripts/auto-inject-cursor.js:82-99 | the session's calls are its trace |
| Injector.Sessions | scripts/auto-inject-cursor.js:149-152 | the sessions of the sweep, one after another; `AttachedSessions` states its effect |
| Injector.AttachedSessions | scripts/auto-inject-cursor.js:149-152 | the sessions for a list attach to exactly that list, in order |
| Injector.Sweep | scripts/auto-inject-cursor.js:143-152 | the sweep opens one session per relevant listed target, in list order |
| Injector.OnTargetCreated | scripts/auto-inject-cursor.js:159-168 | the handler opens a session iff the announced target is relevant |
| Injector.FeedTrace | scripts/auto-inject-cursor.js:159-168 | the `targetCreated` handler run on each announced target in turn; `AttachedFeed` states its effect |
| Injector.AttachedFeed | scripts/auto-inject-cursor.js:154-173 | the feed attaches to exactly the relevant announced targets, in order |
| Injector.Watch | scripts/auto-inject-cursor.js:154-173 | the subscription runs the handler on each announced target and attaches to exactly the relevant ones |
| Injector.NoDedupAcrossSweepAndFeed | scripts/auto-inject-cursor.js:143-168 | a relevant target that is listed and then announced is attached to twice |
| Injector.Ready | scripts/auto-inject-cursor.js:50-52 | a probe succeeds exactly when it answers status 200 |
| Injector.Settle | scripts/auto-inject-cursor.js:45-70 | the wait resolves at the first 200, rejects at the first failed probe after the timeout, and otherwise stays pending; every probe before the settling one failed within the timeout |
| Injector.WaitForCdp | scripts/auto-inject-cursor.js:45-70 | the probe loop ends as `Settle` says |
| Injector.SettlesWithinBudget | scripts/auto-inject-cursor.js:45-70 | with probes at least 500 ms apart, the wait settles within `timeoutMs / 500 + 2` probes |
| Injector.Run | scripts/auto-inject-cursor.js:118-179 | exit code 2 iff Cursor is missing; exit code 1 iff the wait settles without success or the script or the listing fails; no exit code iff Cursor is found and the wait is still pending or everything succeeds; in the latter case it attaches to the relevant listed targets, then to the relevant announced ones |

## Left out

- The git routes, the health, status and read routes, the static file
  route and the Express middleware of `app.js`. They do not touch the
  content or the client set in any way the model tracks.
- Serialisation. Envelopes are values, and `JSON.parse` is either a parsed
  message or `Unparseable`. Non-string `html`, `message` or `url` values are
  not modelled.
- Real timers, `Date.now()` and `Math.random()`. The 30-second prune, the
  heartbeat interval and the reconnect timeout are handler calls. The
  current time is `World.now`. The random fallback id is the `stamp`
  parameter.
- `sendToCursor`, `findCursorInput`, the send-button search, `findChatContainer`,
  `findMessages`, the `MutationObserver` setup and `init`. These are DOM
  heuristics. The model takes their result (the input text, the elements
  found) as input.
- `sendAIResponse`: nothing in the source calls it.
- Unpaired surrogate code units. A Dafny character is a Unicode scalar
  value, so a JavaScript string holding half of a surrogate pair has no
  counterpart in the model.
- The `timestamp` and `element` fields of a parsed message, which are
  formatting only.
- Handlers of a replaced socket. The model has one current socket, so an
  event from a socket `connect` has already replaced is not modelled.
- Channel.WSManager: the globals `ws`, `reconnectAttempts`, `heartbeatTimer`
  and `isConnected` are fields of the manager object, because only it
  touches them.
- `resolveCursorPath`, `spawn`, `readFileSync` and `process.exit`. The
  executable lookup is the boolean `cursorFound`. The file read is
  `Option<string>`. The exit call is the returned `exitCode`.
- The DevTools and HTTP transports. Every call's outcome is an oracle
  parameter, and failures of `evaluate` or `close` do not change what a
  session does.
- Node's `error` event after `req.destroy()` on a probe timeout, which can
  schedule a second `tryOnce`. The model settles on one outcome per probe.
- Injector.WaitForCdp: a wait that has not settled after the probes given
  is `Pending`. The model does not produce the unbounded retry sequence
  itself.
- Concurrency between the sweep and `targetCreated` callbacks. The model
  runs the sweep first, then the feed, because the source awaits the sweep
  before subscribing.
- Injector.Watch: the `targetCreated` handler is async and nobody awaits
  it, so the sessions of targets announced close together interleave their
  DevTools calls. The model runs each handler to completion before the next
  one, so the order of calls across sessions is not modelled; which
  targets are attached to does not depend on it.
