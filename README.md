# vscode-browser-devtools core, modelled in Dafny

This project models the logic of the extension that puts the browser DevTools
inside VS Code, and proves properties of that model. It covers four pieces.

- **Message streams** (`src/utils/rpc/IMessageStream.ts`, `src/host/WindowLikeStream.ts`).
  - `BufferingMessageStream` queues incoming messages until a listener is set. It then flushes them in order, and `dispose` forgets the queue.
  - `messageStreamWithIncomingBuffer` runs the same state machine in closure variables in front of another stream.
  - `logMessageStream` forwards every call.
  - `SimpleTypedMessageConnection` sends `{method, args}` envelopes and dispatches incoming envelopes to a handler table.
  - `WindowLikeStream` admits only object-typed data posted by its peer window.
- **The Chrome DevTools Protocol client** (`src/extension/debugService/CdpClient.ts`).
  - Request ids are `"cdpClient" + n`.
  - Pending requests are settled by responses.
  - Events fan out to subscribers in registration order.
  - Only the first subscriber of an event triggers the upstream `JsDebug.subscribe` request.
  - A subscription's disposer removes the first occurrence of its callback.
  - Bindings filter `Runtime.bindingCalled` by name, and the typed form decodes and validates the payload leniently.
- **Debug-session helpers** (`src/extension/debugService/JsDebugSupport.ts`).
  - The memoising `Lazy` cell.
  - The `ws://host:port[path]` proxy address.
  - The per-proxy session registry with its allow-list of session types.
  - The fail-closed `supportsDevTools` probe.
- **Utilities** (`src/utils/utils.ts`): `compareArrays`, `isDefined`, and the `isErr` tests.

How the model is built:

- Code that updates fields or closure variables in place is modelled as Dafny classes. Their methods are proved against pure specification functions (`State() == Receive(old(State()), m)`, `State() == OnFrame(codec, old(State()), f)`).
- Lemmas about those functions carry the properties: conservation of messages, request correlation, ordered fan-out, round trips, and evaluate-once.
- Listeners, callbacks and handlers are opaque tokens. Calling one is recorded in a log (`delivered`, `invoked`), and settling a promise is recorded in `settled`.
- JavaScript values crossing a boundary are the `Json` datatype.
- `JSON.parse`, binding validators, the VS Code command that locates the debug proxy, and the WebSocket are inputs rather than code.

Files:

- `wrappers.dfy`: `Option`.
- `js_values.dfy`: `Json`, `typeof`, decimal rendering of numbers, `indexOf`.
- `utils.dfy`
- `message_streams.dfy`
- `typed_connection.dfy`
- `window_like_stream.dfy`
- `cdp_client.dfy`
- `js_debug_support.dfy`

## Model

| member | source | states |
|---|---|---|
| Utils.IsDefined | src/utils/utils.ts:36-38 | true exactly when the value's `typeof` is not "undefined", so `null` counts as defined |
| Utils.ErrorKindsDisjoint | src/utils/utils.ts:19-47 | `ErrorMessage.isErr` and `Failed.isErr` never both hold, and a value that is neither kind passes neither test |
| Utils.CompareArrays | src/utils/utils.ts:62-70 | the loop with early return answers true exactly when the lengths match and `compare` holds at every index; different lengths give false |
| Utils.StrictPairwiseIsEquality | src/utils/utils.ts:62-69 | with the default `===` comparer, arrays compare equal exactly when they are the same sequence |
| Utils.StrictCompareIsEquivalence | src/utils/utils.ts:62-69 | with the default comparer the comparison is reflexive and symmetric, and two empty arrays compare equal |
| MessageStreams.ReceiveConserves | src/utils/rpc/IMessageStream.ts:35-41 | with a listener, exactly one delivery of the message to that same listener is appended, and the listener and buffer are unchanged; without one, nothing is delivered and the message joins the end of the buffer; delivered messages followed by the buffer gain exactly this message |
| MessageStreams.AttachFlushes | src/utils/rpc/IMessageStream.ts:43-49 | `setListener` installs the new listener and leaves the buffer empty; it appends exactly one delivery per buffered message, each to the new listener, in arrival order, and keeps earlier deliveries |
| MessageStreams.RunConserves | src/utils/rpc/IMessageStream.ts:35-49 | across any receives and `setListener` calls without `dispose`, delivered messages followed by the buffer equal the received messages: nothing lost, duplicated or reordered, and no delivery retracted |
| MessageStreams.BufferStaysEmpty | src/utils/rpc/IMessageStream.ts:36-49 | once a listener is set, the buffer stays empty for every later receive or `setListener` until `dispose` |
| MessageStreams.DisposeForgetsBuffer | src/utils/rpc/IMessageStream.ts:51-54 | `dispose` leaves no listener and no buffer; every later delivery is of a message that arrived after it, so the discarded messages are never delivered |
| MessageStreams.BufferingMessageStream.constructor | src/utils/rpc/IMessageStream.ts:29-31 | a new stream has no listener, an empty buffer and no deliveries |
| MessageStreams.BufferingMessageStream.HandleIncomingMessage | src/utils/rpc/IMessageStream.ts:35-41 | the new state is `Receive` of the old state and the message |
| MessageStreams.BufferingMessageStream.SetListener | src/utils/rpc/IMessageStream.ts:43-49 | the flush loop leaves the state `Attach` of the old state and the listener |
| MessageStreams.BufferingMessageStream.Dispose | src/utils/rpc/IMessageStream.ts:51-54 | the new state is `Discard` of the old one: no listener, empty buffer, deliveries kept |
| MessageStreams.PeerStream.SetListener | src/utils/rpc/IMessageStream.ts:3-7 | a wrapped stream records the listener it was given and nothing else |
| MessageStreams.PeerStream.SendMessage | src/utils/rpc/IMessageStream.ts:3-7 | a wrapped stream records one more sent message and nothing else |
| MessageStreams.PeerStream.Dispose | src/utils/rpc/IMessageStream.ts:3-7 | a wrapped stream records that it was disposed and nothing else |
| MessageStreams.IncomingBufferStream.constructor | src/utils/rpc/IMessageStream.ts:57-67 | the closure state starts empty, and the buffering closure becomes the wrapped stream's listener; nothing is sent or disposed |
| MessageStreams.IncomingBufferStream.OnInnerMessage | src/utils/rpc/IMessageStream.ts:61-67 | a message from the wrapped stream acts like `_handleIncomingMessage` (`Receive`) |
| MessageStreams.IncomingBufferStream.SetListener | src/utils/rpc/IMessageStream.ts:71-77 | the flush loop over the closure buffer leaves the state `Attach` of the old one |
| MessageStreams.IncomingBufferStream.SendMessage | src/utils/rpc/IMessageStream.ts:70 | the message is sent on the wrapped stream unchanged and nothing else changes there |
| MessageStreams.IncomingBufferStream.Dispose | src/utils/rpc/IMessageStream.ts:78-81 | the closure state is `Discard`ed; the wrapped stream is not disposed |
| MessageStreams.LoggingStream.constructor | src/utils/rpc/IMessageStream.ts:9-10 | the logging stream wraps the given stream |
| MessageStreams.LoggingStream.SendMessage | src/utils/rpc/IMessageStream.ts:11-14 | the message is forwarded unchanged, once |
| MessageStreams.LoggingStream.SetListener | src/utils/rpc/IMessageStream.ts:15-21 | the wrapped stream's listener becomes the logging wrapper of the caller's listener |
| MessageStreams.LoggingStream.Dispose | src/utils/rpc/IMessageStream.ts:22-25 | the wrapped stream is disposed, nothing else changes |
| TypedConnections.ProtoEnvelopeThrows | src/utils/rpc/IMessageStream.ts:118-122 | as written, an envelope naming `__proto__` that is not a handler throws instead of being ignored |
| TypedConnections.KeyArgumentEnvelopeThrows | src/utils/rpc/IMessageStream.ts:119-120 | as written, `hasOwnProperty` with the argument `{"toString": 0}` throws, while with a string argument it is ignored |
| TypedConnections.Dispatch | src/utils/rpc/IMessageStream.ts:118-122 | an own key of the handler table invokes that handler with the envelope's arguments; any other name is ignored and nothing throws |
| TypedConnections.DispatchDiffersOnlyOnInheritedMembers | src/utils/rpc/IMessageStream.ts:119-120 | the as-written and intended receive sides differ exactly on envelopes that name no handler but an inherited member whose call with those arguments throws (`__proto__`, `__defineGetter__`, `__defineSetter__` always; `hasOwnProperty`, `propertyIsEnumerable`, `__lookupGetter__`, `__lookupSetter__` when the first argument cannot be converted to a string), and there the as-written side throws |
| TypedConnections.DispatchAllKnown | src/utils/rpc/IMessageStream.ts:118-122 | a run of envelopes with known names makes one handler call per envelope, in arrival order, with its arguments |
| TypedConnections.DispatchAllUnknown | src/utils/rpc/IMessageStream.ts:118-122 | envelopes with unknown names make no handler call |
| TypedConnections.TypedMessageConnection.constructor | src/utils/rpc/IMessageStream.ts:98-123 | the connection installs its dispatcher as the stream's listener and sends nothing |
| TypedConnections.TypedMessageConnection.Call | src/utils/rpc/IMessageStream.ts:110-116 | `api.<name>(...args)` sends exactly one envelope `{method: name, args}` and has no other effect on the stream |
| TypedConnections.TypedMessageConnection.Receive | src/utils/rpc/IMessageStream.ts:118-122 | receiving an envelope adds exactly the handler calls the intended `Dispatch` prescribes; envelopes on which the source throws (see `DispatchAsWritten`) are ignored here |
| WindowLikeStreams.WindowLike.PostMessage | src/host/WindowLikeStream.ts:4 | a window records each posted datum with its target origin |
| WindowLikeStreams.AdmitsObjectTyped | src/host/WindowLikeStream.ts:19-24 | an event is admitted exactly when it comes from the peer and its data is `null`, an array or an object (`typeof` "object") |
| WindowLikeStreams.AdmittedFromPeer | src/host/WindowLikeStream.ts:18-25 | every admitted datum is object-typed and is the data of some event from the peer; nothing else is admitted |
| WindowLikeStreams.FeedConserves | src/host/WindowLikeStream.ts:22-24 | admitted data feed the buffering state machine and inherit its guarantee: deliveries followed by the buffer are exactly the admitted data, in event order |
| WindowLikeStreams.WindowLikeStream.constructor | src/host/WindowLikeStream.ts:12-17 | a new stream has the given source and target and an empty buffering state |
| WindowLikeStreams.WindowLikeStream.OnMessageEvent | src/host/WindowLikeStream.ts:18-25 | an event not from the target, or whose data is not object-typed, leaves the state unchanged; an admitted event is received unchanged |
| WindowLikeStreams.WindowLikeStream.SendMessage | src/host/WindowLikeStream.ts:28-30 | exactly the given message is posted to the target with target origin "*" |
| WindowLikeStreams.WindowLikeStream.SetListener | src/utils/rpc/IMessageStream.ts:43-49 | the inherited `setListener` (`Attach`) |
| WindowLikeStreams.WindowLikeStream.Dispose | src/utils/rpc/IMessageStream.ts:51-54 | the inherited `dispose` (`Discard`) |
| JsValues.Decimal | src/extension/debugService/CdpClient.ts:141 | a number renders as a non-empty string of decimal digits with no leading zero |
| JsValues.ParseDecimalOfDecimal | src/extension/debugService/CdpClient.ts:141 | reading back the decimal text of a number gives the number |
| JsValues.DecimalInjective | src/extension/debugService/CdpClient.ts:141 | different numbers have different decimal texts |
| JsValues.IndexOf | src/extension/debugService/CdpClient.ts:132 | `indexOf` is -1 exactly when the element is absent; otherwise it is the position of its first occurrence |
| Cdp.IdForInjective | src/extension/debugService/CdpClient.ts:141 | different counter values give different message ids |
| Cdp.NextIdIsNew | src/extension/debugService/CdpClient.ts:141-143 | the id `_send` builds from the incremented counter is never already pending |
| Cdp.SentIdsDistinct | src/extension/debugService/CdpClient.ts:141 | the ids of the frames one client sends are pairwise distinct |
| Cdp.IssuePreserves | src/extension/debugService/CdpClient.ts:140-148 | `_send` keeps the client's invariant; it increments the counter, adds exactly its fresh id (never pending before) to the pending set, and appends exactly one frame `{id, method, params}` to what was sent; subscriptions and settlements are unchanged |
| Cdp.OnFramePreserves | src/extension/debugService/CdpClient.ts:36-60 | handling any frame keeps the client's invariant |
| Cdp.SubscribePreserves | src/extension/debugService/CdpClient.ts:112-123 | `subscribe` keeps the client's invariant |
| Cdp.EventLeavesRequestsAlone | src/extension/debugService/CdpClient.ts:41-46 | an event leaves the pending requests, settlements, sent frames and subscriptions unchanged; with no subscribers it changes nothing at all |
| Cdp.FanOutSubscribers | src/extension/debugService/CdpClient.ts:43-46 | every subscriber is called once with the event's `params`, in registration order, and nothing is logged |
| Cdp.ResponseCorrelates | src/extension/debugService/CdpClient.ts:47-59 | a response for an id that is not pending changes nothing; for a pending id it removes exactly that id, then rejects on `error`, else resolves on `result`, else settles nothing |
| Cdp.FramesSettleEachRequestOnce | src/extension/debugService/CdpClient.ts:47-59 | over any sequence of frames, each new settlement is for an id that was pending and no longer is, no id is settled twice, and what stays pending is what no response named |
| Cdp.SubscribeSendsIffFirst | src/extension/debugService/CdpClient.ts:112-123 | `subscribe` appends the callback to its key's list; it sends `JsDebug.subscribe` with `events: [key]` exactly when the list was empty; other keys are untouched |
| Cdp.EnableSentOnce | src/extension/debugService/CdpClient.ts:115-123 | two subscriptions to one fresh key send the upstream enable request once and keep both callbacks in order |
| Cdp.UnsubscribeRemovesFirst | src/extension/debugService/CdpClient.ts:126-136 | the disposer removes only the first occurrence of its callback, keeping the other callbacks and their order; a missing callback or key changes nothing |
| Cdp.BindingFiltersByName | src/extension/debugService/CdpClient.ts:76-109 | a binding listener ignores `bindingCalled` events for other names and calls its user callback once for its own; the untyped form passes the raw `payload` and logs nothing |
| Cdp.TypedBindingIsLenient | src/extension/debugService/CdpClient.ts:85-101 | a typed binding calls its callback exactly once with the parsed payload, or `undefined` when it does not parse; parse and validation failures are only logged and do not change the call |
| Cdp.PageEnableScenario | src/extension/debugService/CdpClient.ts:47-58 | `request('Page.enable')` sends id "cdpClient1"; its response resolves it with `{}`; the same response again has no effect |
| Cdp.FanOutScenario | src/extension/debugService/CdpClient.ts:41-46 | three subscribers of one event are called in order; after the middle one's disposer runs, the other two are; one enable request was sent |
| Cdp.CdpClient.constructor | src/extension/debugService/CdpClient.ts:28-35 | a new client has counter 0, nothing pending, no subscriptions and nothing sent |
| Cdp.CdpClient.Send | src/extension/debugService/CdpClient.ts:140-149 | `_send` increments the counter, registers the fresh id as pending, writes one frame `{id, method, params}`, and keeps the invariant |
| Cdp.CdpClient.RequestUntyped | src/extension/debugService/CdpClient.ts:67-69 | sends a request named `domain.method` |
| Cdp.CdpClient.Request | src/extension/debugService/CdpClient.ts:71-74 | sends a request with the given name and its first parameter |
| Cdp.CdpClient.HandleFrame | src/extension/debugService/CdpClient.ts:36-60 | the handler, including its loop over the callbacks, leaves the state `OnFrame` of the old state and the frame |
| Cdp.CdpClient.Subscribe | src/extension/debugService/CdpClient.ts:112-124 | the new state is `AddSubscription` of the old state; the returned key is `domain.event` |
| Cdp.CdpClient.DisposeSubscription | src/extension/debugService/CdpClient.ts:125-137 | the new state is `Unsubscribe` of the old state, key and callback |
| Cdp.CdpClient.AddBinding | src/extension/debugService/CdpClient.ts:84-104 | sends `Runtime.addBinding` with the binding's name |
| Cdp.CdpClient.AddBindingResolved | src/extension/debugService/CdpClient.ts:105-109 | once that request resolved, the binding listener is subscribed to `Runtime.bindingCalled` |
| Cdp.CdpClient.Dispose | src/extension/debugService/CdpClient.ts:63-65 | closes the socket and changes nothing else |
| JsDebugSupport.Access | src/extension/debugService/JsDebugSupport.ts:110-117 | after a read the cell holds a value, and the read returns the held value |
| JsDebugSupport.AccessKeepsConsistent | src/extension/debugService/JsDebugSupport.ts:110-117 | a read keeps "factory ran once exactly when a value is held" and returns the first run's value |
| JsDebugSupport.HeldValueIsReturned | src/extension/debugService/JsDebugSupport.ts:110-117 | once a value is held, any number of reads return it and leave the cell unchanged |
| JsDebugSupport.LazyEvaluatesOnce | src/extension/debugService/JsDebugSupport.ts:104-118 | from a fresh cell, any number of reads run the factory at most once, and every read returns that run's value |
| JsDebugSupport.Lazy.constructor | src/extension/debugService/JsDebugSupport.ts:105-108 | a new cell holds nothing and has not run its factory |
| JsDebugSupport.Lazy.Value | src/extension/debugService/JsDebugSupport.ts:110-117 | the getter follows `Access` and always returns the factory's first result |
| JsDebugSupport.WsAddress | src/extension/debugService/JsDebugSupport.ts:97-101 | undefined exactly when the proxy data is absent; otherwise an address starting with `ws://` |
| JsDebugSupport.ParseWsAddressOfWsAddress | src/extension/debugService/JsDebugSupport.ts:100 | reading the address back gives host, port and path (an empty path reads as absent) when the host has no ':' and the path does not start with a digit |
| JsDebugSupport.WsAddressDeterminesProxy | src/extension/debugService/JsDebugSupport.ts:100 | two such proxies get the same address exactly when they agree up to an empty path |
| JsDebugSupport.RefusedConnectionHangs | src/extension/debugService/CdpClient.ts:18-26 | as written, a resolved address whose socket errors before opening leaves the probe pending; the intended probe answers false |
| JsDebugSupport.Probe | src/extension/debugService/JsDebugSupport.ts:54-68 | the probe settles unless a connected client's `Page.enable` never settles; a socket that does not open connects nothing and the probe settles |
| JsDebugSupport.ProbeDiffersOnlyOnRefusal | src/extension/debugService/JsDebugSupport.ts:54-68 | the as-written and intended probes differ exactly when an address resolves and the socket errors before opening |
| JsDebugSupport.ProbeFailsClosed | src/extension/debugService/JsDebugSupport.ts:54-68 | true exactly when an address resolves, the socket opens and `Page.enable` succeeds; rejects only when the address lookup throws; pending only on a `Page.enable` that never settles |
| JsDebugSupport.ProbeDisposesClient | src/extension/debugService/JsDebugSupport.ts:58-64 | a client is connected exactly when an address resolves and the socket opens; it is disposed exactly when `Page.enable` settles, whether it succeeds or fails |
| JsDebugSupport.JsDebugSession.constructor | src/extension/debugService/JsDebugSupport.ts:40-54 | a new session belongs to its proxy, is live, and has an unevaluated probe cell |
| JsDebugSupport.JsDebugSession.SupportsDevTools | src/extension/debugService/JsDebugSupport.ts:50-52 | every call answers with the outcome of the first probe run; the run follows the intended `Probe`, so on a refused socket it answers false where the source stays pending |
| JsDebugSupport.JsDebugSession.Dispose | src/extension/debugService/JsDebugSupport.ts:30 | the session is disposed |
| JsDebugSupport.SessionRegistry.constructor | src/extension/debugService/JsDebugSupport.ts:7 | the registry starts empty |
| JsDebugSupport.SessionRegistry.From | src/extension/debugService/JsDebugSupport.ts:9-36 | undefined, with the registry unchanged, for a type outside the seven-entry allow-list; otherwise the registered session for the proxy, or a fresh live session that is registered |
| JsDebugSupport.SessionRegistry.Terminate | src/extension/debugService/JsDebugSupport.ts:29-32 | termination disposes the proxy's session and removes exactly its entry, so the next `from` creates a new one |

## Left out

- WebSocket, `window.postMessage` delivery, the VS Code `requestCDPProxy` command and `JSON.parse`/`JSON.stringify` are I/O. Frames arrive already decoded, a frame that does not parse is not modelled, and the outcomes of the command, the socket and `Page.enable` are the inputs in `ProbeEnv`.
- `CdpClient.connectToAddress` and `connectToSession` are socket setup. Only their effect on the support probe is modelled.
- Promises and `async` are left out. `Send` returns the request's id, and settling a promise is an entry in the `settled` log. `addBinding` is split at its `await` into `AddBinding` and `AddBindingResolved`; if `Runtime.addBinding` is rejected, the second part never runs.
- A rejection carries the response's `error` value itself, not `new Error(JSON.stringify(error))`.
- The `sessionId` of CDP frames is ignored, as the source ignores it.
- Callbacks, listeners and handlers do not call back into the client or the stream while they run. The fan-out walks the callback list as it was when the event arrived; a callback that subscribes or unsubscribes during the walk is not modelled.
- The `console.log`/`console.error` lines of `logMessageStream` are left out. The binding decoder's `console.error` lines are kept as `Diagnostic` values.
- JavaScript numbers are modelled as integers, and ports and counters as naturals. So `===` on `NaN`, which would make `compareArrays` with the default comparer non-reflexive, is not modelled.
- `SimpleTypedMessageConnection` receives only `{method, args}` envelopes. A message that is `null`, is not an object, or has non-iterable `args` would throw inside the listener, and is not modelled.
- The static `_debugSessions` map is modelled as a `SessionRegistry` object. Each termination runs the handler of the proxy's current session. Handlers left registered on a proxy by earlier sessions are not modelled, since a session terminates once.
- The `Disposable` base class (`src/utils/disposables`) is not part of this model. `JsDebugSession.dispose` only marks the session disposed, since the session registers nothing with it.
- `Binding.getFunctionValue`, `ErrorMessage.showIfError`/`throwIfError`, `Failed.throwIfError`, `showDocument`, `setContextKey` and `wait` are UI, timer or code-generation helpers with no model content.
- `getWsAddress` treats an absent or `null` answer alike, as `None`. Its `data.path \|\| ''` is modelled for string paths only. The probe's `!url` test for an empty string never fires, because every formatted address starts with `ws://`.
- MessageStreams.IncomingBufferStream.SendMessage: forwarding is modelled for wrapped streams whose `sendMessage` does not use `this`. The source copies the method off the stream (`sendMessage: stream.sendMessage`, src/utils/rpc/IMessageStream.ts:70), so a class-based stream such as `WindowLikeStream` (src/host/WindowLikeStream.ts:29) or `WebSocketMessageStream` (src/extension/vscode-utils/WebSocketMessageStream.ts:29) would throw a TypeError there. No caller in this repository wraps such a stream.
- Callbacks, listeners and handlers return normally. A listener that throws during a flush (src/utils/rpc/IMessageStream.ts:45-48, 73-76) would leave the buffer uncleared, so a later `setListener` would deliver those messages again. A CDP callback that throws would skip the remaining callbacks of the fan-out (src/extension/debugService/CdpClient.ts:44-46). Neither is modelled.
- Every `Runtime.bindingCalled` event carries an object `params`, as the protocol defines it. With absent or `null` params, `data.name` (src/extension/debugService/CdpClient.ts:78) would throw and stop the fan-out. The model's `Field` reads such params as having no name, and the binding ignores the event.
- JsDebugSupport.JsDebugSession.SupportsDevTools and TypedConnections.TypedMessageConnection.Receive follow the corrected definitions under "## Findings" (`Probe`, `Dispatch`), not the source as written. On a refused socket the source's `supportsDevTools()` stays pending where the model answers false. On an envelope naming a throwing inherited member, the source's listener throws where the model ignores it.
- JsDebugSupport.ParseWsAddressOfWsAddress: the round trip is stated only for hosts without ':' and paths that do not start with a digit, because for other hosts and paths the formatted address is ambiguous (an IPv6 host `::1`, say).

## Findings

| source | as written | input that shows it | evidently intended | confidence | as-written member | corrected member |
|---|---|---|---|---|---|---|
| src/utils/rpc/IMessageStream.ts:119-120 | `message.method in this._handler` also finds members that the handler object literal inherits from `Object.prototype`, and calls them | the envelope `{method: "__proto__", args: []}` on a connection whose handlers do not include `__proto__`: `this._handler.__proto__` is `Object.prototype`, not a function, so a TypeError escapes from the stream's listener; likewise `{method: "hasOwnProperty", args: [{"toString": 0}]}` (`KeyArgumentEnvelopeThrows`) | only the handler table's own names are dispatched; any other name is ignored | medium, not executed | TypedConnections.ProtoEnvelopeThrows | TypedConnections.Dispatch |
| src/extension/debugService/CdpClient.ts:18-26 | `connectToAddress` resolves on the socket's 'open' event and has no 'error' or 'close' handler | a proxy address whose connection is refused: the promise never settles, so the `catch` in `_supportsDevTools` (src/extension/debugService/JsDebugSupport.ts:57-66) never returns false and `supportsDevTools()` stays pending | a failed connection rejects, and the probe answers false | medium, not executed | JsDebugSupport.RefusedConnectionHangs | JsDebugSupport.Probe |
