# Weni web-chat protocol client, modelled in Dafny

This project models the protocol client of a web chat widget. The client is the React
hook `useWeniSocket` (`src/hooks/useWeniSocket.ts`), together with the paging arithmetic
of the product carousel (`src/components/ProductCarousel.tsx`).

The hook is modelled as a deterministic state machine over one immutable record,
`State.ClientState`. The record holds:
- the chat, with its messages, typing indicator, reassembler refs and uuid counter;
- the connection fields and the current socket;
- the durable storage;
- the frames sent so far.

Every browser callback and every public action is an event. `Client.StepAsWritten`
applies one as the program does; `Client.Step` applies it with the close handler
and error handlers
corrected as described under Findings. The modules follow the hook's parts:

- `Opt`, `Types`, `Frames`, `State`: the records of `src/types/index.ts` and the
  abstract server frame, plus the hook's refs and state.
- `Session`, `Urls`: `getSessionId` (storage as a map, uuid as a parameter), the
  WebSocket endpoint and the `register` callback URL.
- `Messages`, `Reassembler`: the ordered-delta stream reassembler. That covers
  `processStreamStart`, `updateStreamingMessage`, `appendStreamContent`,
  `applyPendingDeltas`, `processDelta` and `processStreamEnd`. The reorder buffer is a
  `map<nat, string>`, drained by recursion on its size.
- `ReassemblyProofs`: the reassembly theorem. After `stream_start`, fragments 1..n
  delivered in any order, with repeats, leave the stream text and its message text equal
  to their in-order concatenation. The buffer is empty and the next expected number is
  n+1.
- `Decoder`: the `message` branch of `handleServerMessage`, covering text, quick
  replies, media and carousel.
- `Client`, `ClientProofs`: frame dispatch, connect and the socket handlers, backoff
  reconnection, keep-alive, disconnect and the send actions. The proofs cover the state
  invariants (`Sound` for the program as written, `Valid` for the corrected client), the
  reconnection bound, registration and session stability, and the counterexamples of
  the findings.
- `Evolution`: inbound frames never remove, reorder or re-type messages.
- `Carousel`: visible cards, clamped arrows, page dots, disabled buttons and rendering.

Outside inputs are parameters of `State.Env`:
- the configuration;
- the uuid generator (the `n`-th call returns `uuid(n)`);
- the carousel parser, whose code is not part of this model.

The creation of a socket, its open, close and error callbacks, the arrival of frames,
the keep-alive interval and each reconnection timer are events. Every timer scheduled
and not yet fired or cleared is kept, by identifier, in `State.Timers`, next to the
identifier `reconnectTimeoutRef` holds.

Three behaviours of the code a reader might not expect:
- A `stream_end` for a stream that never received a fragment leaves the message list
  unchanged. No empty delivered message appears, because none was ever emitted.
- `sendQuickReply` needs only an open socket, not a registered client.
- A frame with only top-level text, and neither `type: "message"` nor a `message`
  object, is ignored.

## Model

| member | source | states |
|---|---|---|
| Frames.MessageIdOf | src/hooks/useWeniSocket.ts:105-108 | an id exists exactly when `message.messageId` or `id` is truthy; it is `msg_` followed by that raw id |
| Frames.Classify | src/hooks/useWeniSocket.ts:260-272 | a frame with `v` and `seq` but no `type` is `delta`; otherwise the tag is a truthy `type`, else a truthy `message.type`, else `unknown`; never empty |
| Session.StorageKey | src/hooks/useWeniSocket.ts:85 | the key is `weni_session_` followed by the channel id, which can be read back |
| Session.GetSessionId | src/hooks/useWeniSocket.ts:84-94 | a truthy explicit id wins, then a truthy stored one; a fresh id is used exactly when neither exists, and only then is it stored under the channel's key |
| Session.KeysDistinct | src/hooks/useWeniSocket.ts:85 | distinct channels never share a storage key |
| Session.LookupIdempotent | src/hooks/useWeniSocket.ts:84-94 | a second lookup returns the first lookup's id and writes nothing |
| Session.LookupOnlyWritesOwnKey | src/hooks/useWeniSocket.ts:84-94 | a lookup changes no other key and never overwrites a truthy stored id |
| Urls.SchemeOf | src/hooks/useWeniSocket.ts:516 | finds the leading `https://`, `http://` or `//`, or reports that none is present |
| Urls.StripScheme | src/hooks/useWeniSocket.ts:516 | the URL is the removed scheme followed by the result; without a scheme the URL is unchanged |
| Urls.StripSchemeInverse | src/hooks/useWeniSocket.ts:516 | stripping undoes prefixing by any one of the three schemes |
| Urls.SocketUrl | src/hooks/useWeniSocket.ts:516-517 | the endpoint starts with `wss://`, ends with `/ws`, and is nine characters longer than the stripped URL |
| Urls.CallbackUrl | src/hooks/useWeniSocket.ts:476-477 | starts with the host (or the default flows host) and `/c/wwc/`, ends with `/receive`, and holds exactly the channel id between |
| Urls.SocketUrlShape | src/hooks/useWeniSocket.ts:516-517 | the endpoint starts with `wss://`, ends with `/ws` and carries the stripped host between |
| Urls.CallbackRoundTrip | src/hooks/useWeniSocket.ts:476-477 | the callback URL starts with the host (or the default flows host) and the channel id can be read back from it |
| Messages.FindById | src/hooks/useWeniSocket.ts:129 | returns the position of the first message with the id, or reports that no message has it |
| Messages.UpsertStreaming | src/hooks/useWeniSocket.ts:127-153 | the first message with the id takes the text and status `streaming`, the others stay; without one, a bot streaming message is appended |
| Messages.MarkDelivered | src/hooks/useWeniSocket.ts:236-251 | the first message with the id takes the final text and status `delivered`; ids and positions are unchanged; the list is untouched when the id is absent |
| Reassembler.StreamStart | src/hooks/useWeniSocket.ts:111-124 | without an id nothing changes; with one it becomes the active stream with empty text, empty buffer and sequence 1, typing goes on, other streams' texts are kept |
| Reassembler.AppendContent | src/hooks/useWeniSocket.ts:156-164 | extends the stream's text and shows it on the first message with the stream's id, with status `streaming`; no other message changes; a stream without a text entry is left alone |
| Reassembler.DrainStep | src/hooks/useWeniSocket.ts:168-172 | removes exactly the next expected fragment from the buffer, appends it and advances the sequence by one; the stream's message shows the text with status `streaming` and no other message changes |
| Reassembler.Drain | src/hooks/useWeniSocket.ts:167-174 | stops at the first missing number, having applied exactly the contiguous buffered run in order and removed just those keys; afterwards every buffered key is beyond the next expected number; when it applied anything the stream's message shows the text with status `streaming`; no other message changes |
| Reassembler.Admit | src/hooks/useWeniSocket.ts:185-205 | picks the active stream or creates a synthetic one (the frame's id, else a fresh uuid); a stream opened by `stream_start` that has shown nothing gets, on its first fragment, typing cleared and one empty streaming message; a synthetic stream counts as already shown and shows nothing until its fragments apply; only messages with the stream's id change |
| Reassembler.StreamFor | src/hooks/useWeniSocket.ts:186-191 | the active stream's id when there is one; otherwise the frame's prefixed id, else `msg_` and a fresh uuid, drawing it only then |
| Reassembler.ApplyInOrder | src/hooks/useWeniSocket.ts:208-213 | appends the fragment and the buffered run it completes, removes that run from the buffer and advances past it; the message shows the new text with status `streaming`; no other message changes |
| Reassembler.Place | src/hooks/useWeniSocket.ts:207-219 | a fragment behind the next expected one changes nothing, one ahead is buffered under its number, the next one is applied in order; only messages with the stream's id change |
| Reassembler.ProcessDelta | src/hooks/useWeniSocket.ts:177-220 | a non-numeric, sub-1 or stale sequence number changes nothing; otherwise the delta reaches the active or synthetic stream, the reassembler invariant is kept, and only messages with that stream's id change |
| Reassembler.StreamEnd | src/hooks/useWeniSocket.ts:223-257 | without an id nothing changes; with one typing goes off, the first message with that id becomes delivered with the accumulated text (the list is unchanged if it was never emitted) and no other message changes, the text entry is dropped, and the reassembler goes idle only for the active stream |
| ReassemblyProofs.JoinRun | src/hooks/useWeniSocket.ts:167-174 | draining a buffered run continues the in-order concatenation |
| ReassemblyProofs.StartReassembling | src/hooks/useWeniSocket.ts:111-124 | `stream_start` puts `msg_<id>` in its initial reassembly state, with nothing arrived and nothing shown |
| ReassemblyProofs.AdmitShows | src/hooks/useWeniSocket.ts:185-205 | admitting a fragment of the active stream keeps its reassembly state and makes its message show the stream text |
| ReassemblyProofs.PlaceBehind | src/hooks/useWeniSocket.ts:219 | a repeated fragment keeps the reassembly state |
| ReassemblyProofs.PlaceAhead | src/hooks/useWeniSocket.ts:214-216 | an early fragment is buffered and the reassembly state accounts for it |
| ReassemblyProofs.PlaceNext | src/hooks/useWeniSocket.ts:208-213 | the next expected fragment and the run it completes are applied in order |
| ReassemblyProofs.DeliverOne | src/hooks/useWeniSocket.ts:177-220 | any fragment 1..n, new or repeated, keeps the stream reassembling |
| ReassemblyProofs.Complete | src/hooks/useWeniSocket.ts:167-174 | once all n fragments have arrived, the text is their in-order concatenation, the buffer is empty and the next number is n+1 |
| ReassemblyProofs.EndDelivers | src/hooks/useWeniSocket.ts:223-257 | `stream_end` of a fully shown stream marks its message delivered with the whole text, clears typing and goes idle |
| ReassemblyProofs.EndWithoutFragments | src/hooks/useWeniSocket.ts:111-257 | `stream_start` then `stream_end` with no fragment between leaves the message list unchanged and the reassembler idle |
| ReassemblyProofs.StreamInAnyOrder | src/hooks/useWeniSocket.ts:111-257 | `stream_start`, fragments 1..n in any order with repeats, then `stream_end`: stream text and message text equal the in-order concatenation, the message is streaming until the end and delivered after it, the buffer is empty, the next number is n+1, and no other message changes |
| Decoder.DecodeMessage | src/hooks/useWeniSocket.ts:363-450 | a frame without text, truthy media or `quick_replies` adds nothing; otherwise exactly one bot message with a fresh uuid is appended after the others, it is the message the frame decodes to (`DecodedMessage`), its kind agrees with its metadata, typing goes off and the reassembler is untouched |
| Decoder.PlainMessage | src/hooks/useWeniSocket.ts:408-441 | the non-carousel message carries the given id and the frame's text, from the bot, without status, and its kind agrees with its metadata |
| Decoder.DecodedMessage | src/hooks/useWeniSocket.ts:380-441 | carries the given id, from the bot, without status, kind agreeing with metadata; a carousel exactly when the text parses to products |
| Decoder.DecodedKind | src/hooks/useWeniSocket.ts:380-441 | a carousel exactly when the text parses to products; otherwise a media kind exactly when the nested type names it and the media is truthy; else quick-reply exactly when the list is non-empty, with the same list; else text |
| Evolution.UpsertEvolves | src/hooks/useWeniSocket.ts:127-153 | the streaming update keeps every message's id, sender, kind and metadata and appends only well-formed messages |
| Evolution.MarkEvolves | src/hooks/useWeniSocket.ts:236-251 | the delivered update keeps every message's id, sender, kind and metadata |
| Evolution.DrainEvolves | src/hooks/useWeniSocket.ts:167-174 | the drain loop only rewrites text and status |
| Evolution.DeltaEvolves | src/hooks/useWeniSocket.ts:177-220 | a delta only rewrites or appends the stream's message |
| Evolution.EndEvolves | src/hooks/useWeniSocket.ts:223-257 | a stream end only rewrites text and status |
| Evolution.DecodeEvolves | src/hooks/useWeniSocket.ts:443-447 | a message frame only appends |
| Client.Pow2 | src/hooks/useWeniSocket.ts:562 | `Math.pow(2, n)` on the attempt count; it exceeds `n`, so the backoff term grows without bound |
| Client.Delay | src/hooks/useWeniSocket.ts:562 | the delay is `min(1000 * 2^attempts, 10000)`: at least 1000, at most 10000 |
| Client.LookupSession | src/hooks/useWeniSocket.ts:512 | connect's lookup draws a uuid only when it uses one and changes nothing but storage and the draw count |
| Client.SessionFor | src/hooks/useWeniSocket.ts:639 | the adopted session id wins; otherwise the lookup is made |
| Client.ReadyForMessage | src/hooks/useWeniSocket.ts:301-321 | the client becomes registered; the initial payload goes out as one user text exactly when configured and the socket is open |
| Client.Route | src/hooks/useWeniSocket.ts:275-363 | the streaming tags come first and are routed exactly by classification, so a tag in `message.type` counts when the frame has no `type`; `ready_for_message` alone registers; the ignored control types do nothing; typing frames toggle the indicator; the decoder is reached exactly by a non-stream, non-control frame that is a `message` or carries a message object |
| Client.ChatEffect | src/hooks/useWeniSocket.ts:275-450 | each route reaches its handler: stream start, delta, stream end, the decoder, the typing flag; ready and ignored frames leave the chat alone; only deltas, ends and messages change the message list |
| Client.HandleFrame | src/hooks/useWeniSocket.ts:275-451 | a frame never changes the connection; registration becomes true exactly on `ready_for_message`; other frames send nothing |
| Client.CloseSocket | src/hooks/useWeniSocket.ts:498-500 | closing leaves a socket neither open nor connecting |
| Client.Connect | src/hooks/useWeniSocket.ts:492-602 | a no-op on an open socket; otherwise unregistered, and either `connecting` with a new socket of the next generation bound to the looked-up session id, or `error` with the old socket kept |
| Client.RegisterFrame | src/hooks/useWeniSocket.ts:475-489 | `register` carries the session id, the callback URL, session type `local`, and the token exactly when one is configured |
| Client.Opened | src/hooks/useWeniSocket.ts:525-545 | only the current connecting socket opens: attempts reset, connected, session id adopted, `register` sent, keep-alive started |
| Client.Closed | src/hooks/useWeniSocket.ts:547-569 | as written: whichever socket closed, keep-alive stops, registration is cleared, status disconnected; when the code is not 1000 and attempts are below 5, a new timer with the backoff delay is scheduled and the ref overwritten with it, while every timer already pending stays pending |
| Client.CloseEvent | src/hooks/useWeniSocket.ts:547-569 | as intended: a close of a replaced or dropped socket changes nothing; for the current socket, the timer the ref holds is cleared before a new one is scheduled |
| Client.Errored | src/hooks/useWeniSocket.ts:571-580 | as written, for whichever socket fails: status `error`, not connecting, error set; nothing else changes |
| Client.ErrorEvent | src/hooks/useWeniSocket.ts:571-580 | as intended: an error of a replaced or dropped socket changes nothing; the current socket's error is handled as written |
| Client.ReconnectFired | src/hooks/useWeniSocket.ts:565-568 | a pending timer is spent, counts one more attempt and runs connect; a cleared or already fired timer does nothing |
| Client.PingTick | src/hooks/useWeniSocket.ts:458-462 | a ping goes out exactly when the keep-alive runs and the socket is open; nothing else changes |
| Client.Disconnect | src/hooks/useWeniSocket.ts:605-625 | clears only the timer the ref holds (an older pending timer is not cleared), stops the keep-alive, drops the socket, resets attempts and registration, status disconnected; the chat is kept |
| Client.Post | src/hooks/useWeniSocket.ts:643-668 | appends one user message and one `message` frame under the session id; typing goes on; other messages are kept |
| Client.SendMessage | src/hooks/useWeniSocket.ts:628-669 | a no-op unless the socket is open and the client registered; then the text is shown as a user message and sent |
| Client.SendQuickReply | src/hooks/useWeniSocket.ts:672-707 | a no-op unless the socket is open; then the title is shown and the payload sent |
| Client.ClearMessages | src/hooks/useWeniSocket.ts:710-712 | the message list is emptied and nothing else changes, the reassembler included |
| Client.SetField | src/hooks/useWeniSocket.ts:715-730 | a no-op unless the socket is open; then one `set_custom_field` frame goes out and the messages are untouched |
| Client.Dispatch | src/hooks/useWeniSocket.ts:492-740 | every event but a close, with the program's own error handler for whichever socket fails: frames already sent are never retracted and socket generations never go back |
| Client.Step | src/hooks/useWeniSocket.ts:492-740 | one event with the corrected close and error handlers; the sent frames only grow and generations are never reused |
| Client.StepAsWritten | src/hooks/useWeniSocket.ts:492-740 | one event as the program handles it, with its own close handler; the sent frames only grow |
| Client.RunEvents | src/hooks/useWeniSocket.ts:492-740 | a run of events of the corrected client only appends to the sent frames and never reuses a generation |
| Client.RunAsWritten | src/hooks/useWeniSocket.ts:492-740 | the same for a run of the program as written |
| ClientProofs.InitialValid | src/hooks/useWeniSocket.ts:72-81 | the mounted state satisfies the invariant |
| ClientProofs.ChatEffectEvolves | src/hooks/useWeniSocket.ts:275-450 | a frame's chat effect keeps the reassembler invariant and only extends the message list |
| ClientProofs.FrameEvolves | src/hooks/useWeniSocket.ts:275-451 | the same for a whole frame, including `ready_for_message` |
| ClientProofs.FrameValid | src/hooks/useWeniSocket.ts:275-451 | a frame keeps both `Sound` and `Valid` |
| ClientProofs.ConnectValid | src/hooks/useWeniSocket.ts:492-602 | connect keeps both invariants |
| ClientProofs.OpenedValid | src/hooks/useWeniSocket.ts:525-545 | an open keeps both invariants |
| ClientProofs.CloseValid | src/hooks/useWeniSocket.ts:547-569 | the corrected close keeps `Valid`: at most one timer is pending, the one the ref holds, scheduled only with an attempt to spare |
| ClientProofs.ClosedSound | src/hooks/useWeniSocket.ts:547-569 | the close as written keeps `Sound` |
| ClientProofs.ReconnectSound | src/hooks/useWeniSocket.ts:565-568 | a firing timer keeps `Sound` |
| ClientProofs.ReconnectValid | src/hooks/useWeniSocket.ts:565-568 | in the corrected client, a firing timer keeps the attempt count at most 5 and leaves no timer pending |
| ClientProofs.PostValid | src/hooks/useWeniSocket.ts:643-668 | a send keeps both invariants, appending a well-formed user message |
| ClientProofs.DisconnectValid | src/hooks/useWeniSocket.ts:605-625 | disconnect keeps both invariants; in the corrected client it leaves no timer pending |
| ClientProofs.DispatchSound | src/hooks/useWeniSocket.ts:492-740 | every event but a close keeps `Sound` |
| ClientProofs.DispatchValid | src/hooks/useWeniSocket.ts:492-740 | every event but a close keeps `Valid` |
| ClientProofs.StepValid | src/hooks/useWeniSocket.ts:492-740 | every event of the corrected client keeps `Valid`: reassembler invariant, well-formed messages, `isConnecting` exactly when status is `connecting`, the socket from an earlier connect, keep-alive only with a socket, attempts at most 5, at most one pending timer and only with an attempt to spare |
| ClientProofs.StepAsWrittenSound | src/hooks/useWeniSocket.ts:492-740 | every event of the program as written keeps `Sound`, the same invariant without the attempt and timer clauses |
| ClientProofs.RunValid | src/hooks/useWeniSocket.ts:492-740 | any run of events of the corrected client from a valid state ends valid |
| ClientProofs.RunAsWrittenSound | src/hooks/useWeniSocket.ts:492-740 | any run of events of the program as written keeps `Sound` |
| ClientProofs.StatusEvents | src/hooks/useWeniSocket.ts:492-625 | connect gives `connecting` (or `error` when creation fails); the current socket's open gives `connected`, its close `disconnected` and its error `error` with the error set; an error of another socket changes nothing; disconnect gives `disconnected`; frames and sends leave the status alone |
| ClientProofs.RegistrationEvents | src/hooks/useWeniSocket.ts:301-625 | registration is raised only by `ready_for_message`, and cleared by connect, by the current socket's close and by disconnect |
| ClientProofs.AttemptsStep | src/hooks/useWeniSocket.ts:527 | apart from open and disconnect, only a firing reconnection changes the attempt count, by exactly one |
| ClientProofs.ReconnectsBounded | src/hooks/useWeniSocket.ts:561-568 | in the corrected client, between resets the client reconnects by itself at most `5 - attempts` times, and each automatic reconnection is counted |
| ClientProofs.DelayMonotone | src/hooks/useWeniSocket.ts:562 | the backoff never shrinks as attempts grow |
| ClientProofs.BackoffSchedule | src/hooks/useWeniSocket.ts:562 | the delays are 1000, 2000, 4000, 8000 and then 10000 ms |
| ClientProofs.DisconnectIsFinal | src/hooks/useWeniSocket.ts:605-625 | in the corrected client, after disconnect the dropped socket's close, whatever its code and whether or not its error comes first, changes nothing; no timer is left, so none can reconnect; no socket or keep-alive remains and no send or ping writes anything |
| ClientProofs.ConnectThenOpenRegisters | src/hooks/useWeniSocket.ts:492-545 | connect then open leaves the client connected, with exactly the `register` frame sent, carrying the configured, stored or fresh session id it adopts |
| ClientProofs.ReconnectKeepsSession | src/hooks/useWeniSocket.ts:84-94 | a reconnection uses the same session id as the connection before it |
| ClientProofs.SendNeedsRegistration | src/hooks/useWeniSocket.ts:628-637 | sendMessage is refused on an open socket until `ready_for_message`, and afterwards the text is sent |
| ClientProofs.StaleCloseTearsDown | src/hooks/useWeniSocket.ts:547-569 | as written, a replaced socket's late close leaves an open socket marked disconnected, unregistered and without keep-alive, so sends are refused; its error alone marks the open, registered connection as failed |
| ClientProofs.StaleCloseIgnored | src/hooks/useWeniSocket.ts:547-569 | with the corrected handlers the same events, with or without the replaced socket's error before its close, leave the connection connected and registered, and a send goes out |
| ClientProofs.DisconnectWhileConnectingReconnects | src/hooks/useWeniSocket.ts:547-625 | as written, disconnect while the socket is still connecting, followed by that socket's close with code 1006, schedules a timer that connects again; an error before the close only adds status `error` |
| ClientProofs.Retry | src/hooks/useWeniSocket.ts:547-568 | one failed handshake as written: an abnormal close and its timer count one attempt and leave a new connecting socket and no pending timer |
| ClientProofs.CyclesCount | src/hooks/useWeniSocket.ts:547-568 | `n` failed handshakes count `n` attempts and leave a connecting socket and no pending timer |
| ClientProofs.FourFailures | src/hooks/useWeniSocket.ts:492-568 | connect and four failed handshakes from the mounted hook reach four attempts with a connecting socket |
| ClientProofs.TimersOverrun | src/hooks/useWeniSocket.ts:547-568 | as written, from four attempts, two abnormal closes before the first timer fires leave two timers, and both firing count six attempts, one past the limit |
| ClientProofs.DisconnectSparesOlderTimer | src/hooks/useWeniSocket.ts:547-625 | as written, after two abnormal closes disconnect clears only the newer timer, and the older one still connects |
| ClientProofs.DisconnectClearsTimer | src/hooks/useWeniSocket.ts:547-625 | with the corrected close, the same events leave one timer, which disconnect clears |
| Carousel.VisibleCards | src/components/ProductCarousel.tsx:21-28 | one card below 300 px, two below 500, three otherwise |
| Carousel.MaxIndex | src/components/ProductCarousel.tsx:37 | `max(0, n - v)`: never negative, and below n when there are products |
| Carousel.GoNext | src/components/ProductCarousel.tsx:39-41 | one step right below MaxIndex, otherwise MaxIndex |
| Carousel.GoPrev | src/components/ProductCarousel.tsx:43-45 | one step left, never below zero |
| Carousel.TotalPages | src/components/ProductCarousel.tsx:55 | the number of pages is `ceil(n / v)` |
| Carousel.CurrentPage | src/components/ProductCarousel.tsx:56 | the active page is `floor(index / v)` |
| Carousel.Apply | src/components/ProductCarousel.tsx:130-157 | a resize changes only the cards per view; clicks keep it |
| Carousel.Render | src/components/ProductCarousel.tsx:58-60 | nothing is rendered exactly when there are no products |
| Carousel.JumpInRange | src/components/ProductCarousel.tsx:140-147 | every rendered dot leads to an existing product |
| Carousel.JumpShowsPage | src/components/ProductCarousel.tsx:143-144 | jumping to a page makes that page the active dot |
| Carousel.ActivePageRendered | src/components/ProductCarousel.tsx:55-56 | the active dot is always one of the rendered dots |
| Carousel.ApplyInRange | src/components/ProductCarousel.tsx:39-45 | any input keeps the index on an existing product |
| Carousel.ApplyAllInRange | src/components/ProductCarousel.tsx:13-157 | from a state whose index names a product (the initial index 0 does), every sequence of inputs keeps it on an existing product |
| Carousel.ArrowsStayClamped | src/components/ProductCarousel.tsx:39-45 | arrows alone keep the index within `[0, MaxIndex]` |
| Carousel.DisabledMeansStuck | src/components/ProductCarousel.tsx:133-153 | previous is disabled exactly when it could not move; next exactly when it could not move forward |
| Carousel.DotPassesMaxIndex | src/components/ProductCarousel.tsx:144 | dots are not clamped: with five products three to a view, the second dot goes to index 3, past MaxIndex 2 |

## Left out

- Timestamps (`Date.now`, `new Date()`) and the 30-second ping period are left out; the keep-alive is a flag plus a tick event.
- The `onConnect`, `onDisconnect`, `onError` and `onMessage` callbacks, and all console logging, are left out. They do not affect the state.
- `setContext` only logs, so it is a no-op event.
- The error object is a flag (`hasError`); its message text is not modelled.
- The `already exists` check on error frames only logs.
- JSON parsing is abstracted: a non-JSON frame is simply not delivered as an event. Frames are modelled as records with optional fields.
- A `seq` that is a fractional number is not modelled. Non-numeric and integer `seq` values are; a non-finite `seq` (such as `1e999`, which parses to `Infinity`) or one above 2^53 behaves like a huge integer, which is buffered and never applied.
- A `v` that is present but not a string is not modelled. A `v` or `type` key whose value is JSON `null` is treated as missing, although the `in` test of the delta shape counts it as present.
- The carousel parser (`isCarouselMessage`, `parseCarouselXml`, `extractTextFromCarouselMessage`) is not part of this model. It is represented by three functions in `State.Env`.
- The custom field value is modelled as a string rather than an arbitrary JSON value.
- Handlers read `state.sessionId` from a React closure that can be stale. The model reads the current value.
- Timer delays and firing order are not modelled: any pending timer may fire at any moment, which covers every order the delays allow.
- ClientProofs.StepValid: the attempt bound and the single pending timer are proved for the corrected client only. For the program as written, only `Sound` is proved (`StepAsWrittenSound`), because `TimersOverrun` shows the bound fails there.
- ClientProofs.RunValid: the same; the program as written is covered by `RunAsWrittenSound`.
- ClientProofs.ReconnectValid: the same; for the program as written, `ReconnectSound` keeps `Sound` only.
- ClientProofs.ReconnectsBounded: holds for the corrected client only; as written, a run can make six or more automatic reconnections (`TimersOverrun`).
- ClientProofs.DisconnectIsFinal: holds for the corrected client only; as written, `DisconnectWhileConnectingReconnects` and `DisconnectSparesOlderTimer` reconnect after a disconnect.
- Close events are not restricted: any close code may arrive, for any generation and at any time. A socket closed without a code reports whatever code the event carries.
- Client.Opened: `onopen` has no generation check in the source; the model lets only the current, still connecting socket open. This relies on the browser: a socket fires `open` at most once, and never after `close()` was called on it, which `connect` and `disconnect` do to every socket they replace or drop.
- Client.HandleFrame: frames carry no generation and are applied to the current connection. This relies on the browser delivering no message once `close()` was called on a socket, so every frame comes from the current socket.
- Client.Connect: storage access is assumed never to throw. `getSessionId` reads and writes `localStorage` before connect's `try`, so a storage exception (storage disabled, quota full) would escape connect and leave the client `connecting` with the old socket closed; that outcome is not modelled.
- Session.GetSessionId: the same assumption; a storage read or write always succeeds.
- The socket URL is computed by `Urls.SocketUrl`, but the connection itself is abstract.
- Layout widths, the CSS `calc` percentages, the resize listener and animation in the carousel are left out. A resize is an input carrying the measured width.
- The carousel's product click (`window.open` or the callback) is left out.

## Findings

| source | as written | input that shows it | evidently intended | confidence | as-written member | corrected member |
|---|---|---|---|---|---|---|
| src/hooks/useWeniSocket.ts:547-569 | the `onclose` handler runs for whichever socket closes: it stops the keep-alive, clears registration, reports `disconnected` and may schedule a reconnection, without checking that the closing socket is still the current one; `onerror` likewise reports `error` for whichever socket fails | connect twice, so the first socket is closed while still connecting; then the second socket opens and the server sends `ready_for_message`; then the first socket's error and close event (code 1006) arrive. The client now shows `disconnected`, unregistered and without a keep-alive, though its socket is open, and sendMessage is refused | events of a replaced socket should not touch the current connection; `Client.Step` uses the corrected close and error handlers | not executed; it depends on the order in which the browser delivers the two sockets' events | Client.Closed, ClientProofs.StaleCloseTearsDown | Client.CloseEvent, Client.ErrorEvent, ClientProofs.StaleCloseIgnored |
| src/hooks/useWeniSocket.ts:561-568 | an abnormal close overwrites `reconnectTimeoutRef` with a new timer without clearing the one already pending, and disconnect clears only the timer in the ref | with four attempts counted, the connecting socket closes with 1006 (timer A); connect runs again, as the widget does whenever the client is disconnected, and that socket also closes with 1006 (timer B, still at four attempts). A fires and counts the fifth attempt; B fires and counts a sixth. With disconnect between two such closes, A still reconnects after the user disconnected | at most one reconnection pending and at most five automatic attempts: clear the pending timer before scheduling another | not executed; it needs connect to run before the first timer fires | Client.Closed, Client.Disconnect, ClientProofs.TimersOverrun, ClientProofs.DisconnectSparesOlderTimer | Client.CloseEvent, ClientProofs.ReconnectsBounded, ClientProofs.DisconnectClearsTimer |
| src/hooks/useWeniSocket.ts:605-625 | disconnect closes a socket that is still connecting with code 1000, but closing during the handshake fails the connection, so its close event carries 1006, and the close handler, which does not check which socket closed, schedules a reconnection | connect, then disconnect before the socket opens; the close event with 1006 arrives and the timer it schedules connects again | a disconnected client stays disconnected: the dropped socket's error and close are ignored | not executed; it relies on the close code a browser reports for a socket closed while connecting | Client.Closed, ClientProofs.DisconnectWhileConnectingReconnects | Client.CloseEvent, Client.ErrorEvent, ClientProofs.DisconnectIsFinal |
