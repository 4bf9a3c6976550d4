/** The connection life cycle and the public actions of the socket hook
    (src/hooks/useWeniSocket.ts): connect, the socket's open/close/error/message
    handlers, reconnection with exponential backoff, the keep-alive ping, disconnect,
    and the send actions. Every browser callback is an event; `Step` applies one. */
module Client {
  import opened Opt
  import opened Types
  import opened Frames
  import opened State
  import opened Session
  import opened Urls
  import opened Reassembler
  import opened Decoder

  /** The close code of an intentional close. */
  const NormalClosure := 1000
  /** Automatic reconnections allowed before giving up. */
  const MaxReconnectAttempts: nat := 5
  /** The first reconnection delay, in milliseconds. */
  const BaseDelay: nat := 1000
  /** The longest reconnection delay, in milliseconds. */
  const MaxDelay: nat := 10000

  function Pow2(n: nat): (p: nat)
    ensures p >= n + 1
    ensures p >= 1
  {
    if n == 0 then 1 else 2 * Pow2(n - 1)
  }

  /** `Math.min(1000 * 2 ** attempts, 10000)`: the delay before reconnection attempt
      `attempts + 1`. */
  function Delay(attempts: nat): (d: nat)
    ensures BaseDelay <= d <= MaxDelay
    ensures d == MaxDelay || d == BaseDelay * Pow2(attempts)
    ensures d <= BaseDelay * Pow2(attempts)
  {
    if BaseDelay * Pow2(attempts) < MaxDelay then BaseDelay * Pow2(attempts) else MaxDelay
  }

  /** getSessionId, drawing its fresh uuid from the generator only when it is used. */
  function LookupSession(env: Env, st: ClientState): (r: (string, ClientState))
    ensures var l := GetSessionId(env.config.channelUuid, env.config.sessionId, st.storage, env.uuid(st.chat.drawn));
            r.0 == l.id && r.1.storage == l.storage
    ensures r.1 == st.(storage := r.1.storage, chat := st.chat.(drawn := r.1.chat.drawn))
    ensures st.chat.drawn <= r.1.chat.drawn <= st.chat.drawn + 1
  {
    var l := GetSessionId(env.config.channelUuid, env.config.sessionId, st.storage, env.uuid(st.chat.drawn));
    (l.id, st.(storage := l.storage, chat := st.chat.(drawn := if l.drewFresh then st.chat.drawn + 1 else st.chat.drawn)))
  }

  /** `state.sessionId || getSessionId()`: the session identifier of an outbound frame. */
  function SessionFor(env: Env, st: ClientState): (r: (string, ClientState))
    ensures Truthy(st.sessionId) ==> r.0 == st.sessionId.value && r.1 == st
    ensures !Truthy(st.sessionId) ==> r == LookupSession(env, st)
    ensures r.1 == st.(storage := r.1.storage, chat := st.chat.(drawn := r.1.chat.drawn))
  {
    if Truthy(st.sessionId) then (st.sessionId.value, st) else LookupSession(env, st)
  }

  /** The frame types whose handling only logs. */
  const IgnoredTypes := {"pong", "project_language", "allow_contact_timeout", "error", "warning"}

  /** The `ready_for_message` handler: the client is registered; when an initial payload
      is configured and the socket is open, it is sent as the first user text. */
  function ReadyForMessage(env: Env, st: ClientState): (r: ClientState)
    ensures r.registered
    ensures var sends := Truthy(env.config.initPayload) && SocketIsOpen(st);
            && |r.outbox| == |st.outbox| + (if sends then 1 else 0)
            && r.outbox[..|st.outbox|] == st.outbox
            && (sends ==> r.outbox[|st.outbox|].UserText? && r.outbox[|st.outbox|].text == env.config.initPayload.value
                          && r.outbox[|st.outbox|].context == "")
    ensures r.chat.messages == st.chat.messages && r.chat.isTyping == st.chat.isTyping && r.chat.stream == st.chat.stream
  {
    var st1 := st.(registered := true);
    if Truthy(env.config.initPayload) && SocketIsOpen(st1) then
      var (sid, st2) := SessionFor(env, st1);
      st2.(outbox := st2.outbox + [UserText(env.config.initPayload.value, "", sid)])
    else st1
  }

  /** Which branch of handleServerMessage a frame takes. */
  datatype Handler = OnStreamStart | OnDelta | OnStreamEnd | OnReady | OnTyping(on: bool) | OnMessage | OnNothing

  /** The tags of the streaming frames. */
  const StreamTags := {"stream_start", "delta", "stream_end"}

  /** The frame types with a branch of their own after the streaming tags. */
  const ControlTypes := IgnoredTypes + {"ready_for_message", "typing", "typing_start", "typing_stop"}

  /** The dispatch of handleServerMessage: the streaming tags first (by classification,
      so a tag in `message.type` counts when the frame has no `type`), then the frame's
      own `type`, then any frame carrying a `message` object. */
  function Route(f: Frame): (h: Handler)
    ensures h == OnStreamStart <==> Classify(f) == "stream_start"
    ensures h == OnDelta <==> Classify(f) == "delta"
    ensures h == OnStreamEnd <==> Classify(f) == "stream_end"
    ensures DeltaShaped(f) ==> h == OnDelta
    ensures !DeltaShaped(f) && !Truthy(f.typ) && f.message.Some? ==>
              (f.message.value.typ == Some("stream_start") ==> h == OnStreamStart) &&
              (f.message.value.typ == Some("stream_end") ==> h == OnStreamEnd)
    ensures h == OnReady <==> f.typ == Some("ready_for_message")
    ensures Classify(f) !in StreamTags && f.typ.Some? && f.typ.value in IgnoredTypes ==> h == OnNothing
    ensures f.typ == Some("typing_stop") ==> h == OnTyping(false)
    ensures f.typ == Some("typing") || f.typ == Some("typing_start") ==> h == OnTyping(true)
    ensures h == OnMessage <==>
              && Classify(f) !in StreamTags
              && (f.typ.None? || f.typ.value !in ControlTypes)
              && (f.typ == Some("message") || f.message.Some?)
  {
    var tag := Classify(f);
    if tag == "stream_start" then OnStreamStart
    else if tag == "delta" then OnDelta
    else if tag == "stream_end" then OnStreamEnd
    else if f.typ == Some("ready_for_message") then OnReady
    else if f.typ.Some? && f.typ.value in IgnoredTypes then OnNothing
    else if f.typ == Some("typing") || f.typ == Some("typing_start") then OnTyping(true)
    else if f.typ == Some("typing_stop") then OnTyping(false)
    else if f.typ == Some("message") || f.message.Some? then OnMessage
    else OnNothing
  }

  /** The chat-side effect of a frame: the stream handlers, the typing indicator, the
      bot-message decoder, and nothing for the rest. */
  function ChatEffect(env: Env, c: Chat, f: Frame): (r: Chat)
    ensures Route(f) == OnStreamStart ==> r == StreamStart(c, f)
    ensures Route(f) == OnDelta ==> r == ProcessDelta(env, c, f)
    ensures Route(f) == OnStreamEnd ==> r == StreamEnd(c, f)
    ensures Route(f) == OnMessage ==> r == DecodeMessage(env, c, f)
    ensures Route(f).OnTyping? ==> r == c.(isTyping := Route(f).on)
    ensures Route(f) == OnReady || Route(f) == OnNothing ==> r == c
    ensures r.messages != c.messages ==> Route(f) in {OnDelta, OnStreamEnd, OnMessage}
  {
    match Route(f)
    case OnStreamStart => StreamStart(c, f)
    case OnDelta => ProcessDelta(env, c, f)
    case OnStreamEnd => StreamEnd(c, f)
    case OnTyping(on) => c.(isTyping := on)
    case OnMessage => DecodeMessage(env, c, f)
    case _ => c
  }

  /** handleServerMessage. A frame never touches the connection: only the registration
      flag (set by, and only by, `ready_for_message`), the outbound frames (the initial
      payload), the storage and the chat change. */
  function HandleFrame(env: Env, st: ClientState, f: Frame): (r: ClientState)
    ensures && r.isConnected == st.isConnected && r.isConnecting == st.isConnecting
            && r.status == st.status && r.hasError == st.hasError
            && r.socket == st.socket && r.sockets == st.sockets
            && r.attempts == st.attempts && r.timers == st.timers
            && r.pingRunning == st.pingRunning && r.sessionId == st.sessionId
    ensures r.registered <==> st.registered || f.typ == Some("ready_for_message")
    ensures f.typ != Some("ready_for_message") ==> r.outbox == st.outbox && r.storage == st.storage
  {
    if Route(f) == OnReady then ReadyForMessage(env, st)
    else st.(chat := ChatEffect(env, st.chat, f))
  }

  /** `socket.close()` without a code: a connecting or open socket starts closing. */
  function CloseSocket(s: Socket): (r: Socket)
    ensures r.gen == s.gen && r.sessionId == s.sessionId
    ensures r.ready != SocketOpen && r.ready != SocketConnecting
  {
    if s.ready == SocketConnecting || s.ready == SocketOpen then s.(ready := SocketClosing) else s
  }

  /** connect. With the current socket open, nothing happens. Otherwise the old socket
      is closed, the client goes `connecting` and unregistered, the session identifier
      is looked up, and a new socket (the next generation, bound to that identifier) is
      created; when creation fails (`created` false) the client goes to `error` and
      keeps the old socket. */
  function Connect(env: Env, st: ClientState, created: bool): (r: ClientState)
    ensures SocketIsOpen(st) ==> r == st
    ensures !SocketIsOpen(st) ==>
              && !r.registered && r.attempts == st.attempts && r.timers == st.timers
              && r.chat.messages == st.chat.messages && r.outbox == st.outbox
              && (created ==>
                    && r.status == Connecting && r.isConnecting && !r.hasError
                    && r.socket == Some(Socket(st.sockets, SocketConnecting, LookupSession(env, st).0))
                    && r.sockets == st.sockets + 1)
              && (!created ==>
                    && r.status == Error && !r.isConnecting && r.hasError
                    && r.sockets == st.sockets
                    && (st.socket.Some? <==> r.socket.Some?)
                    && (r.socket.Some? ==> r.socket.value.gen == st.socket.value.gen && !SocketIsOpen(r)))
  {
    if SocketIsOpen(st) then st
    else
      var prior := if st.socket.Some? then Some(CloseSocket(st.socket.value)) else None;
      var st1 := st.(socket := prior, status := Connecting, isConnecting := true, hasError := false,
                     registered := false);
      var (sid, st2) := LookupSession(env, st1);
      if created then
        st2.(socket := Some(Socket(st2.sockets, SocketConnecting, sid)), sockets := st2.sockets + 1)
      else
        st2.(status := Error, isConnecting := false, hasError := true)
  }

  /** The `register` frame: the session identifier, the callback URL on the configured
      host, a local session, and the session token when one is configured. */
  function RegisterFrame(config: Config, sid: string): (r: OutFrame)
    ensures r.Register? && r.from == sid && r.sessionType == "local"
    ensures r.callback == CallbackUrl(config.host, config.channelUuid)
    ensures r.token.Some? <==> Truthy(config.sessionToken)
    ensures r.token.Some? ==> r.token == config.sessionToken
  {
    Register(sid, CallbackUrl(config.host, config.channelUuid), "local",
             if Truthy(config.sessionToken) then config.sessionToken else None)
  }

  /** onopen, which only the current, still connecting socket of that generation can
      fire: attempts reset, connected, the socket's session identifier adopted, the
      `register` frame sent and the keep-alive started. */
  function Opened(env: Env, st: ClientState, gen: nat): (r: ClientState)
    ensures !(st.socket.Some? && st.socket.value.gen == gen && st.socket.value.ready == SocketConnecting) ==> r == st
    ensures st.socket.Some? && st.socket.value.gen == gen && st.socket.value.ready == SocketConnecting ==>
              && r.attempts == 0 && r.isConnected && !r.isConnecting && r.status == Connected && !r.hasError
              && r.sessionId == Some(st.socket.value.sessionId)
              && r.outbox == st.outbox + [RegisterFrame(env.config, st.socket.value.sessionId)]
              && r.pingRunning && SocketIsOpen(r) && r.socket.value.gen == gen
              && r.registered == st.registered && r.timers == st.timers
              && r.chat == st.chat
  {
    if st.socket.Some? && st.socket.value.gen == gen && st.socket.value.ready == SocketConnecting then
      var s := st.socket.value;
      st.(attempts := 0, isConnected := true, isConnecting := false, sessionId := Some(s.sessionId),
          hasError := false, outbox := st.outbox + [RegisterFrame(env.config, s.sessionId)],
          pingRunning := true, status := Connected, socket := Some(s.(ready := SocketOpen)))
    else st
  }

  /** onclose of the socket of generation `gen`, as written: whichever socket closed
      (the current one or a replaced one), the keep-alive is stopped and the client is
      unregistered and disconnected. When the close was not intentional and attempts
      remain, a reconnection timer with the backoff delay is scheduled and the ref is
      overwritten with it, while any timer already pending stays pending. */
  function Closed(st: ClientState, gen: nat, code: int): (r: ClientState)
    ensures !r.pingRunning && !r.registered && r.status == Disconnected && !r.isConnected && !r.isConnecting
    ensures code != NormalClosure && st.attempts < MaxReconnectAttempts ==>
              && r.timers.pending == st.timers.pending[st.timers.made := Delay(st.attempts)]
              && r.timers.ref == Some(st.timers.made) && r.timers.made == st.timers.made + 1
    ensures !(code != NormalClosure && st.attempts < MaxReconnectAttempts) ==> r.timers == st.timers
    ensures r.attempts == st.attempts && r.chat == st.chat && r.outbox == st.outbox && r.sockets == st.sockets
    ensures st.socket.Some? && st.socket.value.gen == gen ==>
              r.socket == Some(st.socket.value.(ready := SocketClosed))
    ensures !(st.socket.Some? && st.socket.value.gen == gen) ==> r.socket == st.socket
  {
    var sock := if st.socket.Some? && st.socket.value.gen == gen then Some(st.socket.value.(ready := SocketClosed))
                else st.socket;
    var st1 := st.(pingRunning := false, registered := false, status := Disconnected, isConnected := false,
                   isConnecting := false, socket := sock);
    if code != NormalClosure && st.attempts < MaxReconnectAttempts then
      st1.(timers := Schedule(st.timers, Delay(st.attempts)))
    else st1
  }

  /** onclose as evidently intended: the close of a socket that is no longer the current
      one (replaced by a later connect, or dropped by disconnect) is ignored, and before
      a new reconnection timer is scheduled the one the ref holds is cleared, so at most
      one reconnection is ever pending. */
  function CloseEvent(st: ClientState, gen: nat, code: int): (r: ClientState)
    ensures !(st.socket.Some? && st.socket.value.gen == gen) ==> r == st
    ensures st.socket.Some? && st.socket.value.gen == gen ==>
              && !r.pingRunning && !r.registered && r.status == Disconnected && !r.isConnected && !r.isConnecting
              && r.socket == Some(st.socket.value.(ready := SocketClosed))
              && r.attempts == st.attempts && r.chat == st.chat && r.outbox == st.outbox
              && (code != NormalClosure && st.attempts < MaxReconnectAttempts ==>
                    && r.timers.pending == ClearRef(st.timers).pending[st.timers.made := Delay(st.attempts)]
                    && r.timers.ref == Some(st.timers.made))
              && (!(code != NormalClosure && st.attempts < MaxReconnectAttempts) ==> r.timers == st.timers)
  {
    if st.socket.Some? && st.socket.value.gen == gen then
      if code != NormalClosure && st.attempts < MaxReconnectAttempts then
        Closed(st.(timers := ClearRef(st.timers)), gen, code)
      else Closed(st, gen, code)
    else st
  }

  /** onerror: the client goes to `error`, no longer connecting. */
  function Errored(st: ClientState): (r: ClientState)
    ensures r.status == Error && !r.isConnecting && r.hasError
    ensures r == st.(status := Error, isConnecting := r.isConnecting, hasError := r.hasError)
  {
    st.(status := Error, isConnecting := false, hasError := true)
  }

  /** The corrected error handler: an error of a replaced or dropped socket changes
      nothing; the current socket's error is handled as the program does. */
  function ErrorEvent(st: ClientState, gen: nat): (r: ClientState)
    ensures st.socket.Some? && st.socket.value.gen == gen ==> r == Errored(st)
    ensures !(st.socket.Some? && st.socket.value.gen == gen) ==> r == st
  {
    if st.socket.Some? && st.socket.value.gen == gen then Errored(st) else st
  }

  /** Reconnection timer `id` firing: while it is pending it is spent, one more attempt
      is counted and connect runs. A timer that was cleared, or has fired, does nothing. */
  function ReconnectFired(env: Env, st: ClientState, id: nat, created: bool): (r: ClientState)
    ensures id !in st.timers.pending ==> r == st
    ensures id in st.timers.pending ==>
              && r.attempts == st.attempts + 1
              && r.timers == st.timers.(pending := st.timers.pending - {id})
              && (SocketIsOpen(st) ==> r.socket == st.socket)
              && (!SocketIsOpen(st) && created ==>
                    r.status == Connecting && r.socket.Some? && r.socket.value.gen == st.sockets)
  {
    if id in st.timers.pending then
      Connect(env, st.(timers := st.timers.(pending := st.timers.pending - {id}), attempts := st.attempts + 1),
              created)
    else st
  }

  /** One tick of the keep-alive interval: a ping goes out exactly when the interval is
      running and the current socket is open. */
  function PingTick(st: ClientState): (r: ClientState)
    ensures st.pingRunning && SocketIsOpen(st) ==> r.outbox == st.outbox + [Ping]
    ensures !(st.pingRunning && SocketIsOpen(st)) ==> r.outbox == st.outbox
    ensures r == st.(outbox := r.outbox)
  {
    if st.pingRunning && SocketIsOpen(st) then st.(outbox := st.outbox + [Ping]) else st
  }

  /** disconnect: the reconnection timer the ref holds is cleared (an earlier one still
      pending is not), the keep-alive stopped, the socket closed with the normal code and
      dropped, and attempts reset. */
  function Disconnect(st: ClientState): (r: ClientState)
    ensures st.timers.ref.Some? ==> r.timers.pending == st.timers.pending - {st.timers.ref.value}
    ensures st.timers.ref.None? ==> r.timers.pending == st.timers.pending
    ensures r.timers.ref == st.timers.ref && r.timers.made == st.timers.made
    ensures !r.pingRunning && r.socket.None? && r.attempts == 0
    ensures !r.registered && r.status == Disconnected && !r.isConnected && !r.isConnecting
    ensures r.chat == st.chat && r.outbox == st.outbox && r.sockets == st.sockets && r.sessionId == st.sessionId
  {
    st.(timers := ClearRef(st.timers), pingRunning := false, socket := None, attempts := 0, registered := false,
        status := Disconnected, isConnected := false, isConnecting := false)
  }

  /** A message typed by the user. */
  function UserMessage(id: string, text: string): Message {
    Message(id, text, User, Text, NoMetadata, None)
  }

  /** The state after the user's message `shown` is added and `sent` goes out as a text
      frame under the session identifier. */
  function Post(env: Env, st: ClientState, shown: string, sent: string): (r: ClientState)
    ensures var sid := SessionFor(env, st).0;
            var st1 := SessionFor(env, st).1;
            && r.outbox == st.outbox + [UserText(sent, "", sid)]
            && r.chat.messages == st.chat.messages + [UserMessage(env.uuid(st1.chat.drawn), shown)]
            && r.chat.isTyping && r.chat.stream == st.chat.stream
            && r.chat.drawn == st1.chat.drawn + 1
    ensures r == st.(chat := r.chat, outbox := r.outbox, storage := r.storage)
  {
    var (sid, st1) := SessionFor(env, st);
    var (id, c) := Draw(env, st1.chat);
    st1.(chat := c.(messages := c.messages + [UserMessage(id, shown)], isTyping := true),
         outbox := st1.outbox + [UserText(sent, "", sid)])
  }

  /** sendMessage: only on an open socket of a registered client; shows the text as a
      user message, raises the typing indicator and sends it. */
  function SendMessage(env: Env, st: ClientState, text: string): (r: ClientState)
    ensures !(SocketIsOpen(st) && st.registered) ==> r == st
    ensures SocketIsOpen(st) && st.registered ==>
              && |r.chat.messages| == |st.chat.messages| + 1 && r.chat.messages[..|st.chat.messages|] == st.chat.messages
              && r.chat.messages[|st.chat.messages|].sender == User && r.chat.messages[|st.chat.messages|].text == text
              && r.chat.isTyping && |r.outbox| == |st.outbox| + 1
              && r.outbox[|st.outbox|].UserText? && r.outbox[|st.outbox|].text == text
  {
    if SocketIsOpen(st) && st.registered then Post(env, st, text, text) else st
  }

  /** sendQuickReply: only on an open socket (registration is not required); shows the
      title and sends the payload. */
  function SendQuickReply(env: Env, st: ClientState, payload: string, title: string): (r: ClientState)
    ensures !SocketIsOpen(st) ==> r == st
    ensures SocketIsOpen(st) ==>
              && |r.chat.messages| == |st.chat.messages| + 1 && r.chat.messages[..|st.chat.messages|] == st.chat.messages
              && r.chat.messages[|st.chat.messages|].sender == User && r.chat.messages[|st.chat.messages|].text == title
              && r.chat.isTyping && |r.outbox| == |st.outbox| + 1
              && r.outbox[|st.outbox|].UserText? && r.outbox[|st.outbox|].text == payload
  {
    if SocketIsOpen(st) then Post(env, st, title, payload) else st
  }

  /** setCustomField: only on an open socket; sends the key and value. */
  function SetField(env: Env, st: ClientState, key: string, value: string): (r: ClientState)
    ensures !SocketIsOpen(st) ==> r == st
    ensures SocketIsOpen(st) ==>
              r.outbox == st.outbox + [SetCustomField(key, value, SessionFor(env, st).0)]
              && r.chat.messages == st.chat.messages
  {
    if SocketIsOpen(st) then
      var (sid, st1) := SessionFor(env, st);
      st1.(outbox := st1.outbox + [SetCustomField(key, value, sid)])
    else st
  }

  /** clearMessages: the list is emptied; the reassembler and everything else are kept,
      so a stream in flight shows up again as a new message on its next fragment. */
  function ClearMessages(st: ClientState): (r: ClientState)
    ensures r.chat.messages == []
    ensures r.chat.stream == st.chat.stream && r.chat.isTyping == st.chat.isTyping && r.chat.drawn == st.chat.drawn
    ensures r == st.(chat := r.chat)
  {
    st.(chat := st.chat.(messages := []))
  }

  /** What can happen to the hook: the public actions and the browser's callbacks.
      `created` says whether constructing the socket succeeded. */
  datatype Event =
    | DoConnect(created: bool)
    | OpenFired(gen: nat)
    | CloseFired(gen: nat, code: int)
    | ErrorFired(gen: nat)
    | FrameReceived(frame: Frame)
    | ReconnectTimer(id: nat, created: bool)
    | PingInterval
    | DoDisconnect
    | DoSendMessage(text: string)
    | DoSendQuickReply(payload: string, title: string)
    | DoClearMessages
    | DoSetCustomField(key: string, value: string)
    | DoSetContext

  /** Every event but a close, with the program's own error handler, which applies to
      whichever socket fails. setContext only logs. */
  function Dispatch(env: Env, st: ClientState, e: Event): (r: ClientState)
    requires !e.CloseFired?
    ensures st.outbox <= r.outbox
    ensures st.sockets <= r.sockets
    ensures e.ErrorFired? ==> r == Errored(st)
  {
    match e
    case DoConnect(created) => Connect(env, st, created)
    case OpenFired(gen) => Opened(env, st, gen)
    case ErrorFired(_) => Errored(st)
    case FrameReceived(f) => HandleFrame(env, st, f)
    case ReconnectTimer(id, created) => ReconnectFired(env, st, id, created)
    case PingInterval => PingTick(st)
    case DoDisconnect => Disconnect(st)
    case DoSendMessage(text) => SendMessage(env, st, text)
    case DoSendQuickReply(payload, title) => SendQuickReply(env, st, payload, title)
    case DoClearMessages => ClearMessages(st)
    case DoSetCustomField(key, value) => SetField(env, st, key, value)
    case DoSetContext => st
  }

  /** Applies one event, with the corrected close and error handlers. Nothing sent is
      ever taken back, and socket generations are never reused. */
  function Step(env: Env, st: ClientState, e: Event): (r: ClientState)
    ensures st.outbox <= r.outbox
    ensures st.sockets <= r.sockets
    ensures e.CloseFired? ==> r == CloseEvent(st, e.gen, e.code)
    ensures e.ErrorFired? ==> r == ErrorEvent(st, e.gen)
  {
    if e.CloseFired? then CloseEvent(st, e.gen, e.code)
    else if e.ErrorFired? then ErrorEvent(st, e.gen)
    else Dispatch(env, st, e)
  }

  /** Applies one event as the program does, with its own close handler. */
  function StepAsWritten(env: Env, st: ClientState, e: Event): (r: ClientState)
    ensures st.outbox <= r.outbox
    ensures st.sockets <= r.sockets
    ensures e.CloseFired? ==> r == Closed(st, e.gen, e.code)
    ensures e.ErrorFired? ==> r == Errored(st)
  {
    if e.CloseFired? then Closed(st, e.gen, e.code) else Dispatch(env, st, e)
  }

  /** Applies events in order. */
  function RunEvents(env: Env, st: ClientState, events: seq<Event>): (r: ClientState)
    ensures st.outbox <= r.outbox
    ensures st.sockets <= r.sockets
    decreases |events|
  {
    if |events| == 0 then st else RunEvents(env, Step(env, st, events[0]), events[1..])
  }

  /** Applies events in order, as the program does. */
  function RunAsWritten(env: Env, st: ClientState, events: seq<Event>): (r: ClientState)
    ensures st.outbox <= r.outbox
    ensures st.sockets <= r.sockets
    decreases |events|
  {
    if |events| == 0 then st else RunAsWritten(env, StepAsWritten(env, st, events[0]), events[1..])
  }
}
