/** The whole state of the socket hook (src/hooks/useWeniSocket.ts) as one immutable
    record: the React state, the refs, the durable storage, and the frames sent so far. */
module State {
  import opened Opt
  import opened Types

  /** `WebSocket.readyState`. */
  datatype ReadyState = SocketConnecting | SocketOpen | SocketClosing | SocketClosed

  /** One socket object: its generation (which `connect` call created it), its ready
      state, and the session identifier its `onopen` handler registers with. */
  datatype Socket = Socket(gen: nat, ready: ReadyState, sessionId: string)

  /** Frames written to the socket, in order. */
  datatype OutFrame =
    | Register(from: string, callback: string, sessionType: string, token: Option<string>)
    | UserText(text: string, context: string, from: string)
    | Ping
    | SetCustomField(key: string, value: string, from: string)

  /** The reassembler's refs: active stream, reorder buffer, next expected sequence
      number, whether the stream's message exists, and the text of each known stream. */
  datatype StreamState = StreamState(
    active: Option<string>,
    pending: map<nat, string>,
    nextSeq: nat,
    emitted: bool,
    texts: map<string, string>)

  /** The configuration fields the hook reads. */
  datatype Config = Config(
    socketUrl: string,
    host: string,
    channelUuid: string,
    initPayload: Option<string>,
    sessionToken: Option<string>,
    sessionId: Option<string>)

  /** What the hook takes from outside: its configuration, the uuid generator (the
      `n`-th call returns `uuid(n)`), and the carousel parser, whose code is not part
      of this model. */
  datatype Env = Env(
    config: Config,
    uuid: nat -> string,
    isCarousel: string -> bool,
    parseCarousel: string -> seq<Product>,
    carouselText: string -> string)

  /** The part of the state the inbound handlers work on: the message list, the typing
      indicator, the reassembler's refs, and how many uuids have been drawn. */
  datatype Chat = Chat(
    messages: seq<Message>,
    isTyping: bool,
    stream: StreamState,
    drawn: nat)

  /** The reconnection timers: those scheduled and neither fired nor cleared (identifier
      to delay), the identifier `reconnectTimeoutRef` holds, which is the last one
      scheduled, and how many were ever scheduled (the next identifier). */
  datatype Timers = Timers(pending: map<nat, nat>, ref: Option<nat>, made: nat)

  const NoTimers := Timers(map[], None, 0)

  /** `reconnectTimeoutRef.current = setTimeout(..., delay)`: a new timer is pending and
      the ref is overwritten with it; the timers already pending stay pending. */
  function Schedule(t: Timers, delay: nat): Timers {
    Timers(t.pending[t.made := delay], Some(t.made), t.made + 1)
  }

  /** `clearTimeout(reconnectTimeoutRef.current)`: only the timer the ref holds is cleared. */
  function ClearRef(t: Timers): Timers {
    if t.ref.Some? then t.(pending := t.pending - {t.ref.value}) else t
  }

  datatype ClientState = ClientState(
    chat: Chat,
    isConnected: bool,
    isConnecting: bool,
    sessionId: Option<string>,
    hasError: bool,
    status: ConnectionStatus,
    registered: bool,
    attempts: nat,
    timers: Timers,
    pingRunning: bool,
    socket: Option<Socket>,
    sockets: nat,
    storage: map<string, string>,
    outbox: seq<OutFrame>)

  const InitialSeq: nat := 1

  /** resetStreamState: a new active stream (or none), empty buffer, sequence back to 1,
      nothing emitted. The texts of all streams are kept. */
  function Reset(s: StreamState, id: Option<string>): StreamState {
    StreamState(id, map[], InitialSeq, false, s.texts)
  }

  const IdleStream := StreamState(None, map[], InitialSeq, false, map[])

  /** The state the hook mounts with. */
  function Initial(storage: map<string, string>): ClientState {
    ClientState(Chat([], false, IdleStream, 0), false, false, None, false, Disconnected, false,
                0, NoTimers, false, None, 0, storage, [])
  }

  /** One call of `uuidv4()`. */
  function Draw(env: Env, c: Chat): (string, Chat) {
    (env.uuid(c.drawn), c.(drawn := c.drawn + 1))
  }

  /** The current socket exists and is open (`wsRef.current?.readyState === OPEN`). */
  predicate SocketIsOpen(st: ClientState) {
    st.socket.Some? && st.socket.value.ready == SocketOpen
  }

  /** The reassembler invariant: sequence numbers start at 1, every buffered fragment
      lies strictly beyond the next expected one, a stream that has advanced has its
      message emitted, an active stream has a text entry,
      and an idle reassembler holds nothing. */
  predicate StreamInv(s: StreamState) {
    && s.nextSeq >= InitialSeq
    && (forall k :: k in s.pending ==> k > s.nextSeq)
    && (s.nextSeq > InitialSeq ==> s.emitted)
    && (s.active.Some? ==> s.active.value in s.texts)
    && (s.active.None? ==> s.pending == map[] && s.nextSeq == InitialSeq && !s.emitted)
  }
}
