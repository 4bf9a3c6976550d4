/** Properties of the connection life cycle (src/hooks/useWeniSocket.ts): the state
    invariant every event keeps, the bound on automatic reconnections, the backoff
    schedule, intentional disconnection, registration and session stability. */
module ClientProofs {
  import opened Opt
  import opened Types
  import opened Frames
  import opened State
  import opened Session
  import opened Urls
  import opened Reassembler
  import opened Decoder
  import opened Evolution
  import opened Client

  /** What holds of every state the program as written reaches: the reassembler's
      invariant; every message's kind agrees with its metadata; the connecting flag
      mirrors the status; the current socket was created by an earlier connect; the
      keep-alive only runs with a socket. */
  predicate Sound(st: ClientState) {
    && StreamInv(st.chat.stream)
    && AllFit(st.chat.messages)
    && (st.isConnecting <==> st.status == Connecting)
    && (st.socket.Some? ==> st.socket.value.gen < st.sockets)
    && (st.pingRunning ==> st.socket.Some?)
  }

  /** At most one reconnection timer is pending, and it is the one the ref holds. */
  predicate OneTimer(t: Timers) {
    t.pending.Keys == {} || (t.ref.Some? && t.pending.Keys == {t.ref.value})
  }

  /** The invariant of the corrected client: Sound; at most five attempts are counted;
      at most one reconnection is pending, and it leaves room for one more attempt. */
  predicate Valid(st: ClientState) {
    && Sound(st)
    && st.attempts <= MaxReconnectAttempts
    && OneTimer(st.timers)
    && (st.timers.pending.Keys != {} ==> st.attempts < MaxReconnectAttempts)
  }

  lemma InitialValid(storage: map<string, string>)
    ensures Valid(Initial(storage))
  {
  }

  /** A frame's chat effect keeps the reassembler's invariant and only extends the
      message list. */
  lemma ChatEffectEvolves(env: Env, c: Chat, f: Frame)
    requires StreamInv(c.stream)
    ensures StreamInv(ChatEffect(env, c, f).stream) && Evolves(c.messages, ChatEffect(env, c, f).messages)
  {
    match Route(f)
    case OnDelta => DeltaEvolves(env, c, f);
    case OnStreamEnd => EndEvolves(c, f);
    case OnMessage => DecodeEvolves(env, c, f);
    case _ =>
  }

  lemma FrameEvolves(env: Env, st: ClientState, f: Frame)
    requires StreamInv(st.chat.stream)
    ensures var r := HandleFrame(env, st, f);
            StreamInv(r.chat.stream) && Evolves(st.chat.messages, r.chat.messages)
  {
    if Route(f) != OnReady {
      ChatEffectEvolves(env, st.chat, f);
    }
  }

  lemma FrameValid(env: Env, st: ClientState, f: Frame)
    ensures Sound(st) ==> Sound(HandleFrame(env, st, f))
    ensures Valid(st) ==> Valid(HandleFrame(env, st, f))
  {
    if Sound(st) {
      FrameEvolves(env, st, f);
      EvolvesFit(st.chat.messages, HandleFrame(env, st, f).chat.messages);
    }
  }

  /** Connect keeps both invariants: the new socket is the newest generation. */
  lemma ConnectValid(env: Env, st: ClientState, created: bool)
    ensures Sound(st) ==> Sound(Connect(env, st, created))
    ensures Valid(st) ==> Valid(Connect(env, st, created))
  {
  }

  lemma OpenedValid(env: Env, st: ClientState, gen: nat)
    ensures Sound(st) ==> Sound(Opened(env, st, gen))
    ensures Valid(st) ==> Valid(Opened(env, st, gen))
  {
  }

  /** The close handler as written keeps Sound (and nothing about the timers). */
  lemma ClosedSound(st: ClientState, gen: nat, code: int)
    requires Sound(st)
    ensures Sound(Closed(st, gen, code))
  {
  }

  /** The corrected close handler keeps a single pending timer, scheduled only while
      attempts remain. */
  lemma CloseValid(st: ClientState, gen: nat, code: int)
    requires Valid(st)
    ensures Valid(CloseEvent(st, gen, code))
  {
    if IsCurrent(st, gen) && code != NormalClosure && st.attempts < MaxReconnectAttempts {
      var r := CloseEvent(st, gen, code);
      assert ClearRef(st.timers).pending.Keys == {};
      assert r.timers.pending.Keys == {st.timers.made};
    }
  }

  lemma ReconnectSound(env: Env, st: ClientState, id: nat, created: bool)
    requires Sound(st)
    ensures Sound(ReconnectFired(env, st, id, created))
  {
    if id in st.timers.pending {
      ConnectValid(env, st.(timers := st.timers.(pending := st.timers.pending - {id}), attempts := st.attempts + 1),
                   created);
    }
  }

  /** A firing reconnection counts an attempt that the pending timer left room for, and
      spends the only pending timer. */
  lemma ReconnectValid(env: Env, st: ClientState, id: nat, created: bool)
    requires Valid(st)
    ensures Valid(ReconnectFired(env, st, id, created))
  {
    if id in st.timers.pending {
      var st1 := st.(timers := st.timers.(pending := st.timers.pending - {id}), attempts := st.attempts + 1);
      assert st1.timers.pending.Keys == {};
      ConnectValid(env, st1, created);
    }
  }

  /** Disconnect keeps both invariants; in the corrected client it leaves no timer. */
  lemma DisconnectValid(st: ClientState)
    ensures Sound(st) ==> Sound(Disconnect(st))
    ensures Valid(st) ==> Valid(Disconnect(st)) && Disconnect(st).timers.pending.Keys == {}
  {
  }

  /** The two send actions append one well-formed user message. */
  lemma PostValid(env: Env, st: ClientState, shown: string, sent: string)
    ensures Sound(st) ==> Sound(Post(env, st, shown, sent))
    ensures Valid(st) ==> Valid(Post(env, st, shown, sent))
  {
    var r := Post(env, st, shown, sent);
    assert KindFits(r.chat.messages[|st.chat.messages|]);
    assert forall j :: 0 <= j < |st.chat.messages| ==> r.chat.messages[j] == st.chat.messages[j];
  }

  /** Every event but a close keeps Sound. */
  lemma DispatchSound(env: Env, st: ClientState, e: Event)
    requires !e.CloseFired?
    requires Sound(st)
    ensures Sound(Dispatch(env, st, e))
  {
    match e
    case DoConnect(created) => ConnectValid(env, st, created);
    case OpenFired(gen) => OpenedValid(env, st, gen);
    case ErrorFired(_) =>
    case FrameReceived(f) => FrameValid(env, st, f);
    case ReconnectTimer(id, created) => ReconnectSound(env, st, id, created);
    case PingInterval =>
    case DoDisconnect => DisconnectValid(st);
    case DoSendMessage(text) =>
      if SocketIsOpen(st) && st.registered { PostValid(env, st, text, text); }
    case DoSendQuickReply(payload, title) =>
      if SocketIsOpen(st) { PostValid(env, st, title, payload); }
    case DoClearMessages =>
    case DoSetCustomField(key, value) =>
    case DoSetContext =>
  }

  /** Every event but a close keeps the corrected client's invariant. */
  lemma DispatchValid(env: Env, st: ClientState, e: Event)
    requires !e.CloseFired?
    requires Valid(st)
    ensures Valid(Dispatch(env, st, e))
  {
    match e
    case DoConnect(created) => ConnectValid(env, st, created);
    case OpenFired(gen) => OpenedValid(env, st, gen);
    case ErrorFired(_) =>
    case FrameReceived(f) => FrameValid(env, st, f);
    case ReconnectTimer(id, created) => ReconnectValid(env, st, id, created);
    case PingInterval =>
    case DoDisconnect => DisconnectValid(st);
    case DoSendMessage(text) =>
      if SocketIsOpen(st) && st.registered { PostValid(env, st, text, text); }
    case DoSendQuickReply(payload, title) =>
      if SocketIsOpen(st) { PostValid(env, st, title, payload); }
    case DoClearMessages =>
    case DoSetCustomField(key, value) =>
    case DoSetContext =>
  }

  /** Every event keeps the corrected client's invariant. */
  lemma StepValid(env: Env, st: ClientState, e: Event)
    requires Valid(st)
    ensures Valid(Step(env, st, e))
  {
    if e.CloseFired? {
      CloseValid(st, e.gen, e.code);
    } else if e.ErrorFired? {
      DispatchValid(env, st, e);
    } else {
      DispatchValid(env, st, e);
    }
  }

  /** Every event keeps Sound in the program as written. */
  lemma StepAsWrittenSound(env: Env, st: ClientState, e: Event)
    requires Sound(st)
    ensures Sound(StepAsWritten(env, st, e))
  {
    if e.CloseFired? {
      ClosedSound(st, e.gen, e.code);
    } else {
      DispatchSound(env, st, e);
    }
  }

  /** The current socket is the one of generation `gen`. */
  predicate IsCurrent(st: ClientState, gen: nat) {
    st.socket.Some? && st.socket.value.gen == gen
  }

  /** A frame, a tick of the keep-alive, or a user action other than connect and
      disconnect. */
  predicate UserOrFrame(e: Event) {
    e.FrameReceived? || e.PingInterval? || e.DoSendMessage? || e.DoSendQuickReply?
    || e.DoClearMessages? || e.DoSetCustomField? || e.DoSetContext?
  }

  /** How each event moves the connection status: connect to `connecting` (or `error`
      when the socket cannot be created), the current socket's open to `connected`, its
      close to `disconnected`, an error to `error`, disconnect to `disconnected`; frames
      and the user's actions other than connect leave it alone. */
  lemma StatusEvents(env: Env, st: ClientState, e: Event)
    ensures var r := Step(env, st, e);
            && (e.DoConnect? && !SocketIsOpen(st) ==> r.status == (if e.created then Connecting else Error))
            && (e.OpenFired? && IsCurrent(st, e.gen) && st.socket.value.ready == SocketConnecting ==>
                  r.status == Connected)
            && (e.CloseFired? && IsCurrent(st, e.gen) ==> r.status == Disconnected)
            && (e.ErrorFired? && IsCurrent(st, e.gen) ==> r.status == Error && r.hasError)
            && (e.ErrorFired? && !IsCurrent(st, e.gen) ==> r == st)
            && (e.DoDisconnect? ==> r.status == Disconnected)
            && (UserOrFrame(e) ==> r.status == st.status)
  {
    match e
    case FrameReceived(f) =>
    case _ =>
  }

  /** The registration flag is raised only by `ready_for_message`, and is cleared by
      connect, by the current socket's close and by disconnect. */
  lemma RegistrationEvents(env: Env, st: ClientState, e: Event)
    ensures var r := Step(env, st, e);
            && (!st.registered && r.registered ==> e.FrameReceived? && e.frame.typ == Some("ready_for_message"))
            && (e.DoConnect? && !SocketIsOpen(st) ==> !r.registered)
            && (e.CloseFired? && IsCurrent(st, e.gen) ==> !r.registered)
            && (e.DoDisconnect? ==> !r.registered)
  {
    match e
    case FrameReceived(f) =>
    case ReconnectTimer(id, created) =>
    case _ =>
  }

  /** Any run of events from a valid state ends in a valid state. */
  lemma {:induction false} RunValid(env: Env, st: ClientState, events: seq<Event>)
    requires Valid(st)
    ensures Valid(RunEvents(env, st, events))
    decreases |events|
  {
    if |events| > 0 {
      StepValid(env, st, events[0]);
      RunValid(env, Step(env, st, events[0]), events[1..]);
    }
  }

  /** Any run of events of the program as written keeps Sound. */
  lemma {:induction false} RunAsWrittenSound(env: Env, st: ClientState, events: seq<Event>)
    requires Sound(st)
    ensures Sound(RunAsWritten(env, st, events))
    decreases |events|
  {
    if |events| > 0 {
      StepAsWrittenSound(env, st, events[0]);
      RunAsWrittenSound(env, StepAsWritten(env, st, events[0]), events[1..]);
    }
  }

  /** An event that is neither a successful open nor a disconnect: the only two that
      reset the attempt counter. */
  predicate Unattended(e: Event) {
    !e.OpenFired? && !e.DoDisconnect?
  }

  /** The reconnection timer firing while a reconnection is pending. */
  predicate Reconnects(st: ClientState, e: Event) {
    e.ReconnectTimer? && e.id in st.timers.pending
  }

  /** How many automatic reconnections a run of events performs. */
  function ReconnectCount(env: Env, st: ClientState, events: seq<Event>): nat
    decreases |events|
  {
    if |events| == 0 then 0
    else (if Reconnects(st, events[0]) then 1 else 0) + ReconnectCount(env, Step(env, st, events[0]), events[1..])
  }

  /** Only a firing reconnection counts an attempt, and only an open or a disconnect
      resets the count. */
  lemma AttemptsStep(env: Env, st: ClientState, e: Event)
    requires Unattended(e)
    ensures Step(env, st, e).attempts == st.attempts + (if Reconnects(st, e) then 1 else 0)
  {
    match e
    case FrameReceived(f) =>
    case _ =>
  }

  /** Between a successful open (or a disconnect) and the next, the client reconnects by
      itself at most five times, and each automatic reconnection is counted. */
  lemma {:induction false} ReconnectsBounded(env: Env, st: ClientState, events: seq<Event>)
    requires Valid(st)
    requires forall i :: 0 <= i < |events| ==> Unattended(events[i])
    ensures ReconnectCount(env, st, events) <= MaxReconnectAttempts - st.attempts
    ensures RunEvents(env, st, events).attempts == st.attempts + ReconnectCount(env, st, events)
    decreases |events|
  {
    if |events| > 0 {
      var e := events[0];
      var st1 := Step(env, st, e);
      AttemptsStep(env, st, e);
      StepValid(env, st, e);
      assert forall i :: 0 <= i < |events[1..]| ==> Unattended(events[1..][i]) by {
        forall i | 0 <= i < |events[1..]| ensures Unattended(events[1..][i]) {
          assert events[1..][i] == events[i + 1];
        }
      }
      ReconnectsBounded(env, st1, events[1..]);
    }
  }

  lemma {:induction false} Pow2Monotone(a: nat, b: nat)
    requires a <= b
    ensures Pow2(a) <= Pow2(b)
    decreases b
  {
    if a < b {
      Pow2Monotone(a, b - 1);
    }
  }

  /** The backoff never shrinks as attempts accumulate. */
  lemma DelayMonotone(a: nat, b: nat)
    requires a <= b
    ensures Delay(a) <= Delay(b)
  {
    Pow2Monotone(a, b);
  }

  /** The five delays the client waits before its reconnections: 1, 2, 4 and 8 seconds,
      then the 10-second cap. */
  lemma BackoffSchedule()
    ensures Delay(0) == 1000 && Delay(1) == 2000 && Delay(2) == 4000 && Delay(3) == 8000
    ensures Delay(4) == MaxDelay
  {
    assert Pow2(4) == 16;
  }

  /** In the corrected client, after an intentional disconnect the close of the dropped
      socket, whatever its code and whether or not an error precedes it, schedules
      nothing and changes nothing, no timer is left to fire, and the
      client stays disconnected and silent: no socket, no keep-alive, and no send action
      writes anything. */
  lemma DisconnectIsFinal(env: Env, st: ClientState, gen: nat, code: int, text: string, payload: string,
                          title: string)
    requires Valid(st)
    ensures var d := CloseEvent(Disconnect(st), gen, code);
            && d == Disconnect(st)
            && Step(env, Step(env, Disconnect(st), ErrorFired(gen)), CloseFired(gen, code)) == d
            && d.timers.pending.Keys == {} && d.status == Disconnected && d.socket.None? && !d.pingRunning
            && PingTick(d).outbox == d.outbox
            && SendMessage(env, d, text).outbox == d.outbox
            && SendQuickReply(env, d, payload, title).outbox == d.outbox
            && (forall id: nat :: ReconnectFired(env, d, id, true) == d)
  {
    DisconnectValid(st);
  }

  /** As written, disconnect during the handshake does not stay disconnected. Closing a
      socket that is still connecting fails the connection, so no Close frame is
      exchanged and its close event carries code 1006 (section 7.1.5 of RFC 6455); the
      close handler, which does not check which socket closed, schedules a reconnection
      that connects again. */
  lemma DisconnectWhileConnectingReconnects(env: Env, storage: map<string, string>)
    ensures var c := Closed(Disconnect(Connect(env, Initial(storage), true)), 0, 1006);
            && c.timers.pending.Keys == {0} && c.status == Disconnected
            && var r := ReconnectFired(env, c, 0, true);
               r.socket.Some? && r.status == Connecting && r.attempts == 1
    ensures var d := Disconnect(Connect(env, Initial(storage), true));
            var w := StepAsWritten(env, StepAsWritten(env, d, ErrorFired(0)), CloseFired(0, 1006));
            && StepAsWritten(env, d, ErrorFired(0)).status == Error
            && w.timers.pending.Keys == {0} && w.hasError
  {
  }

  /** The session identifier connect would register with: the configured one, else the
      stored one, else the next uuid. */
  function ExpectedSession(env: Env, st: ClientState): string {
    if Truthy(env.config.sessionId) then env.config.sessionId.value
    else if Truthy(Stored(st.storage, env.config.channelUuid)) then st.storage[StorageKey(env.config.channelUuid)]
    else env.uuid(st.chat.drawn)
  }

  /** connect followed by the new socket's open: the client is connected and has sent
      exactly one frame, the `register` frame, carrying the configured, stored or freshly
      drawn session identifier, which the client adopts. */
  lemma ConnectThenOpenRegisters(env: Env, st: ClientState)
    requires !SocketIsOpen(st)
    ensures var o := Opened(env, Connect(env, st, true), st.sockets);
            && o.status == Connected && SocketIsOpen(o) && o.attempts == 0 && !o.registered
            && o.sessionId == Some(ExpectedSession(env, st))
            && o.outbox == st.outbox + [RegisterFrame(env.config, ExpectedSession(env, st))]
  {
  }

  /** A reconnection registers with the same session identifier as the connection
      before it, so the conversation continues (given a non-empty uuid). */
  lemma ReconnectKeepsSession(env: Env, st: ClientState, code: int)
    requires !SocketIsOpen(st) && env.uuid(st.chat.drawn) != ""
    requires code != NormalClosure && st.attempts < MaxReconnectAttempts
    ensures var c1 := Connect(env, st, true);
            var c2 := ReconnectFired(env, CloseEvent(c1, st.sockets, code), st.timers.made, true);
            c2.socket.Some? && c2.socket.value.sessionId == c1.socket.value.sessionId
  {
    var c1 := Connect(env, st, true);
    var ch := env.config.channelUuid;
    var l1 := GetSessionId(ch, env.config.sessionId, st.storage, env.uuid(st.chat.drawn));
    assert c1.storage == l1.storage;
    if !Truthy(env.config.sessionId) {
      LookupIdempotent(ch, st.storage, env.uuid(st.chat.drawn), env.uuid(c1.chat.drawn));
    }
  }

  /** The `ready_for_message` frame.*/
  const ReadyFrame := Frame(Some("ready_for_message"), None, None, None, None, None, NoSeq)

  /** sendMessage is refused until the server has said `ready_for_message` on the
      current connection; after it, on an open socket, the text goes out. */
  lemma SendNeedsRegistration(env: Env, st: ClientState, text: string)
    requires SocketIsOpen(st) && !st.registered
    ensures SendMessage(env, st, text) == st
    ensures var r := HandleFrame(env, st, ReadyFrame);
            SendMessage(env, r, text).outbox[|r.outbox|] == UserText(text, "", SessionFor(env, r).0)
  {
  }

  /** As written, the close handler does not check which socket closed. A second
      connect while the first socket is still connecting replaces it; if the replaced
      socket's close (code 1006) arrives after the new socket has opened and the server
      has accepted registration, the client reports itself disconnected and unregistered
      and stops the keep-alive while its socket is open, so sendMessage is refused and a
      reconnection is scheduled that will find the socket open and do nothing. The
      replaced socket's error, which the browser fires before that close, already
      marks the open, registered connection as failed. */
  lemma StaleCloseTearsDown(env: Env, storage: map<string, string>, text: string)
    ensures var c1 := Connect(env, Connect(env, Initial(storage), true), true);
            var o := HandleFrame(env, Opened(env, c1, 1), ReadyFrame);
            var r := Closed(o, 0, 1006);
            && SocketIsOpen(o) && o.registered && o.status == Connected && o.pingRunning
            && SocketIsOpen(r) && !r.registered && r.status == Disconnected && !r.isConnected && !r.pingRunning
            && SendMessage(env, r, text) == r
            && o.timers.made in r.timers.pending && ReconnectFired(env, r, o.timers.made, true).socket == r.socket
    ensures var c1 := Connect(env, Connect(env, Initial(storage), true), true);
            var o := HandleFrame(env, Opened(env, c1, 1), ReadyFrame);
            var e := StepAsWritten(env, o, ErrorFired(0));
            && SocketIsOpen(e) && e.registered && e.status == Error && e.hasError
  {
  }

  /** With the corrected handlers the same events, with or without the replaced
      socket's error before its close, leave the connection intact. */
  lemma StaleCloseIgnored(env: Env, storage: map<string, string>, text: string)
    ensures var c1 := Connect(env, Connect(env, Initial(storage), true), true);
            var o := HandleFrame(env, Opened(env, c1, 1), ReadyFrame);
            var r := CloseEvent(o, 0, 1006);
            && r == o && Step(env, Step(env, o, ErrorFired(0)), CloseFired(0, 1006)) == o
            && SocketIsOpen(r) && r.registered && r.status == Connected && r.pingRunning
            && |SendMessage(env, r, text).outbox| == |r.outbox| + 1
  {
  }

  /** One failed handshake in the program as written: the current socket closes
      abnormally, the timer it schedules fires, and connect creates the next socket. */
  function Retry(env: Env, st: ClientState): (r: ClientState)
    ensures st.socket.Some? && st.socket.value.ready == SocketConnecting && st.socket.value.gen + 1 == st.sockets
            && st.attempts < MaxReconnectAttempts && st.timers.pending == map[] ==>
              && r.attempts == st.attempts + 1 && r.timers.pending == map[] && r.timers.made == st.timers.made + 1
              && r.socket.Some? && r.socket.value.ready == SocketConnecting && r.socket.value.gen + 1 == r.sockets
              && r.sockets == st.sockets + 1
  {
    if st.socket.None? then st
    else
      var c := Closed(st, st.socket.value.gen, 1006);
      assert st.attempts < MaxReconnectAttempts && st.timers.pending == map[] ==>
               c.timers.pending == map[st.timers.made := Delay(st.attempts)];
      ReconnectFired(env, c, st.timers.made, true)
  }

  /** As written, each abnormal close schedules a timer without clearing the one pending.
      With four failed attempts counted, the connecting socket closes abnormally and
      schedules timer `t`; connect (which the widget calls whenever it sees the client
      disconnected) opens a socket that closes abnormally too, still with four attempts
      counted, and schedules timer `t+1`. Both fire, and the client makes six automatic
      attempts, more than its limit. */
  lemma TimersOverrun(env: Env, st: ClientState)
    requires st.socket.Some? && st.socket.value.ready == SocketConnecting && st.socket.value.gen + 1 == st.sockets
    requires st.attempts == MaxReconnectAttempts - 1 && st.timers.pending == map[]
    ensures var t := st.timers.made;
            var s5 := Closed(Connect(env, Closed(st, st.socket.value.gen, 1006), true), st.sockets, 1006);
            && s5.timers.pending.Keys == {t, t + 1} && s5.attempts == MaxReconnectAttempts - 1
            && ReconnectFired(env, ReconnectFired(env, s5, t, true), t + 1, true).attempts == MaxReconnectAttempts + 1
  {
    var t := st.timers.made;
    var c4 := Closed(st, st.socket.value.gen, 1006);
    assert c4.timers.pending.Keys == {t} && c4.timers.made == t + 1 && !SocketIsOpen(c4);
    var n5 := Connect(env, c4, true);
    assert n5.socket.value.gen == st.sockets && n5.attempts == st.attempts && n5.timers == c4.timers;
    var s5 := Closed(n5, st.sockets, 1006);
    assert s5.timers.pending.Keys == {t, t + 1};
    var f4 := ReconnectFired(env, s5, t, true);
    assert f4.attempts == MaxReconnectAttempts && t + 1 in f4.timers.pending;
  }

  /** The state TimersOverrun starts from is reached from the mounted hook by connect
      and four failed attempts. */
  lemma FourFailures(env: Env, storage: map<string, string>)
    ensures var st := Cycles(env, Connect(env, Initial(storage), true), MaxReconnectAttempts - 1);
            && st.socket.Some? && st.socket.value.ready == SocketConnecting && st.socket.value.gen + 1 == st.sockets
            && st.attempts == MaxReconnectAttempts - 1 && st.timers.pending == map[]
  {
    CyclesCount(env, Connect(env, Initial(storage), true), MaxReconnectAttempts - 1);
  }

  /** `n` failed handshakes in a row. */
  function Cycles(env: Env, st: ClientState, n: nat): ClientState
    decreases n
  {
    if n == 0 then st else Cycles(env, Retry(env, st), n - 1)
  }

  lemma {:induction false} CyclesCount(env: Env, st: ClientState, n: nat)
    requires st.socket.Some? && st.socket.value.ready == SocketConnecting && st.socket.value.gen + 1 == st.sockets
    requires st.attempts + n <= MaxReconnectAttempts && st.timers.pending == map[]
    ensures var r := Cycles(env, st, n);
            && r.attempts == st.attempts + n && r.timers.pending == map[] && r.timers.made == st.timers.made + n
            && r.socket.Some? && r.socket.value.ready == SocketConnecting && r.socket.value.gen + 1 == r.sockets
            && r.sockets == st.sockets + n
    decreases n
  {
    if n > 0 {
      CyclesCount(env, Retry(env, st), n - 1);
    }
  }

  /** As written, disconnect clears only the timer the ref holds. Two abnormal closes
      of successive sockets leave two timers; after disconnect the older one still
      fires and connects again, though the user disconnected. */
  lemma DisconnectSparesOlderTimer(env: Env, storage: map<string, string>)
    ensures var s := Closed(Connect(env, Closed(Connect(env, Initial(storage), true), 0, 1006), true), 1, 1006);
            var d := Disconnect(s);
            && s.timers.pending.Keys == {0, 1} && d.timers.pending.Keys == {0} && d.socket.None?
            && var r := ReconnectFired(env, d, 0, true);
               r.socket.Some? && r.status == Connecting
  {
    var s := Closed(Connect(env, Closed(Connect(env, Initial(storage), true), 0, 1006), true), 1, 1006);
    assert s.timers.pending.Keys == {0, 1};
  }

  /** With the corrected close handler, the same events leave a single timer, which
      disconnect clears. */
  lemma DisconnectClearsTimer(env: Env, storage: map<string, string>)
    ensures var s := CloseEvent(Connect(env, CloseEvent(Connect(env, Initial(storage), true), 0, 1006), true), 1, 1006);
            var d := Disconnect(s);
            && s.timers.pending.Keys == {1} && d.timers.pending.Keys == {}
            && ReconnectFired(env, d, 0, true) == d
  {
    var s1 := CloseEvent(Connect(env, Initial(storage), true), 0, 1006);
    assert s1.timers.pending.Keys == {0};
  }
}
