/** The reassembler's correctness: after `stream_start`, fragments 1..n delivered in any
    order, each at least once, leave the stream's text and its message's text equal to
    the in-order concatenation of the fragments, with the buffer empty and the next
    expected sequence number n+1 (src/hooks/useWeniSocket.ts, processDelta and
    applyPendingDeltas). */
module ReassemblyProofs {
  import opened Opt
  import opened Types
  import opened Frames
  import opened Messages
  import opened State
  import opened Reassembler

  /** Reference definition: the first `k` fragments joined in order. */
  function Join(frags: seq<string>, k: nat): string
    requires k <= |frags|
  {
    if k == 0 then "" else Join(frags, k - 1) + frags[k - 1]
  }

  /** A `stream_start` frame carrying the raw id `raw`. */
  function StartFrame(raw: string): Frame {
    Frame(Some("stream_start"), None, None, None, Some(raw), None, NoSeq)
  }

  /** A `stream_end` frame carrying the raw id `raw`. */
  function EndFrame(raw: string): Frame {
    Frame(Some("stream_end"), None, None, None, Some(raw), None, NoSeq)
  }

  /** The sequence numbers among the first `i` of a delivery order. */
  function Arrived(order: seq<nat>, i: nat): set<nat>
    requires i <= |order|
  {
    if i == 0 then {} else Arrived(order, i - 1) + {order[i - 1]}
  }

  /** One more element of the order arrives. */
  lemma ArrivedNext(order: seq<nat>, i: nat)
    requires i < |order|
    ensures Arrived(order, i + 1) == Arrived(order, i) + {order[i]}
  {
  }

  /** Every element among the first `i` has arrived. */
  lemma {:induction false} ArrivedHas(order: seq<nat>, i: nat, k: nat)
    requires k < i <= |order|
    ensures order[k] in Arrived(order, i)
    decreases i
  {
    if k < i - 1 {
      ArrivedHas(order, i - 1, k);
    }
  }

  /** The state of stream `id` after the fragments `delivered` (a subset of 1..n) arrived:
      everything below the next expected number has arrived and been applied in order,
      and the buffer holds exactly the arrived fragments beyond it. */
  ghost predicate Shape(s: StreamState, id: string, frags: seq<string>, delivered: set<nat>) {
    && s.active == Some(id)
    && StreamInv(s)
    && s.nextSeq <= |frags| + 1
    && (forall k :: k in delivered ==> 1 <= k <= |frags|)
    && (forall j :: 1 <= j < s.nextSeq ==> j in delivered)
    && s.nextSeq !in delivered
    && (forall k :: k in s.pending <==> k in delivered && k > s.nextSeq)
    && (forall k :: k in s.pending ==> 1 <= k <= |frags| && s.pending[k] == frags[k - 1])
    && id in s.texts
    && s.texts[id] == Join(frags, s.nextSeq - 1)
  }

  /** The stream's message exists, shows the stream's text, and is still streaming. */
  ghost predicate Shown(c: Chat, id: string) {
    c.stream.emitted && id in c.stream.texts && TextOf(c.messages, id) == Some(c.stream.texts[id])
    && StreamingAt(c.messages, id)
  }

  /** Shape, plus: the message is shown exactly when some fragment has arrived. */
  ghost predicate Reassembling(c: Chat, id: string, frags: seq<string>, delivered: set<nat>) {
    && Shape(c.stream, id, frags, delivered)
    && (c.stream.emitted <==> delivered != {})
    && (c.stream.emitted ==> Shown(c, id))
  }

  /** Joining a contiguous buffered run continues the in-order concatenation. */
  lemma {:induction false} JoinRun(frags: seq<string>, p: map<nat, string>, a: nat, b: nat)
    requires 1 <= a <= b <= |frags| + 1
    requires forall j :: a <= j < b ==> j in p && p[j] == frags[j - 1]
    ensures Join(frags, a - 1) + Run(p, a, b) == Join(frags, b - 1)
    decreases b - a
  {
    if a < b {
      JoinRun(frags, p, a + 1, b);
      assert Run(p, a, b) == p[a] + Run(p, a + 1, b);
      assert Join(frags, a) == Join(frags, a - 1) + frags[a - 1];
    } else {
      RunEmpty(p, a);
    }
  }

  /** `stream_start` puts stream `msg_<raw>` in its initial reassembling state. */
  lemma {:induction false} StartReassembling(c: Chat, raw: string, frags: seq<string>)
    requires raw != ""
    ensures Reassembling(StreamStart(c, StartFrame(raw)), MessageIdPrefix + raw, frags, {})
  {
    assert MessageIdOf(StartFrame(raw)) == Some(MessageIdPrefix + raw);
  }

  /** Admitting a fragment of the active stream leaves its reassembly state alone
      and makes sure its message is shown. */
  lemma {:induction false} AdmitShows(env: Env, c: Chat, id: string, frags: seq<string>,
                                      delivered: set<nat>, f: Frame)
    requires Reassembling(c, id, frags, delivered)
    ensures Admit(env, c, f).0 == id
    ensures Admit(env, c, f).1.stream == c.stream.(emitted := true)
    ensures Shown(Admit(env, c, f).1, id)
  {
    var c2 := Admit(env, c, f).1;
    if c.stream.nextSeq != InitialSeq {
      assert c.stream.emitted;
    } else if !c.stream.emitted {
      assert delivered == {};
      assert c.stream.texts[id] == Join(frags, 0) == "";
    }
  }

  /** A fragment behind the next expected one changes nothing. */
  lemma {:induction false} PlaceBehind(c: Chat, id: string, frags: seq<string>, delivered: set<nat>, s: nat,
                                     after: set<nat>)
    requires after == delivered + {s}
    requires Shape(c.stream, id, frags, delivered) && Shown(c, id)
    requires 1 <= s < c.stream.nextSeq
    ensures Shape(Place(c, id, s, frags[s - 1]).stream, id, frags, after)
    ensures Shown(Place(c, id, s, frags[s - 1]), id)
  {
    assert s in delivered;
    assert after == delivered;
  }

  /** A fragment ahead of the next expected one is buffered under its number. */
  lemma {:induction false} PlaceAhead(c: Chat, id: string, frags: seq<string>, delivered: set<nat>, s: nat,
                                     after: set<nat>)
    requires after == delivered + {s}
    requires Shape(c.stream, id, frags, delivered) && Shown(c, id)
    requires c.stream.nextSeq < s <= |frags|
    ensures Shape(Place(c, id, s, frags[s - 1]).stream, id, frags, after)
    ensures Shown(Place(c, id, s, frags[s - 1]), id)
  {
    var r := Place(c, id, s, frags[s - 1]);
    assert r.stream == c.stream.(pending := c.stream.pending[s := frags[s - 1]]);
    assert r.messages == c.messages;
  }

  /** The buffer bookkeeping of the in-order case: taking the run `[n+1, b)` out of a
      buffer that held exactly the arrived numbers above `n` leaves exactly the arrived
      numbers above `b`, once `n` itself has arrived. */
  lemma {:induction false} NextBookkeeping(p: map<nat, string>, q: map<nat, string>, frags: seq<string>,
                                           delivered: set<nat>, n: nat, b: nat)
    requires 1 <= n <= |frags|
    requires forall k :: k in delivered ==> 1 <= k <= |frags|
    requires forall j :: 1 <= j < n ==> j in delivered
    requires forall k :: k in p <==> k in delivered && k > n
    requires forall k :: k in p ==> 1 <= k <= |frags| && p[k] == frags[k - 1]
    requires b > n && b !in p
    requires forall j :: n < j < b ==> j in p
    requires q == RemoveRange(p, n + 1, b)
    ensures b <= |frags| + 1
    ensures forall k :: k in delivered + {n} ==> 1 <= k <= |frags|
    ensures forall j :: 1 <= j < b ==> j in delivered + {n}
    ensures b !in delivered + {n}
    ensures forall k :: k in q <==> k in delivered + {n} && k > b
    ensures forall k :: k in q ==> 1 <= k <= |frags| && q[k] == frags[k - 1]
  {
    if b > n + 1 {
      assert b - 1 in p;
    }
    forall j | 1 <= j < b
      ensures j in delivered + {n}
    {
      if j > n {
        assert j in p;
      }
    }
  }

  /** `r` is stream `st` after fragment `content` was applied in order together with the
      buffered run `[nextSeq+1, b)` it completed (what ApplyInOrder promises). */
  predicate Advanced(st: StreamState, r: StreamState, id: string, content: string) {
    && r.active == st.active && r.emitted == st.emitted
    && r.nextSeq > st.nextSeq && r.nextSeq !in st.pending
    && (forall j :: st.nextSeq < j < r.nextSeq ==> j in st.pending)
    && r.pending == RemoveRange(st.pending, st.nextSeq + 1, r.nextSeq)
    && id in st.texts
    && r.texts == st.texts[id := st.texts[id] + content + Run(st.pending, st.nextSeq + 1, r.nextSeq)]
  }

  /** ApplyInOrder advances the stream, and its message shows the new text. */
  lemma InOrderAdvances(c: Chat, id: string, content: string)
    requires id in c.stream.texts
    ensures Advanced(c.stream, ApplyInOrder(c, id, content).stream, id, content)
    ensures TextOf(ApplyInOrder(c, id, content).messages, id) == Some(ApplyInOrder(c, id, content).stream.texts[id])
    ensures StreamingAt(ApplyInOrder(c, id, content).messages, id)
  {
  }

  /** The in-order case on the stream record alone: applying fragment `n` and the
      buffered run `[n+1, b)` it completes keeps the stream's shape, with `n` arrived. */
  lemma {:induction false} NextShape(st: StreamState, r: StreamState, id: string, frags: seq<string>,
                                     delivered: set<nat>, content: string, after: set<nat>)
    requires after == delivered + {st.nextSeq}
    requires Shape(st, id, frags, delivered) && st.emitted
    requires st.nextSeq <= |frags| && content == frags[st.nextSeq - 1]
    requires Advanced(st, r, id, content)
    ensures Shape(r, id, frags, after)
  {
    var n := st.nextSeq;
    var p := st.pending;
    var b := r.nextSeq;
    NextBookkeeping(p, r.pending, frags, delivered, n, b);
    JoinRun(frags, p, n + 1, b);
    assert Join(frags, n) == Join(frags, n - 1) + frags[n - 1];
    assert r.texts[id] == Join(frags, b - 1);
  }

  /** The next expected fragment is applied together with the buffered run it completes. */
  lemma {:induction false} PlaceNext(c: Chat, id: string, frags: seq<string>, delivered: set<nat>, s: nat,
                                     after: set<nat>)
    requires after == delivered + {s}
    requires Shape(c.stream, id, frags, delivered) && Shown(c, id)
    requires s == c.stream.nextSeq && s <= |frags|
    ensures Shape(ApplyInOrder(c, id, frags[s - 1]).stream, id, frags, after)
    ensures Shown(ApplyInOrder(c, id, frags[s - 1]), id)
  {
    InOrderAdvances(c, id, frags[s - 1]);
    NextShape(c.stream, ApplyInOrder(c, id, frags[s - 1]).stream, id, frags, delivered, frags[s - 1], after);
  }

  /** One more fragment keeps the stream reassembling, whether it is new or a repeat. */
  lemma {:induction false} DeliverOne(env: Env, c: Chat, id: string, frags: seq<string>,
                                      delivered: set<nat>, s: nat, after: set<nat>)
    requires after == delivered + {s}
    requires Reassembling(c, id, frags, delivered)
    requires 1 <= s <= |frags|
    ensures Reassembling(ProcessDelta(env, c, DeltaFrame(s, frags[s - 1])), id, frags, after)
  {
    var f := DeltaFrame(s, frags[s - 1]);
    AdmitShows(env, c, id, frags, delivered, f);
    var c2 := Admit(env, c, f).1;
    assert ProcessDelta(env, c, f) == Place(c2, id, s, frags[s - 1]);
    assert Shape(c2.stream, id, frags, delivered);
    if s < c.stream.nextSeq {
      PlaceBehind(c2, id, frags, delivered, s, after);
    } else if s > c.stream.nextSeq {
      PlaceAhead(c2, id, frags, delivered, s, after);
    } else {
      PlaceNext(c2, id, frags, delivered, s, after);
    }
  }

  /** The `i`-th fragment of a delivery order keeps the stream reassembling. */
  lemma DeliverAt(env: Env, c: Chat, id: string, frags: seq<string>, order: seq<nat>, i: nat)
    requires i < |order| && 1 <= order[i] <= |frags|
    requires Reassembling(c, id, frags, Arrived(order, i))
    ensures Reassembling(ProcessDelta(env, c, DeltaFrame(order[i], frags[order[i] - 1])),
                         id, frags, Arrived(order, i + 1))
  {
    ArrivedNext(order, i);
    DeliverOne(env, c, id, frags, Arrived(order, i), order[i], Arrived(order, i + 1));
  }

  /** Once every fragment has arrived, the stream holds their in-order concatenation
      and nothing is left in the buffer. */
  lemma {:induction false} Complete(st: StreamState, id: string, frags: seq<string>, delivered: set<nat>)
    requires Shape(st, id, frags, delivered)
    requires forall j :: 1 <= j <= |frags| ==> j in delivered
    ensures st.nextSeq == |frags| + 1
    ensures st.pending == map[]
    ensures st.texts[id] == Join(frags, |frags|)
  {
    assert st.nextSeq == |frags| + 1;
    assert forall k :: k !in st.pending;
  }

  /** An order in which every number 1..n occurs delivers every fragment. */
  lemma AllArrived(order: seq<nat>, frags: seq<string>)
    requires forall j :: 1 <= j <= |frags| ==> j in order
    ensures forall j :: 1 <= j <= |frags| ==> j in Arrived(order, |order|)
  {
    forall j | 1 <= j <= |frags|
      ensures j in Arrived(order, |order|)
    {
      assert j in order;
      var k :| 0 <= k < |order| && order[k] == j;
      ArrivedHas(order, |order|, k);
    }
  }

  /** `stream_end` of a stream whose message shows its whole text delivers that text. */
  lemma EndDelivers(c: Chat, raw: string, frags: seq<string>)
    requires raw != ""
    requires c.stream.active == Some(MessageIdPrefix + raw)
    requires MessageIdPrefix + raw in c.stream.texts
    requires c.stream.texts[MessageIdPrefix + raw] == Join(frags, |frags|)
    requires |frags| > 0 ==> TextOf(c.messages, MessageIdPrefix + raw) == Some(Join(frags, |frags|))
    ensures var id := MessageIdPrefix + raw;
            var r := StreamEnd(c, EndFrame(raw));
            && (|frags| > 0 ==>
                  && FirstWith(r.messages, id).Some?
                  && FirstWith(r.messages, id).value.text == Join(frags, |frags|)
                  && FirstWith(r.messages, id).value.status == Some(Delivered))
            && r.stream.active.None? && r.stream.pending == map[]
            && id !in r.stream.texts
            && !r.isTyping
  {
    var id := MessageIdPrefix + raw;
    assert MessageIdOf(EndFrame(raw)) == Some(id);
    if |frags| > 0 {
      assert !Absent(c.messages, id) by {
        var k := FindById(c.messages, id).value;
        assert c.messages[k].id == id;
      }
    }
  }

  /** A stream that ends without any fragment leaves the message list as it was: no
      message was ever emitted for it, so none is delivered (even an empty one). */
  lemma EndWithoutFragments(c: Chat, raw: string)
    requires raw != ""
    requires Absent(c.messages, MessageIdPrefix + raw)
    ensures var ended := StreamEnd(StreamStart(c, StartFrame(raw)), EndFrame(raw));
            && ended.messages == c.messages
            && ended.stream.active.None? && MessageIdPrefix + raw !in ended.stream.texts && !ended.isTyping
  {
    var id := MessageIdPrefix + raw;
    assert MessageIdOf(StartFrame(raw)) == Some(id);
    assert MessageIdOf(EndFrame(raw)) == Some(id);
  }

  /** The reassembly theorem, as the frames a client receives: `stream_start` of
      `msg_<raw>`, then fragments 1..n delivered in any order (each at least once,
      repeats allowed), then `stream_end`. After the fragments, the stream text and the
      stream's message hold the in-order concatenation, the message is still streaming,
      the buffer is empty and the next expected number is n+1; after the end, that
      message is delivered with the concatenation and the reassembler is idle. No other
      message is changed at any point. */
  method StreamInAnyOrder(env: Env, c: Chat, raw: string, frags: seq<string>, order: seq<nat>)
    returns (streamed: Chat, ended: Chat)
    requires raw != ""
    requires forall k :: 0 <= k < |order| ==> 1 <= order[k] <= |frags|
    requires forall j :: 1 <= j <= |frags| ==> j in order
    ensures var id := MessageIdPrefix + raw;
            && streamed.stream.active == Some(id)
            && id in streamed.stream.texts && streamed.stream.texts[id] == Join(frags, |frags|)
            && streamed.stream.nextSeq == |frags| + 1
            && streamed.stream.pending == map[]
            && (|frags| > 0 ==> TextOf(streamed.messages, id) == Some(Join(frags, |frags|)))
            && (|frags| > 0 ==> StreamingAt(streamed.messages, id))
            && OnlyTouches(c.messages, streamed.messages, id)
    ensures var id := MessageIdPrefix + raw;
            && (|frags| > 0 ==>
                  && FirstWith(ended.messages, id).Some?
                  && FirstWith(ended.messages, id).value.text == Join(frags, |frags|)
                  && FirstWith(ended.messages, id).value.status == Some(Delivered))
            && ended.stream.active.None? && ended.stream.pending == map[]
            && id !in ended.stream.texts
            && !ended.isTyping
            && OnlyTouches(c.messages, ended.messages, id)
  {
    var id := MessageIdPrefix + raw;
    StartReassembling(c, raw, frags);
    streamed := StreamStart(c, StartFrame(raw));
    var i := 0;
    while i < |order|
      invariant i <= |order|
      invariant Reassembling(streamed, id, frags, Arrived(order, i))
      invariant OnlyTouches(c.messages, streamed.messages, id)
    {
      DeliverAt(env, streamed, id, frags, order, i);
      var next := ProcessDelta(env, streamed, DeltaFrame(order[i], frags[order[i] - 1]));
      OnlyTouchesTrans(c.messages, streamed.messages, next.messages, id);
      streamed := next;
      i := i + 1;
    }
    AllArrived(order, frags);
    Complete(streamed.stream, id, frags, Arrived(order, |order|));
    ended := StreamEnd(streamed, EndFrame(raw));
    EndDelivers(streamed, raw, frags);
    assert MessageIdOf(EndFrame(raw)) == Some(id);
    OnlyTouchesTrans(c.messages, streamed.messages, ended.messages, id);
  }
}
