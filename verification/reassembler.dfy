/** The ordered-delta stream reassembler (processStreamStart, appendStreamContent,
    applyPendingDeltas, processDelta and processStreamEnd of src/hooks/useWeniSocket.ts). */
module Reassembler {
  import opened Opt
  import opened Types
  import opened Frames
  import opened Messages
  import opened State

  /** The buffer without the sequence numbers in `[a, b)`. */
  function RemoveRange(m: map<nat, string>, a: nat, b: nat): map<nat, string> {
    map k | k in m && !(a <= k < b) :: m[k]
  }

  /** The fragments buffered under `a, a+1, ..., b-1`, joined in sequence order. */
  function Run(m: map<nat, string>, a: nat, b: nat): string
    requires forall j :: a <= j < b ==> j in m
    decreases b - a
  {
    if a >= b then "" else m[a] + Run(m, a + 1, b)
  }

  /** Run only reads the buffer on its range. */
  lemma {:induction false} RunAgree(m1: map<nat, string>, m2: map<nat, string>, a: nat, b: nat)
    requires forall j :: a <= j < b ==> j in m1 && j in m2 && m1[j] == m2[j]
    ensures Run(m1, a, b) == Run(m2, a, b)
    decreases b - a
  {
    if a < b {
      RunAgree(m1, m2, a + 1, b);
    }
  }

  /** processStreamStart: a frame with a message id makes it the active stream with an
      empty text, an empty buffer and sequence 1, and raises the typing indicator;
      other streams' texts are kept. A frame without an id is ignored. */
  function StreamStart(c: Chat, f: Frame): (r: Chat)
    ensures MessageIdOf(f).None? ==> r == c
    ensures MessageIdOf(f).Some? ==>
              var id := MessageIdOf(f).value;
              && r.stream.active == Some(id)
              && r.stream.nextSeq == InitialSeq
              && r.stream.pending == map[]
              && !r.stream.emitted
              && r.stream.texts == c.stream.texts[id := ""]
              && r.isTyping
              && r.messages == c.messages
              && StreamInv(r.stream)
    ensures r.drawn == c.drawn
  {
    match MessageIdOf(f)
    case None => c
    case Some(id) =>
      var s := Reset(c.stream, Some(id));
      c.(stream := s.(texts := s.texts[id := ""]), isTyping := true)
  }

  /** appendStreamContent: extend the stream's text and show it on its message; a stream
      without a text entry is left alone. */
  function AppendContent(c: Chat, id: string, content: string): (r: Chat)
    ensures id !in c.stream.texts ==> r == c
    ensures id in c.stream.texts ==>
              && r.stream == c.stream.(texts := c.stream.texts[id := c.stream.texts[id] + content])
              && TextOf(r.messages, id) == Some(c.stream.texts[id] + content)
              && StreamingAt(r.messages, id)
              && !r.isTyping
    ensures OnlyTouches(c.messages, r.messages, id)
    ensures r.drawn == c.drawn
  {
    if id !in c.stream.texts then c
    else
      var merged := c.stream.texts[id] + content;
      c.(stream := c.stream.(texts := c.stream.texts[id := merged]),
         messages := UpsertStreaming(c.messages, id, merged),
         isTyping := false)
  }

  /** One iteration of the applyPendingDeltas loop: take the next expected fragment out
      of the buffer, append it, and advance the expected sequence number. */
  function DrainStep(c: Chat, id: string): (r: Chat)
    requires c.stream.nextSeq in c.stream.pending
    ensures r.stream.pending == c.stream.pending - {c.stream.nextSeq}
    ensures r.stream.nextSeq == c.stream.nextSeq + 1
    ensures r.stream.active == c.stream.active && r.stream.emitted == c.stream.emitted
    ensures id !in c.stream.texts ==> r.stream.texts == c.stream.texts
    ensures id in c.stream.texts ==>
              && r.stream.texts == c.stream.texts[id := c.stream.texts[id] + c.stream.pending[c.stream.nextSeq]]
              && TextOf(r.messages, id) == Some(r.stream.texts[id])
              && StreamingAt(r.messages, id)
              && !r.isTyping
    ensures OnlyTouches(c.messages, r.messages, id)
    ensures r.isTyping ==> c.isTyping
    ensures r.drawn == c.drawn
  {
    var s := c.stream;
    var n := s.nextSeq;
    var c1 := AppendContent(c.(stream := s.(pending := s.pending - {n})), id, s.pending[n]);
    c1.(stream := c1.stream.(nextSeq := n + 1))
  }

  /** applyPendingDeltas: apply buffered fragments while the next expected one is there.
      It stops at the first sequence number not buffered, having applied exactly the
      contiguous run before it, in order. */
  function Drain(c: Chat, id: string): (r: Chat)
    ensures r.stream.nextSeq >= c.stream.nextSeq
    ensures forall j :: c.stream.nextSeq <= j < r.stream.nextSeq ==> j in c.stream.pending
    ensures r.stream.nextSeq !in c.stream.pending
    ensures r.stream.pending == RemoveRange(c.stream.pending, c.stream.nextSeq, r.stream.nextSeq)
    ensures (forall k :: k in c.stream.pending ==> k >= c.stream.nextSeq) ==>
              forall k :: k in r.stream.pending ==> k > r.stream.nextSeq
    ensures r.stream.active == c.stream.active && r.stream.emitted == c.stream.emitted
    ensures id !in c.stream.texts ==> r.stream.texts == c.stream.texts
    ensures id in c.stream.texts ==>
              r.stream.texts ==
                c.stream.texts[id := c.stream.texts[id] + Run(c.stream.pending, c.stream.nextSeq, r.stream.nextSeq)]
    ensures id in c.stream.texts && r.stream.nextSeq > c.stream.nextSeq ==>
              TextOf(r.messages, id) == Some(r.stream.texts[id]) && StreamingAt(r.messages, id) && !r.isTyping
    ensures OnlyTouches(c.messages, r.messages, id)
    ensures r.isTyping ==> c.isTyping
    ensures r.stream.nextSeq == c.stream.nextSeq ==> r == c
    ensures r.drawn == c.drawn
    decreases |c.stream.pending.Keys|
  {
    if c.stream.nextSeq in c.stream.pending then
      var n := c.stream.nextSeq;
      var c1 := DrainStep(c, id);
      assert c1.stream.pending.Keys == c.stream.pending.Keys - {n};
      var r := Drain(c1, id);
      DrainTail(c, c1, r, id);
      OnlyTouchesTrans(c.messages, c1.messages, r.messages, id);
      r
    else
      RunEmpty(c.stream.pending, c.stream.nextSeq);
      c
  }

  /** An empty range joins to the empty string. */
  lemma RunEmpty(m: map<nat, string>, a: nat)
    ensures Run(m, a, a) == ""
    ensures forall t: string :: t + Run(m, a, a) == t
  {
  }

  /** The bookkeeping that lets Drain's contract follow from one step and the rest. */
  lemma {:induction false} DrainTail(c: Chat, c1: Chat, r: Chat, id: string)
    requires c.stream.nextSeq in c.stream.pending
    requires c1 == DrainStep(c, id)
    requires r.stream.nextSeq >= c1.stream.nextSeq
    requires forall j :: c1.stream.nextSeq <= j < r.stream.nextSeq ==> j in c1.stream.pending
    requires r.stream.pending == RemoveRange(c1.stream.pending, c1.stream.nextSeq, r.stream.nextSeq)
    requires id in c1.stream.texts ==>
               r.stream.texts ==
                 c1.stream.texts[id := c1.stream.texts[id] + Run(c1.stream.pending, c1.stream.nextSeq, r.stream.nextSeq)]
    ensures forall j :: c.stream.nextSeq <= j < r.stream.nextSeq ==> j in c.stream.pending
    ensures r.stream.pending == RemoveRange(c.stream.pending, c.stream.nextSeq, r.stream.nextSeq)
    ensures id in c.stream.texts ==>
              r.stream.texts ==
                c.stream.texts[id := c.stream.texts[id] + Run(c.stream.pending, c.stream.nextSeq, r.stream.nextSeq)]
  {
    var n: nat := c.stream.nextSeq;
    var b: nat := r.stream.nextSeq;
    var m: map<nat, string> := c.stream.pending;
    var taken: set<nat> := {n};
    assert c1.stream.pending == m - taken;
    RunTail(m, c1.stream.pending, n, b);
    if id in c.stream.texts {
      var t := c.stream.texts[id];
      assert c1.stream.texts[id] == t + m[n];
      assert (t + m[n]) + Run(c1.stream.pending, n + 1, b) == t + Run(m, n, b);
    }
  }

  /** Taking the first fragment of a run out of the buffer: the rest of the run is still
      buffered and joins to the same text after it. */
  lemma RunTail(m: map<nat, string>, m1: map<nat, string>, n: nat, b: nat)
    requires n in m && m1 == m - {n}
    requires b >= n + 1
    requires forall j :: n + 1 <= j < b ==> j in m1
    ensures forall j :: n <= j < b ==> j in m
    ensures RemoveRange(m1, n + 1, b) == RemoveRange(m, n, b)
    ensures Run(m, n, b) == m[n] + Run(m1, n + 1, b)
  {
    forall j | n + 1 <= j < b
      ensures j in m && j in m1 && m[j] == m1[j]
    {
      assert j in m1;
    }
    RunAgree(m, m1, n + 1, b);
  }

  /** The delta's sequence number is a number no smaller than 1. */
  predicate ValidSeq(f: Frame) {
    f.seqNo.SeqNumber? && f.seqNo.n >= InitialSeq
  }

  /** The stream a delta is applied to: the active one, else a synthetic one named by
      the frame's id or by a fresh uuid. Returns the state after the uuid draw. */
  function StreamFor(env: Env, c: Chat, f: Frame): (r: (string, Chat))
    ensures c.stream.active.Some? ==> r == (c.stream.active.value, c)
    ensures c.stream.active.None? && MessageIdOf(f).Some? ==> r == (MessageIdOf(f).value, c)
    ensures c.stream.active.None? && MessageIdOf(f).None? ==>
              r.0 == MessageIdPrefix + env.uuid(c.drawn) && r.1 == c.(drawn := c.drawn + 1)
    ensures c.stream.active.None? ==> HasPrefix(MessageIdPrefix, r.0)
  {
    if c.stream.active.Some? then (c.stream.active.value, c)
    else if MessageIdOf(f).Some? then (MessageIdOf(f).value, c)
    else
      var (u, c1) := Draw(env, c);
      (MessageIdPrefix + u, c1)
  }

  /** The part of processDelta before the sequence number is looked at: pick (or
      synthesise) the stream and, for the first fragment of a stream, clear the typing
      indicator and show an empty streaming message unless one is already emitted. */
  function Admit(env: Env, c: Chat, f: Frame): (r: (string, Chat))
    ensures r.1.stream.active == Some(r.0)
    ensures c.stream.active.Some? ==>
              r.0 == c.stream.active.value && r.1.drawn == c.drawn &&
              r.1.stream == c.stream.(emitted := r.1.stream.emitted)
    ensures c.stream.active.Some? && c.stream.nextSeq != InitialSeq ==> r.1 == c
    ensures c.stream.active.None? ==>
              r.0 == StreamFor(env, c, f).0 &&
              r.1.stream == StreamState(Some(r.0), map[], InitialSeq, true, c.stream.texts[r.0 := ""])
    ensures r.1.stream.nextSeq == InitialSeq ==> r.1.stream.emitted && !r.1.isTyping
    ensures c.stream.active.Some? && !c.stream.emitted && c.stream.nextSeq == InitialSeq ==>
              TextOf(r.1.messages, r.0) == Some("") && StreamingAt(r.1.messages, r.0)
    ensures c.stream.active.None? || c.stream.emitted ==> r.1.messages == c.messages
    ensures OnlyTouches(c.messages, r.1.messages, r.0)
    ensures StreamInv(c.stream) ==> StreamInv(r.1.stream)
  {
    var (id, c0) := StreamFor(env, c, f);
    var c1 :=
      if c.stream.active.Some? then c0
      else
        var s := Reset(c0.stream, Some(id));
        c0.(stream := s.(emitted := true, texts := s.texts[id := ""]));
    var c2 :=
      if c1.stream.nextSeq == InitialSeq then
        if !c1.stream.emitted then
          c1.(isTyping := false, stream := c1.stream.(emitted := true),
              messages := UpsertStreaming(c1.messages, id, ""))
        else c1.(isTyping := false)
      else c1;
    (id, c2)
  }

  /** The in-order branch of processDelta: append the fragment, advance the expected
      sequence number, and drain the buffer. */
  function ApplyInOrder(c: Chat, id: string, content: string): (r: Chat)
    ensures r.stream.nextSeq > c.stream.nextSeq
    ensures forall j :: c.stream.nextSeq < j < r.stream.nextSeq ==> j in c.stream.pending
    ensures r.stream.nextSeq !in c.stream.pending
    ensures r.stream.pending == RemoveRange(c.stream.pending, c.stream.nextSeq + 1, r.stream.nextSeq)
    ensures id in c.stream.texts ==>
              && r.stream.texts ==
                   c.stream.texts[id := c.stream.texts[id] + content
                                        + Run(c.stream.pending, c.stream.nextSeq + 1, r.stream.nextSeq)]
              && TextOf(r.messages, id) == Some(r.stream.texts[id])
              && StreamingAt(r.messages, id)
              && !r.isTyping
    ensures OnlyTouches(c.messages, r.messages, id)
    ensures (forall k :: k in c.stream.pending ==> k > c.stream.nextSeq) ==>
              forall k :: k in r.stream.pending ==> k > r.stream.nextSeq
    ensures r.stream.active == c.stream.active && r.stream.emitted == c.stream.emitted
    ensures id !in c.stream.texts ==> r.stream.texts == c.stream.texts
    ensures r.isTyping ==> c.isTyping
    ensures r.drawn == c.drawn
  {
    var c1 := AppendContent(c, id, content);
    var c2 := c1.(stream := c1.stream.(nextSeq := c.stream.nextSeq + 1));
    assert c2.stream.pending == c.stream.pending;
    var r := Drain(c2, id);
    OnlyTouchesTrans(c.messages, c2.messages, r.messages, id);
    if id in c.stream.texts then InOrderTexts(c, c2, r, id, content); r else r
  }

  /** ApplyInOrder's text clause, from AppendContent's and Drain's contracts. */
  lemma {:induction false} InOrderTexts(c: Chat, c2: Chat, r: Chat, id: string, content: string)
    requires id in c.stream.texts
    requires c2.stream.texts == c.stream.texts[id := c.stream.texts[id] + content]
    requires TextOf(c2.messages, id) == Some(c.stream.texts[id] + content)
    requires c2.stream.pending == c.stream.pending && c2.stream.nextSeq == c.stream.nextSeq + 1
    requires r.stream.nextSeq >= c2.stream.nextSeq
    requires forall j :: c2.stream.nextSeq <= j < r.stream.nextSeq ==> j in c2.stream.pending
    requires r.stream.texts ==
               c2.stream.texts[id := c2.stream.texts[id] + Run(c2.stream.pending, c2.stream.nextSeq, r.stream.nextSeq)]
    requires r.stream.nextSeq > c2.stream.nextSeq ==> TextOf(r.messages, id) == Some(r.stream.texts[id])
    requires r.stream.nextSeq == c2.stream.nextSeq ==> r == c2
    ensures r.stream.texts ==
              c.stream.texts[id := c.stream.texts[id] + content
                                   + Run(c.stream.pending, c.stream.nextSeq + 1, r.stream.nextSeq)]
    ensures TextOf(r.messages, id) == Some(r.stream.texts[id])
  {
    var t := c.stream.texts[id] + content;
    var run := Run(c.stream.pending, c.stream.nextSeq + 1, r.stream.nextSeq);
    assert c2.stream.texts[id] == t;
    assert r.stream.texts == c.stream.texts[id := t + run];
    if r.stream.nextSeq == c2.stream.nextSeq {
      RunEmpty(c.stream.pending, c2.stream.nextSeq);
      assert t + run == t;
    }
  }

  /** The part of processDelta that looks at the sequence number: apply the fragment and
      drain when it is the next expected one, buffer it when it is ahead, drop it when it
      is behind. */
  function Place(c: Chat, id: string, n: nat, content: string): (r: Chat)
    ensures n < c.stream.nextSeq ==> r == c
    ensures n > c.stream.nextSeq ==>
              r == c.(stream := c.stream.(pending := c.stream.pending[n := content]))
    ensures n == c.stream.nextSeq ==> r == ApplyInOrder(c, id, content)
    ensures r.stream.active == c.stream.active && r.stream.emitted == c.stream.emitted
    ensures OnlyTouches(c.messages, r.messages, id)
    ensures r.isTyping ==> c.isTyping
    ensures StreamInv(c.stream) && c.stream.active == Some(id) && c.stream.emitted ==> StreamInv(r.stream)
    ensures r.drawn == c.drawn
  {
    if n == c.stream.nextSeq then ApplyInOrder(c, id, content)
    else if n > c.stream.nextSeq then
      c.(stream := c.stream.(pending := c.stream.pending[n := content]))
    else
      c
  }

  /** processDelta. A fragment whose sequence number is not a number, is below 1, or is
      below the next expected one changes nothing. Otherwise the fragment goes to the
      active stream (a synthetic one when none is active): applied when it is the next
      expected one, followed by every buffered fragment it makes contiguous; buffered
      when it is ahead. */
  function ProcessDelta(env: Env, c: Chat, f: Frame): (r: Chat)
    ensures !ValidSeq(f) ==> r == c
    ensures ValidSeq(f) && c.stream.active.Some? && f.seqNo.n < c.stream.nextSeq ==> r == c
    ensures ValidSeq(f) ==> r.stream.active.Some?
    ensures ValidSeq(f) && StreamInv(c.stream) ==> r.stream.emitted
    ensures ValidSeq(f) && c.stream.active.Some? ==>
              r.stream.active == c.stream.active && r.drawn == c.drawn
    ensures ValidSeq(f) && c.stream.active.None? ==> r.stream.active == Some(StreamFor(env, c, f).0)
    ensures ValidSeq(f) && c.stream.active.Some? && c.stream.nextSeq == InitialSeq ==> !r.isTyping
    ensures ValidSeq(f) ==> OnlyTouches(c.messages, r.messages, r.stream.active.value)
    ensures StreamInv(c.stream) ==> StreamInv(r.stream)
  {
    if !ValidSeq(f) then c
    else
      var (id, c2) := Admit(env, c, f);
      var r := Place(c2, id, f.seqNo.n, f.v.GetOr(""));
      OnlyTouchesTrans(c.messages, c2.messages, r.messages, id);
      r
  }

  /** The text a stream ends with: its accumulated text, or empty when it has none. */
  function FinalText(s: StreamState, id: string): string {
    if id in s.texts then s.texts[id] else ""
  }

  /** processStreamEnd. With a message id: clear the typing indicator; mark the first
      message with that id `delivered` with the stream's accumulated text (the list is
      unchanged when no such message was ever emitted); drop the stream's text; and go
      idle only when it was the active stream. A frame without an id is ignored. */
  function StreamEnd(c: Chat, f: Frame): (r: Chat)
    ensures MessageIdOf(f).None? ==> r == c
    ensures MessageIdOf(f).Some? ==>
              var id := MessageIdOf(f).value;
              && !r.isTyping
              && r.stream.texts == c.stream.texts - {id}
              && SameIds(c.messages, r.messages)
              && OnlyTouches(c.messages, r.messages, id)
              && (Absent(c.messages, id) ==> r.messages == c.messages)
              && (!Absent(c.messages, id) ==>
                    FirstWith(r.messages, id) ==
                      Some(FirstWith(c.messages, id).value.(text := FinalText(c.stream, id),
                                                            status := Some(Delivered))))
              && (c.stream.active == Some(id) ==>
                    r.stream.active.None? && r.stream.pending == map[] && r.stream.nextSeq == InitialSeq)
              && (c.stream.active != Some(id) ==>
                    r.stream == c.stream.(texts := c.stream.texts - {id}))
    ensures StreamInv(c.stream) ==> StreamInv(r.stream)
    ensures r.drawn == c.drawn
  {
    match MessageIdOf(f)
    case None => c
    case Some(id) =>
      var msgs := MarkDelivered(c.messages, id, FinalText(c.stream, id));
      var s := c.stream.(texts := c.stream.texts - {id});
      c.(isTyping := false, messages := msgs,
         stream := if c.stream.active == Some(id) then Reset(s, None) else s)
  }
}
