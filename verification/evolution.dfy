/** How inbound frames change the message list: messages are never removed, reordered
    or re-typed (only a message's text and status are rewritten), and every message
    added carries metadata that agrees with its kind. */
module Evolution {
  import opened Opt
  import opened Types
  import opened Frames
  import opened Messages
  import opened State
  import opened Reassembler
  import opened Decoder

  /** `b` is `a` with at most its text and status rewritten. */
  predicate Keeps(a: Message, b: Message) {
    b.id == a.id && b.sender == a.sender && b.kind == a.kind && b.metadata == a.metadata
  }

  /** `b` extends `a`: each old message kept in place, each new one well formed. */
  predicate Evolves(a: seq<Message>, b: seq<Message>) {
    && |a| <= |b|
    && (forall j :: 0 <= j < |a| ==> Keeps(a[j], b[j]))
    && (forall j :: |a| <= j < |b| ==> KindFits(b[j]))
  }

  /** Every message's kind agrees with its metadata. */
  predicate AllFit(msgs: seq<Message>) {
    forall j :: 0 <= j < |msgs| ==> KindFits(msgs[j])
  }

  lemma EvolvesTrans(a: seq<Message>, b: seq<Message>, c: seq<Message>)
    requires Evolves(a, b) && Evolves(b, c)
    ensures Evolves(a, c)
  {
    forall j | |a| <= j < |c| ensures KindFits(c[j]) {
      if j < |b| { assert Keeps(b[j], c[j]); }
    }
  }

  /** Extending a well-formed list keeps it well formed. */
  lemma EvolvesFit(a: seq<Message>, b: seq<Message>)
    requires Evolves(a, b) && AllFit(a)
    ensures AllFit(b)
  {
    forall j | 0 <= j < |b| ensures KindFits(b[j]) {
      if j < |a| { assert Keeps(a[j], b[j]); }
    }
  }

  lemma UpsertEvolves(msgs: seq<Message>, id: string, text: string)
    ensures Evolves(msgs, UpsertStreaming(msgs, id, text))
  {
    var r := UpsertStreaming(msgs, id, text);
    if Absent(msgs, id) {
      assert r[|msgs|] == StreamingMessage(id, text);
    } else {
      forall j | 0 <= j < |msgs| ensures Keeps(msgs[j], r[j]) {
        assert r[j] == if IsFirst(msgs, id, j) then msgs[j].(text := text, status := Some(Streaming)) else msgs[j];
      }
    }
  }

  lemma MarkEvolves(msgs: seq<Message>, id: string, text: string)
    ensures Evolves(msgs, MarkDelivered(msgs, id, text))
  {
    var r := MarkDelivered(msgs, id, text);
    forall j | 0 <= j < |msgs| ensures Keeps(msgs[j], r[j]) {
      assert r[j] == if IsFirst(msgs, id, j) then msgs[j].(text := text, status := Some(Delivered)) else msgs[j];
    }
  }

  lemma AppendEvolves(c: Chat, id: string, content: string)
    ensures Evolves(c.messages, AppendContent(c, id, content).messages)
  {
    if id in c.stream.texts {
      UpsertEvolves(c.messages, id, c.stream.texts[id] + content);
    }
  }

  /** Draining the buffer only rewrites the stream's message. */
  lemma {:induction false} DrainEvolves(c: Chat, id: string)
    ensures Evolves(c.messages, Drain(c, id).messages)
    decreases |c.stream.pending.Keys|
  {
    var s := c.stream;
    var n := s.nextSeq;
    if n in s.pending {
      var c1 := DrainStep(c, id);
      AppendEvolves(c.(stream := s.(pending := s.pending - {n})), id, s.pending[n]);
      assert c1.stream.pending.Keys == s.pending.Keys - {n};
      DrainEvolves(c1, id);
      EvolvesTrans(c.messages, c1.messages, Drain(c1, id).messages);
    }
  }

  lemma ApplyEvolves(c: Chat, id: string, content: string)
    ensures Evolves(c.messages, ApplyInOrder(c, id, content).messages)
  {
    var c1 := AppendContent(c, id, content);
    var c2 := c1.(stream := c1.stream.(nextSeq := c.stream.nextSeq + 1));
    AppendEvolves(c, id, content);
    DrainEvolves(c2, id);
    EvolvesTrans(c.messages, c2.messages, Drain(c2, id).messages);
  }

  lemma AdmitEvolves(env: Env, c: Chat, f: Frame)
    ensures Evolves(c.messages, Admit(env, c, f).1.messages)
  {
    var (id, c0) := StreamFor(env, c, f);
    UpsertEvolves(c0.messages, id, "");
  }

  /** processDelta only rewrites or appends the stream's message. */
  lemma DeltaEvolves(env: Env, c: Chat, f: Frame)
    ensures Evolves(c.messages, ProcessDelta(env, c, f).messages)
  {
    if ValidSeq(f) {
      var (id, c2) := Admit(env, c, f);
      AdmitEvolves(env, c, f);
      if f.seqNo.n == c2.stream.nextSeq {
        ApplyEvolves(c2, id, f.v.GetOr(""));
        EvolvesTrans(c.messages, c2.messages, ProcessDelta(env, c, f).messages);
      }
    }
  }

  lemma EndEvolves(c: Chat, f: Frame)
    ensures Evolves(c.messages, StreamEnd(c, f).messages)
  {
    if MessageIdOf(f).Some? {
      var id := MessageIdOf(f).value;
      MarkEvolves(c.messages, id, FinalText(c.stream, id));
    }
  }

  lemma DecodeEvolves(env: Env, c: Chat, f: Frame)
    ensures Evolves(c.messages, DecodeMessage(env, c, f).messages)
  {
    var r := DecodeMessage(env, c, f);
    if !Contentless(f) {
      forall j | 0 <= j < |c.messages| ensures Keeps(c.messages[j], r.messages[j]) {
        assert r.messages[j] == r.messages[..|c.messages|][j];
      }
    }
  }
}
