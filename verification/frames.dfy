/** Inbound server frames: their abstract shape, the message id they carry and
    their classification (src/hooks/useWeniSocket.ts, extractMessageType and
    getMessageIdFromRaw). */
module Frames {
  import opened Opt
  import opened Types

  /** The `seq` key of a frame: missing, a number, or present with another JSON value. */
  datatype SeqField = NoSeq | SeqNumber(n: int) | SeqNotNumber

  /** The nested `message` object of a frame. */
  datatype MessageData = MessageData(
    typ: Option<string>,
    text: Option<string>,
    media: Option<string>,
    messageId: Option<string>,
    quickReplies: Option<seq<QuickReplyItem>>)

  /** A parsed JSON frame; `None` means the key is missing. */
  datatype Frame = Frame(
    typ: Option<string>,
    message: Option<MessageData>,
    text: Option<string>,
    error: Option<string>,
    id: Option<string>,
    v: Option<string>,
    seqNo: SeqField)

  const NoMessageData := MessageData(None, None, None, None, None)

  /** Prefix turning a raw server id into a message id. */
  const MessageIdPrefix := "msg_"

  /** The raw id of a stream frame: a truthy `message.messageId`, else `id`. */
  function RawId(f: Frame): Option<string> {
    OrElse(if f.message.Some? then f.message.value.messageId else None, f.id)
  }

  /** getMessageIdFromRaw: the prefixed message id, or none when no truthy raw id exists. */
  function MessageIdOf(f: Frame): (r: Option<string>)
    ensures r.Some? <==> Truthy(RawId(f))
    ensures r.Some? ==> HasPrefix(MessageIdPrefix, r.value) && |r.value| > |MessageIdPrefix|
    ensures r.Some? ==> r.value[|MessageIdPrefix|..] == RawId(f).value
  {
    if Truthy(RawId(f)) then Some(MessageIdPrefix + RawId(f).value) else None
  }

  /** The implicit streaming-fragment shape: keys `v` and `seq` present, key `type` missing. */
  predicate DeltaShaped(f: Frame) {
    f.v.Some? && !f.seqNo.NoSeq? && f.typ.None?
  }

  /** extractMessageType: the tag a frame is dispatched on. */
  function Classify(f: Frame): (r: string)
    ensures r != ""
    ensures DeltaShaped(f) ==> r == "delta"
    ensures !DeltaShaped(f) && Truthy(f.typ) ==> r == f.typ.value
    ensures !DeltaShaped(f) && !Truthy(f.typ) ==>
              if f.message.Some? && Truthy(f.message.value.typ) then r == f.message.value.typ.value
              else r == "unknown"
  {
    if DeltaShaped(f) then "delta"
    else if Truthy(f.typ) then f.typ.value
    else if f.message.Some? && Truthy(f.message.value.typ) then f.message.value.typ.value
    else "unknown"
  }

  /** A bare fragment frame `{seq, v}`, the shape the server uses for deltas. */
  function DeltaFrame(n: int, v: string): (f: Frame)
    ensures DeltaShaped(f) && f.seqNo == SeqNumber(n)
  {
    Frame(None, None, None, None, None, Some(v), SeqNumber(n))
  }
}
