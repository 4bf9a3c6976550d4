/** The ordered message list and the in-place updates the stream handlers make to it
    (updateStreamingMessage and the `delivered` update of processStreamEnd). */
module Messages {
  import opened Opt
  import opened Types

  /** `k` is the position of the first message with identifier `id` (what `findIndex` returns). */
  predicate IsFirst(msgs: seq<Message>, id: string, k: int) {
    0 <= k < |msgs| && msgs[k].id == id && forall j :: 0 <= j < k ==> msgs[j].id != id
  }

  /** No message has identifier `id`. */
  predicate Absent(msgs: seq<Message>, id: string) {
    forall j :: 0 <= j < |msgs| ==> msgs[j].id != id
  }

  /** `findIndex(m => m.id === id)`, with `None` for -1. */
  function FindById(msgs: seq<Message>, id: string): (r: Option<nat>)
    ensures r.Some? ==> IsFirst(msgs, id, r.value)
    ensures r.None? ==> Absent(msgs, id)
    decreases |msgs|
  {
    if |msgs| == 0 then None
    else if msgs[0].id == id then Some(0)
    else
      match FindById(msgs[1..], id)
      case None => None
      case Some(k) => Some(k + 1)
  }

  /** The first message with identifier `id`, the one every update by id touches. */
  function FirstWith(msgs: seq<Message>, id: string): Option<Message> {
    match FindById(msgs, id)
    case Some(k) => Some(msgs[k])
    case None => None
  }

  /** The text of the first message with identifier `id`. */
  function TextOf(msgs: seq<Message>, id: string): Option<string> {
    match FirstWith(msgs, id)
    case Some(m) => Some(m.text)
    case None => None
  }

  /** Two lists hold the same identifiers at the same positions. */
  predicate SameIds(a: seq<Message>, b: seq<Message>) {
    |a| == |b| && forall j :: 0 <= j < |a| ==> a[j].id == b[j].id
  }

  /** `b` is `a` with only the messages of identifier `id` changed: every identifier
      stays in place, every other message is untouched, and whatever is appended has
      identifier `id`. */
  predicate OnlyTouches(a: seq<Message>, b: seq<Message>, id: string) {
    && |a| <= |b|
    && (forall j :: 0 <= j < |a| ==> b[j].id == a[j].id)
    && (forall j :: 0 <= j < |a| && a[j].id != id ==> b[j] == a[j])
    && (forall j :: |a| <= j < |b| ==> b[j].id == id)
  }

  lemma OnlyTouchesTrans(a: seq<Message>, b: seq<Message>, c: seq<Message>, id: string)
    requires OnlyTouches(a, b, id) && OnlyTouches(b, c, id)
    ensures OnlyTouches(a, c, id)
  {
  }

  /** The first message with identifier `id` is shown as still streaming. */
  predicate StreamingAt(msgs: seq<Message>, id: string) {
    FirstWith(msgs, id).Some? && FirstWith(msgs, id).value.status == Some(Streaming)
  }

  /** The message an in-flight stream is shown as before it has a message entity. */
  function StreamingMessage(id: string, text: string): Message {
    Message(id, text, Bot, Text, NoMetadata, Some(Streaming))
  }

  /** updateStreamingMessage on the list: the first message with `id` takes `text` and
      status `streaming`; when there is none, a bot streaming message is appended. */
  function UpsertStreaming(msgs: seq<Message>, id: string, text: string): (r: seq<Message>)
    ensures !Absent(msgs, id) ==>
              SameIds(msgs, r) &&
              forall j :: 0 <= j < |msgs| ==>
                r[j] == if IsFirst(msgs, id, j) then msgs[j].(text := text, status := Some(Streaming)) else msgs[j]
    ensures Absent(msgs, id) ==> r == msgs + [StreamingMessage(id, text)]
    ensures FirstWith(r, id).Some? && FirstWith(r, id).value.text == text
    ensures FirstWith(r, id).value.status == Some(Streaming)
    ensures OnlyTouches(msgs, r, id)
  {
    match FindById(msgs, id)
    case Some(k) =>
      var r := msgs[k := msgs[k].(text := text, status := Some(Streaming))];
      assert IsFirst(r, id, k);
      FirstWithAt(r, id, k);
      r
    case None =>
      var r := msgs + [StreamingMessage(id, text)];
      assert IsFirst(r, id, |msgs|);
      FirstWithAt(r, id, |msgs|);
      r
  }

  /** The final update of processStreamEnd: the first message with `id` takes `text` and
      status `delivered`; the list is unchanged when no message has `id`. */
  function MarkDelivered(msgs: seq<Message>, id: string, text: string): (r: seq<Message>)
    ensures SameIds(msgs, r)
    ensures Absent(msgs, id) ==> r == msgs
    ensures forall j :: 0 <= j < |msgs| ==>
              r[j] == if IsFirst(msgs, id, j) then msgs[j].(text := text, status := Some(Delivered)) else msgs[j]
    ensures !Absent(msgs, id) ==>
              FirstWith(r, id) == Some(FirstWith(msgs, id).value.(text := text, status := Some(Delivered)))
    ensures OnlyTouches(msgs, r, id)
  {
    match FindById(msgs, id)
    case Some(k) =>
      var r := msgs[k := msgs[k].(text := text, status := Some(Delivered))];
      assert IsFirst(r, id, k);
      FirstWithAt(r, id, k);
      r
    case None => msgs
  }

  /** The first match is unique, so FirstWith reads the message at that position. */
  lemma FirstWithAt(msgs: seq<Message>, id: string, k: int)
    requires IsFirst(msgs, id, k)
    ensures FirstWith(msgs, id) == Some(msgs[k])
  {
  }

  /** A list with the same identifiers at the same positions has its first match at the same place. */
  lemma FirstSurvives(a: seq<Message>, b: seq<Message>, id: string, k: int)
    requires SameIds(a, b) && IsFirst(a, id, k)
    ensures IsFirst(b, id, k)
  {
  }
}
