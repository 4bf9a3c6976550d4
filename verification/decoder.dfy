/** The bot-message decoder: the branch of handleServerMessage that turns a `message`
    frame into one chat message (src/hooks/useWeniSocket.ts). */
module Decoder {
  import opened Opt
  import opened Types
  import opened Frames
  import opened State

  /** The nested message record, `{}` when the frame has none. */
  function DataOf(f: Frame): MessageData {
    f.message.GetOr(NoMessageData)
  }

  /** The text of a message frame: the nested text when it is a string, else the
      top-level text when it is a string, else empty. */
  function FrameText(f: Frame): string {
    if DataOf(f).text.Some? then DataOf(f).text.value
    else if f.text.Some? then f.text.value
    else ""
  }

  /** A frame with nothing to show: empty text, no truthy media and no `quick_replies`
      key (an empty list still counts as present). */
  predicate Contentless(f: Frame) {
    FrameText(f) == "" && !Truthy(DataOf(f).media) && DataOf(f).quickReplies.None?
  }

  /** The text is recognised as a carousel and yields at least one product. */
  predicate IsCarouselFrame(env: Env, f: Frame) {
    env.isCarousel(FrameText(f)) && |env.parseCarousel(FrameText(f))| > 0
  }

  /** The media kinds a nested message type can name, with the metadata field each fills. */
  function MediaOf(md: MessageData): Option<(MessageType, Metadata)> {
    if !Truthy(md.media) then None
    else if md.typ == Some("image") then Some((Image, ImageUrl(md.media.value)))
    else if md.typ == Some("video") then Some((Video, VideoUrl(md.media.value)))
    else if md.typ == Some("audio") then Some((Audio, AudioUrl(md.media.value)))
    else if md.typ == Some("file") then Some((File, FileUrl(md.media.value)))
    else None
  }

  /** The quick replies of a frame, when it carries a non-empty list. */
  predicate HasReplies(md: MessageData) {
    md.quickReplies.Some? && |md.quickReplies.value| > 0
  }

  /** The non-carousel message built from a frame: a text message, turned into a
      quick-reply message by a non-empty reply list, and into a media message by a
      media type with a truthy url (media wins over quick replies). */
  function PlainMessage(id: string, f: Frame): (r: Message)
    ensures r.id == id && r.text == FrameText(f) && r.sender == Bot && r.status.None?
    ensures KindFits(r) && r.kind != Carousel
  {
    var md := DataOf(f);
    var base :=
      if HasReplies(md) then Message(id, FrameText(f), Bot, QuickReply, QuickReplies(md.quickReplies.value), None)
      else Message(id, FrameText(f), Bot, Text, EmptyMetadata, None);
    match MediaOf(md)
    case Some((k, meta)) => base.(kind := k, metadata := meta)
    case None => base
  }

  /** The message a frame with content decodes to, given the uuid drawn for it. */
  function DecodedMessage(env: Env, id: string, f: Frame): (r: Message)
    ensures r.id == id && r.sender == Bot && r.status.None? && KindFits(r)
    ensures r.kind == Carousel <==> IsCarouselFrame(env, f)
  {
    if IsCarouselFrame(env, f) then
      Message(id, env.carouselText(FrameText(f)), Bot, Carousel, Products(env.parseCarousel(FrameText(f))), None)
    else PlainMessage(id, f)
  }

  /** The `message` branch of handleServerMessage. A frame with no content changes
      nothing. Otherwise exactly one bot message, with a fresh uuid and no status, is
      appended after the existing ones, its kind agrees with its metadata, and the
      typing indicator goes off; the reassembler is untouched. */
  function DecodeMessage(env: Env, c: Chat, f: Frame): (r: Chat)
    ensures Contentless(f) ==> r == c
    ensures !Contentless(f) ==>
              && |r.messages| == |c.messages| + 1
              && r.messages[..|c.messages|] == c.messages
              && r.drawn == c.drawn + 1
              && !r.isTyping
              && r.stream == c.stream
    ensures !Contentless(f) ==>
              var m := r.messages[|c.messages|];
              && m.id == env.uuid(c.drawn) && m.sender == Bot && m.status.None? && KindFits(m)
              && m == DecodedMessage(env, env.uuid(c.drawn), f)
  {
    if Contentless(f) then c
    else
      var (id, c1) := Draw(env, c);
      var m := DecodedMessage(env, id, f);
      assert KindFits(m);
      c1.(messages := c1.messages + [m], isTyping := false)
  }

  /** How the appended message's kind is chosen: a carousel when the text parses to
      products; otherwise a media kind exactly when the nested type names it and the
      media url is truthy, carrying that url; otherwise a quick-reply message exactly
      when the reply list is non-empty, carrying the replies; otherwise plain text. */
  lemma DecodedKind(env: Env, id: string, f: Frame)
    ensures var m := DecodedMessage(env, id, f);
            var md := DataOf(f);
            && (IsCarouselFrame(env, f) ==>
                  m.kind == Carousel && m.text == env.carouselText(FrameText(f))
                  && m.metadata == Products(env.parseCarousel(FrameText(f))))
            && (!IsCarouselFrame(env, f) ==>
                  && m.text == FrameText(f) && m.kind != Carousel
                  && (m.kind == Image <==> md.typ == Some("image") && Truthy(md.media))
                  && (m.kind == Video <==> md.typ == Some("video") && Truthy(md.media))
                  && (m.kind == Audio <==> md.typ == Some("audio") && Truthy(md.media))
                  && (m.kind == File <==> md.typ == Some("file") && Truthy(md.media))
                  && (m.kind in {Image, Video, Audio, File} ==> m.metadata.url == md.media.value)
                  && (m.kind == QuickReply <==> MediaOf(md).None? && HasReplies(md))
                  && (m.kind == QuickReply ==> m.metadata.replies == md.quickReplies.value)
                  && (m.kind == Text <==> MediaOf(md).None? && !HasReplies(md)))
  {
  }
}
