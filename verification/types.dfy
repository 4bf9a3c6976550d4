/** The domain records of the chat client (the declarations of src/types/index.ts). */
module Types {
  import opened Opt

  datatype Sender = User | Bot

  /** The kind of a message, as rendered by the UI. */
  datatype MessageType = Text | Image | Video | Audio | File | QuickReply | Carousel

  /** Delivery status; only streamed replies carry one. */
  datatype Status = Pending | Streaming | Delivered

  /** A server-offered shortcut: `title` is shown, `payload` is sent. */
  datatype QuickReplyItem = QuickReplyItem(title: string, payload: string)

  /** A product of an e-commerce carousel. The discount is a whole number here. */
  datatype Product = Product(
    id: string,
    name: string,
    description: Option<string>,
    price: string,
    originalPrice: Option<string>,
    discountPercentage: Option<int>,
    imageUrl: string,
    productLink: string)

  /** The `metadata` of a message: absent, the empty record `{}`, or one populated field. */
  datatype Metadata =
    | NoMetadata
    | EmptyMetadata
    | QuickReplies(replies: seq<QuickReplyItem>)
    | ImageUrl(url: string)
    | VideoUrl(url: string)
    | AudioUrl(url: string)
    | FileUrl(url: string)
    | Products(products: seq<Product>)

  /** A chat message. Timestamps are not modelled. */
  datatype Message = Message(
    id: string,
    text: string,
    sender: Sender,
    kind: MessageType,
    metadata: Metadata,
    status: Option<Status>)

  /** A message's kind agrees with its metadata, the pairing the bubble renderer relies
      on: a media message carries its url, a quick-reply message a non-empty list of
      replies, a carousel a non-empty list of products, and a text message no payload. */
  predicate KindFits(m: Message) {
    match m.kind
    case Text => m.metadata == NoMetadata || m.metadata == EmptyMetadata
    case Image => m.metadata.ImageUrl?
    case Video => m.metadata.VideoUrl?
    case Audio => m.metadata.AudioUrl?
    case File => m.metadata.FileUrl?
    case QuickReply => m.metadata.QuickReplies? && |m.metadata.replies| > 0
    case Carousel => m.metadata.Products? && |m.metadata.products| > 0
  }

  datatype ConnectionStatus = Disconnected | Connecting | Connected | Error
}
