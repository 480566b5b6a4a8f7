/** The records the app works with: the conversation summary shown in the
    conversation list, and the chat message with its kind and sender. */
module Models {
  import opened Options

  /** A point in time (`Date`); only its formatted form is ever stored. */
  type Date = int

  /** `latest_message` of a summary. */
  datatype LatestMessage = LatestMessage(date: string, text: string, isRead: bool)

  /** One entry of a user's conversation list. */
  datatype Conversation = Conversation(id: string, name: string, otherUserEmail: string, latestMessage: LatestMessage)

  datatype Sender = Sender(senderId: string, displayName: string, photoURL: string)

  /** A photo or video item; only its URL (`url?.absoluteString`) reaches the store. */
  datatype Media = Media(url: Option<string>)

  /** A location item's coordinate, with the doubles taken as exact numbers. */
  datatype Coordinate = Coordinate(longitude: real, latitude: real)

  /** The message kinds of the chat UI library, one constructor per case the
      code switches on. */
  datatype MessageKind =
    | Text(text: string)
    | AttributedText(attributed: string)
    | Photo(photo: Media)
    | Video(video: Media)
    | Location(location: Coordinate)
    | Emoji(emoji: string)
    | Audio
    | Contact
    | Custom

  datatype Message = Message(sender: Sender, messageId: string, sentDate: Date, kind: MessageKind)

  datatype DatabaseError = FailedToFetch

  /** The platform services the code calls and whose behaviour is not part of
      this model: the chat date formatter in both directions, `Double`'s
      description and parser, `URL(string:)` and the two placeholder images. */
  datatype Platform = Platform(
    formatDate: Date -> string,
    parseDate: string -> Option<Date>,
    describeDouble: real -> string,
    parseDouble: string -> Option<real>,
    isUrl: string -> bool,
    hasPhotoPlaceholder: bool,
    hasVideoPlaceholder: bool)

  /** The `type` tag stored with a message (`messageKindString`). */
  function KindTag(kind: MessageKind): string
  {
    match kind
    case Text(_) => "text"
    case AttributedText(_) => "attributed_text"
    case Photo(_) => "photo"
    case Video(_) => "video"
    case Location(_) => "location"
    case Emoji(_) => "emoji"
    case Audio => "audio"
    case Contact => "contact"
    case Custom => "custom"
  }
}
