/** The stored form of messages and summaries: the `content` string of each
    message kind, the `type` tag read back into a kind, and the dictionaries
    written for summaries and message records. */
module Codec {
  import opened Options
  import opened Models
  import opened Wire
  import opened Lists

  /** Content of the first message of a new conversation: the switch in
      `createNewConversation` and `finishCreatingConversation` keeps the text
      of a text message and leaves every other kind empty. */
  function CreateContent(kind: MessageKind): string
  {
    match kind
    case Text(messageText) => messageText
    case _ => ""
  }

  /** Content of a message sent into an existing conversation: text as is, a
      photo or video as its URL string (empty without one), a location as
      `"<longitude>,<latitude>"`, every other kind empty. */
  function SendContent(p: Platform, kind: MessageKind): string
  {
    match kind
    case Text(messageText) => messageText
    case Photo(media) => if media.url.Some? then media.url.value else ""
    case Video(media) => if media.url.Some? then media.url.value else ""
    case Location(c) => p.describeDouble(c.longitude) + "," + p.describeDouble(c.latitude)
    case _ => ""
  }

  /** Whether reading a stored `location` evaluates `locationComponents[1]`
      past the end of the split: the content has one component only and that
      component parses as a number. */
  predicate LocationIndexPastEnd(p: Platform, kindTag: string, content: string)
  {
    kindTag == "location" && |Split(content, ',')| < 2 && p.parseDouble(Split(content, ',')[0]).Some?
  }

  /** The kind a stored `type` and `content` are read back as; `None` drops
      the record. */
  function DecodeKind(p: Platform, kindTag: string, content: string): Option<MessageKind>
    requires !LocationIndexPastEnd(p, kindTag, content)
  {
    if kindTag == "photo" then
      if p.isUrl(content) && p.hasPhotoPlaceholder then Some(Photo(Media(Some(content)))) else None
    else if kindTag == "video" then
      if p.isUrl(content) && p.hasVideoPlaceholder then Some(Video(Media(Some(content)))) else None
    else if kindTag == "location" then
      var locationComponents := Split(content, ',');
      var longitude := p.parseDouble(locationComponents[0]);
      if longitude.None? then None
      else
        var latitude := p.parseDouble(locationComponents[1]);
        if latitude.None? then None
        else Some(Location(Coordinate(longitude.value, latitude.value)))
    else Some(Text(content))
  }

  /** The out-of-range read happens exactly on location content without a
      comma that parses as a number as a whole. */
  lemma LocationIndexPastEndExactly(p: Platform, content: string)
    ensures LocationIndexPastEnd(p, "location", content) <==> ',' !in content && p.parseDouble(content).Some?
  {
  }

  /** A number whose description holds no comma and parses back to it. */
  predicate DescribedExactly(p: Platform, x: real)
  {
    ',' !in p.describeDouble(x) && p.parseDouble(p.describeDouble(x)) == Some(x)
  }

  /** The kinds that can make the trip through the store unchanged, with the
      platform conditions each needs. */
  predicate Transmissible(p: Platform, kind: MessageKind)
  {
    match kind
    case Text(_) => true
    case Photo(media) => media.url.Some? && p.isUrl(media.url.value) && p.hasPhotoPlaceholder
    case Video(media) => media.url.Some? && p.isUrl(media.url.value) && p.hasVideoPlaceholder
    case Location(c) => DescribedExactly(p, c.longitude) && DescribedExactly(p, c.latitude)
    case _ => false
  }

  /** Text, photo, video and location read back as the kind that was sent. */
  lemma SendContentRoundTrip(p: Platform, kind: MessageKind)
    requires Transmissible(p, kind)
    ensures !LocationIndexPastEnd(p, KindTag(kind), SendContent(p, kind))
    ensures DecodeKind(p, KindTag(kind), SendContent(p, kind)) == Some(kind)
  {
    if kind.Location? {
      var lon, lat := p.describeDouble(kind.location.longitude), p.describeDouble(kind.location.latitude);
      assert SendContent(p, kind) == lon + [','] + lat;
      SplitAtFirst(lon, ',', lat);
      assert Split(SendContent(p, kind), ',') == [lon, lat];
    }
  }

  /** Every other kind is stored with empty content under its own tag and is
      read back as empty text. */
  lemma UnsupportedKindsReadBackAsText(p: Platform, kind: MessageKind)
    requires !kind.Text? && !kind.Photo? && !kind.Video? && !kind.Location?
    ensures SendContent(p, kind) == ""
    ensures DecodeKind(p, KindTag(kind), SendContent(p, kind)) == Some(Text(""))
  {
  }

  /** Any tag other than photo, video and location reads back as text. */
  lemma OtherTagsReadAsText(p: Platform, kindTag: string, content: string)
    requires kindTag != "photo" && kindTag != "video" && kindTag != "location"
    ensures DecodeKind(p, kindTag, content) == Some(Text(content))
  {
  }

  /** The first message of a conversation keeps only text: it agrees with a
      sent message on text and on the unsupported kinds, but a location,
      which a sent message stores as two numbers, and a photo or video with
      a non-empty URL are stored differently. */
  lemma CreateContentKeepsOnlyText(p: Platform, kind: MessageKind)
    ensures !kind.Photo? && !kind.Video? && !kind.Location? ==> CreateContent(kind) == SendContent(p, kind)
    ensures kind.Location? ==> CreateContent(kind) != SendContent(p, kind)
    ensures (kind.Photo? || kind.Video?) && KindMediaUrl(kind) != Some("") && KindMediaUrl(kind).Some? ==> CreateContent(kind) != SendContent(p, kind)
  {
    if kind.Location? {
      assert ',' in SendContent(p, kind);
    }
  }

  /** The URL of a photo or video kind. */
  function KindMediaUrl(kind: MessageKind): Option<string>
  {
    match kind
    case Photo(media) => media.url
    case Video(media) => media.url
    case _ => None
  }

  /** The `latest_message` dictionary of a summary. */
  function LatestRecord(latest: LatestMessage): Value
  {
    Dict(map["date" := Str(latest.date), "message" := Str(latest.text), "is_read" := Flag(latest.isRead)])
  }

  /** The summary dictionary stored in a user's `conversations` array. */
  function ConversationRecord(c: Conversation): Value
  {
    Dict(map[
      "id" := Str(c.id),
      "other_user_email" := Str(c.otherUserEmail),
      "name" := Str(c.name),
      "latest_message" := LatestRecord(c.latestMessage)])
  }

  /** The dictionary stored for one message in a conversation's `messages` array. */
  function MessageRecord(id: string, kindTag: string, content: string, date: string, senderEmail: string, name: string): Value
  {
    Dict(map[
      "id" := Str(id),
      "type" := Str(kindTag),
      "content" := Str(content),
      "date" := Str(date),
      "sender_email" := Str(senderEmail),
      "is_read" := Flag(false),
      "name" := Str(name)])
  }
}
