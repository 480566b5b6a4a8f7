/** Reading snapshots back into records: the `compactMap` closures of
    `getAllConversations` and `getAllMessagesForConversation`, applied to one
    snapshot of the observed node. */
module Decoding {
  import opened Options
  import opened Models
  import opened Wire
  import opened Lists
  import opened Codec

  /** One summary dictionary, or `None` when a required field is missing or
      has the wrong type. */
  function DecodeConversation(item: Value): Option<Conversation>
  {
    if !item.Dict? then None
    else
      var f := item.fields;
      var conversationId, name, otherUserEmail, latestMessage :=
        StringField(f, "id"), StringField(f, "name"), StringField(f, "other_user_email"), DictField(f, "latest_message");
      if conversationId.None? || name.None? || otherUserEmail.None? || latestMessage.None? then None
      else
        var date, message, isRead :=
          StringField(latestMessage.value, "date"), StringField(latestMessage.value, "message"), BoolField(latestMessage.value, "is_read");
        if date.None? || message.None? || isRead.None? then None
        else Some(Conversation(conversationId.value, name.value, otherUserEmail.value,
                               LatestMessage(date.value, message.value, isRead.value)))
  }

  /** A snapshot of a user's `conversations` node as the conversation list. */
  function DecodeConversations(snapshot: Option<Value>): (r: Result<seq<Conversation>, DatabaseError>)
    ensures r.Failure? <==> !IsRecordList(snapshot)
    ensures r.Success? ==> |r.value| <= |snapshot.value.items|
    ensures r.Success? ==> forall j :: 0 <= j < |r.value| ==>
      exists i :: 0 <= i < |snapshot.value.items| && DecodeConversation(snapshot.value.items[i]) == Some(r.value[j])
  {
    if !IsRecordList(snapshot) then Failure(FailedToFetch)
    else Success(CompactMap(snapshot.value.items, DecodeConversation))
  }

  /** A summary written from a conversation reads back as that conversation. */
  lemma ConversationRecordRoundTrip(c: Conversation)
    ensures DecodeConversation(ConversationRecord(c)) == Some(c)
  {
  }

  /** A list of summaries written from conversations reads back as the same
      list, and appending one summary appends its conversation. */
  lemma {:induction false} ConversationListRoundTrip(items: seq<Value>, cs: seq<Conversation>)
    requires |items| == |cs|
    requires forall i :: 0 <= i < |items| ==> items[i] == ConversationRecord(cs[i])
    ensures DecodeConversations(Some(List(items))) == Success(cs)
  {
    forall i | 0 <= i < |items| ensures DecodeConversation(items[i]) == Some(cs[i]) {
      ConversationRecordRoundTrip(cs[i]);
    }
    CompactMapKeepsAll(items, DecodeConversation);
    assert IsRecordList(Some(List(items)));
    assert CompactMap(items, DecodeConversation) == cs;
  }

  /** Appending a summary to a conversation list appends its conversation to
      what the list reads back as. */
  lemma AppendedConversationIsListed(snapshot: Option<Value>, c: Conversation)
    requires IsRecordList(snapshot)
    ensures IsRecordList(Some(List(snapshot.value.items + [ConversationRecord(c)])))
    ensures DecodeConversations(Some(List(snapshot.value.items + [ConversationRecord(c)])))
         == Success(DecodeConversations(snapshot).value + [c])
  {
    var items := snapshot.value.items;
    CompactMapAppend(items, [ConversationRecord(c)], DecodeConversation);
    CompactMapSingle(ConversationRecord(c), DecodeConversation);
  }

  /** The fields every stored message must carry, read with their types. */
  datatype StoredMessage = StoredMessage(
    name: string, isRead: bool, messageId: string, content: string,
    senderEmail: string, kindTag: string, sentDate: Date)

  /** The guard of the message closure: all fields present with their types
      and the date string accepted by the date formatter. */
  function ReadMessageFields(p: Platform, item: Value): Option<StoredMessage>
  {
    if !item.Dict? then None
    else
      var f := item.fields;
      var name, isRead, messageId, content, senderEmail, kindTag, dateString :=
        StringField(f, "name"), BoolField(f, "is_read"), StringField(f, "id"), StringField(f, "content"),
        StringField(f, "sender_email"), StringField(f, "type"), StringField(f, "date");
      if name.None? || isRead.None? || messageId.None? || content.None? || senderEmail.None? || kindTag.None? || dateString.None? then None
      else
        var date := p.parseDate(dateString.value);
        if date.None? then None
        else Some(StoredMessage(name.value, isRead.value, messageId.value, content.value, senderEmail.value, kindTag.value, date.value))
  }

  /** Reading this record evaluates `locationComponents[1]` past the end. */
  predicate TrapsOn(p: Platform, item: Value)
  {
    var fields := ReadMessageFields(p, item);
    fields.Some? && LocationIndexPastEnd(p, fields.value.kindTag, fields.value.content)
  }

  /** One message dictionary, or `None` when the record is dropped. */
  function DecodeMessage(p: Platform, item: Value): Option<Message>
    requires !TrapsOn(p, item)
  {
    var fields := ReadMessageFields(p, item);
    if fields.None? then None
    else
      var m := fields.value;
      var kind := DecodeKind(p, m.kindTag, m.content);
      if kind.None? then None
      else Some(Message(Sender(m.senderEmail, m.name, ""), m.messageId, m.sentDate, kind.value))
  }

  /** No record of the snapshot makes the closure read past the end. */
  predicate DecodableMessages(p: Platform, snapshot: Option<Value>)
  {
    IsRecordList(snapshot) ==> forall i :: 0 <= i < |snapshot.value.items| ==> !TrapsOn(p, snapshot.value.items[i])
  }

  /** A snapshot of a conversation's `messages` node as the message list. */
  function DecodeMessages(p: Platform, snapshot: Option<Value>): (r: Result<seq<Message>, DatabaseError>)
    requires DecodableMessages(p, snapshot)
    ensures r.Failure? <==> !IsRecordList(snapshot)
    ensures r.Success? ==> |r.value| <= |snapshot.value.items|
    ensures r.Success? ==> forall j :: 0 <= j < |r.value| ==>
      exists i :: 0 <= i < |snapshot.value.items| && DecodeMessage(p, snapshot.value.items[i]) == Some(r.value[j])
  {
    if !IsRecordList(snapshot) then Failure(FailedToFetch)
    else Success(CompactMap(snapshot.value.items, (item: Value) requires !TrapsOn(p, item) => DecodeMessage(p, item)))
  }

  /** A message of a kind that survives the store, written the way
      `sendMessage` writes it, reads back as that message with the sender
      built from the stored e-mail and name, provided the date formatter reads
      back what it wrote. */
  lemma MessageRecordRoundTrip(p: Platform, m: Message, senderEmail: string, name: string)
    requires Transmissible(p, m.kind)
    requires p.parseDate(p.formatDate(m.sentDate)) == Some(m.sentDate)
    ensures var item := MessageRecord(m.messageId, KindTag(m.kind), SendContent(p, m.kind), p.formatDate(m.sentDate), senderEmail, name);
      !TrapsOn(p, item) && DecodeMessage(p, item) == Some(Message(Sender(senderEmail, name, ""), m.messageId, m.sentDate, m.kind))
  {
    var item := MessageRecord(m.messageId, KindTag(m.kind), SendContent(p, m.kind), p.formatDate(m.sentDate), senderEmail, name);
    SendContentRoundTrip(p, m.kind);
    assert ReadMessageFields(p, item) == Some(StoredMessage(name, false, m.messageId, SendContent(p, m.kind), senderEmail, KindTag(m.kind), m.sentDate));
  }

  /** A one-record message list written from a text message reads back as
      that single message. */
  lemma FirstTextMessageIsListed(p: Platform, m: Message, senderEmail: string, name: string)
    requires m.kind.Text?
    requires p.parseDate(p.formatDate(m.sentDate)) == Some(m.sentDate)
    ensures var item := MessageRecord(m.messageId, KindTag(m.kind), CreateContent(m.kind), p.formatDate(m.sentDate), senderEmail, name);
      DecodableMessages(p, Some(List([item])))
      && DecodeMessages(p, Some(List([item]))) == Success([Message(Sender(senderEmail, name, ""), m.messageId, m.sentDate, m.kind)])
  {
    var item := MessageRecord(m.messageId, KindTag(m.kind), CreateContent(m.kind), p.formatDate(m.sentDate), senderEmail, name);
    MessageRecordRoundTrip(p, m, senderEmail, name);
    assert CreateContent(m.kind) == SendContent(p, m.kind);
    CompactMapSingle(item, (item: Value) requires !TrapsOn(p, item) => DecodeMessage(p, item));
  }

  /** Appending a written record of a kind that survives the store to a
      message list that reads back appends that message to what it reads
      back as. */
  lemma AppendedMessageIsListed(p: Platform, snapshot: Option<Value>, m: Message, senderEmail: string, name: string)
    requires IsRecordList(snapshot) && DecodableMessages(p, snapshot)
    requires Transmissible(p, m.kind)
    requires p.parseDate(p.formatDate(m.sentDate)) == Some(m.sentDate)
    ensures var after := Some(List(snapshot.value.items
                                   + [MessageRecord(m.messageId, KindTag(m.kind), SendContent(p, m.kind), p.formatDate(m.sentDate), senderEmail, name)]));
      && DecodableMessages(p, after)
      && DecodeMessages(p, after) == Success(DecodeMessages(p, snapshot).value + [Message(Sender(senderEmail, name, ""), m.messageId, m.sentDate, m.kind)])
  {
    var items := snapshot.value.items;
    var entry := MessageRecord(m.messageId, KindTag(m.kind), SendContent(p, m.kind), p.formatDate(m.sentDate), senderEmail, name);
    MessageRecordRoundTrip(p, m, senderEmail, name);
    var f := (item: Value) requires !TrapsOn(p, item) => DecodeMessage(p, item);
    var after := items + [entry];
    forall i | 0 <= i < |after| ensures !TrapsOn(p, after[i]) {
      if i < |items| {
        assert after[i] == items[i];
      }
    }
    CompactMapAppend(items, [entry], f);
    CompactMapSingle(entry, f);
  }

  /** The first message of a conversation, when it is a photo, is stored with
      empty content and is dropped on reading unless an empty string is a URL. */
  lemma FirstPhotoMessageIsDropped(p: Platform, m: Message, senderEmail: string, name: string)
    requires m.kind.Photo? && !p.isUrl("")
    requires p.parseDate(p.formatDate(m.sentDate)).Some?
    ensures var item := MessageRecord(m.messageId, KindTag(m.kind), CreateContent(m.kind), p.formatDate(m.sentDate), senderEmail, name);
      !TrapsOn(p, item) && DecodeMessage(p, item) == None
  {
  }

  /** The conversations a summary list reads back as; none when it does not
      read back. */
  function Listed(node: Option<Value>): seq<Conversation>
  {
    var decoded := DecodeConversations(node);
    if decoded.Success? then decoded.value else []
  }

  /** A list after the append-or-create of one written summary reads back as
      the old list plus that conversation. */
  lemma AppendedListReadsBack(node: Option<Value>, c: Conversation)
    ensures DecodeConversations(Some(List(Records(node) + [ConversationRecord(c)]))) == Success(Listed(node) + [c])
  {
    if IsRecordList(node) {
      AppendedConversationIsListed(node, c);
    } else {
      ConversationListRoundTrip([ConversationRecord(c)], [c]);
      assert Records(node) + [ConversationRecord(c)] == [ConversationRecord(c)];
      assert Listed(node) + [c] == [c];
    }
  }
}
