/** What `sendMessage` leaves behind, proved about its effect function. The
    conversation node and the two users' nodes are assumed to have pairwise
    distinct keys where stated. */
module SendOutcomes {
  import opened Options
  import opened Identity
  import opened Models
  import opened Wire
  import opened Lists
  import opened Codec
  import opened Decoding
  import opened Summaries
  import opened Database

  /** The completion of `sendMessage` is called once with `false`, once with
      `true`, or twice with `true`; when it gets `false` nothing was written. */
  lemma SendMessageCompletions(root: Value, conversation: string, otherUserEmail: string, name: string, newMessage: Message,
                               defaults: UserDefaults, p: Platform, w1: bool, w2: bool, w3: bool)
    ensures var e := SendMessageEffect(root, conversation, otherUserEmail, name, newMessage, defaults, p, w1, w2, w3);
      && (e.calls == [false] || e.calls == [true] || e.calls == [true, true])
      && (e.calls == [false] ==> e.root == root)
      && (e.calls == [false] <==>
            defaults.email.None? || !IsRecordList(Get(root, [conversation, "messages"])) || !w1)
      && (e.calls == [true] <==> e.calls != [false] && defaults.name.None?)
  {
  }

  /** On success the message record is appended to the conversation's list,
      and each participant's summary list gets the new latest message through
      the upsert: the sender's entry names the counterpart's key, the
      counterpart's names the sender's key; nothing else changes. */
  lemma SendMessageOutcome(root: Value, conversation: string, otherUserEmail: string, name: string, newMessage: Message,
                           email: string, currentName: string, p: Platform)
    requires IsRecordList(Get(root, [conversation, "messages"]))
    requires conversation != SafeEmail(email) && conversation != otherUserEmail && otherUserEmail != SafeEmail(email)
    ensures
      var currentEmail := SafeEmail(email);
      var message := SendContent(p, newMessage.kind);
      var latest := LatestMessage(p.formatDate(newMessage.sentDate), message, false);
      var e := SendMessageEffect(root, conversation, otherUserEmail, name, newMessage,
                                 UserDefaults(Some(email), Some(currentName)), p, true, true, true);
      && e.calls == [true, true]
      && Get(e.root, [conversation, "messages"])
         == Some(List(Records(Get(root, [conversation, "messages"]))
                      + [MessageRecord(newMessage.messageId, KindTag(newMessage.kind), message, latest.date, currentEmail, name)]))
      && Get(e.root, [currentEmail, "conversations"])
         == Some(UpsertLatest(Get(root, [currentEmail, "conversations"]), conversation, LatestRecord(latest),
                              ConversationRecord(Conversation(conversation, name, SafeEmail(otherUserEmail), latest))))
      && Get(e.root, [otherUserEmail, "conversations"])
         == Some(UpsertLatest(Get(root, [otherUserEmail, "conversations"]), conversation, LatestRecord(latest),
                              ConversationRecord(Conversation(conversation, currentName, currentEmail, latest))))
      && (forall key :: key != conversation && key != currentEmail && key != otherUserEmail ==> Get(e.root, [key]) == Get(root, [key]))
      && (forall key :: key != "messages" ==> Get(e.root, [conversation, key]) == Get(root, [conversation, key]))
      && (forall key :: key != "conversations" ==> Get(e.root, [currentEmail, key]) == Get(root, [currentEmail, key]))
      && (forall key :: key != "conversations" ==> Get(e.root, [otherUserEmail, key]) == Get(root, [otherUserEmail, key]))
  {
    var currentEmail := SafeEmail(email);
    var message := SendContent(p, newMessage.kind);
    var dateString := p.formatDate(newMessage.sentDate);
    var latest := LatestMessage(dateString, message, false);
    var messagesPath := [conversation, "messages"];
    var entry := MessageRecord(newMessage.messageId, KindTag(newMessage.kind), message, dateString, currentEmail, name);
    var messages := List(Get(root, messagesPath).value.items + [entry]);
    var root1 := Set(root, messagesPath, messages);
    var senderPath := [currentEmail, "conversations"];
    var senderList := UpsertLatest(Get(root1, senderPath), conversation, LatestRecord(latest),
                                   ConversationRecord(Conversation(conversation, name, SafeEmail(otherUserEmail), latest)));
    var root2 := Set(root1, senderPath, senderList);
    var recipientPath := [otherUserEmail, "conversations"];
    SafeEmailIdempotent(email);
    var recipientList := UpsertLatest(Get(root2, recipientPath), conversation, LatestRecord(latest),
                                      ConversationRecord(Conversation(conversation, currentName, currentEmail, latest)));
    var root3 := Set(root2, recipientPath, recipientList);
    assert SendMessageEffect(root, conversation, otherUserEmail, name, newMessage,
                             UserDefaults(Some(email), Some(currentName)), p, true, true, true) == Effect(root3, [true, true]);

    // Each summary list is read after the writes before it, at other keys.
    GetSetOtherKey(root, messagesPath, messages, senderPath);
    GetSetOtherKey(root, messagesPath, messages, recipientPath);
    GetSetOtherKey(root1, senderPath, senderList, recipientPath);
    ThreeListWrites(root, conversation, messages, currentEmail, senderList, otherUserEmail, recipientList);
  }

  /** The three writes of a successful `sendMessage`, each one child below a
      distinct top-level key: the messages, the sender's list, the
      counterpart's list. Each reads back as written; every other top-level
      key and every sibling of a written child reads as before. */
  lemma ThreeListWrites(root: Value, conversation: string, messages: Value, currentEmail: string, senderList: Value,
                        otherUserEmail: string, recipientList: Value)
    requires conversation != currentEmail && conversation != otherUserEmail && otherUserEmail != currentEmail
    ensures
      var root3 := Set(Set(Set(root, [conversation, "messages"], messages), [currentEmail, "conversations"], senderList),
                       [otherUserEmail, "conversations"], recipientList);
      && Get(root3, [conversation, "messages"]) == Some(messages)
      && Get(root3, [currentEmail, "conversations"]) == Some(senderList)
      && Get(root3, [otherUserEmail, "conversations"]) == Some(recipientList)
      && (forall key :: key != conversation && key != currentEmail && key != otherUserEmail ==> Get(root3, [key]) == Get(root, [key]))
      && (forall key :: key != "messages" ==> Get(root3, [conversation, key]) == Get(root, [conversation, key]))
      && (forall key :: key != "conversations" ==> Get(root3, [currentEmail, key]) == Get(root, [currentEmail, key]))
      && (forall key :: key != "conversations" ==> Get(root3, [otherUserEmail, key]) == Get(root, [otherUserEmail, key]))
  {
    var messagesPath, senderPath, recipientPath := [conversation, "messages"], [currentEmail, "conversations"], [otherUserEmail, "conversations"];
    var root1 := Set(root, messagesPath, messages);
    var root2 := Set(root1, senderPath, senderList);
    var root3 := Set(root2, recipientPath, recipientList);

    GetSetSame(root, messagesPath, messages);
    GetSetOtherKey(root1, senderPath, senderList, messagesPath);
    GetSetOtherKey(root2, recipientPath, recipientList, messagesPath);
    GetSetSame(root1, senderPath, senderList);
    GetSetOtherKey(root2, recipientPath, recipientList, senderPath);
    GetSetSame(root2, recipientPath, recipientList);

    forall key | key != conversation && key != currentEmail && key != otherUserEmail
      ensures Get(root3, [key]) == Get(root, [key])
    {
      GetSetOtherKey(root, messagesPath, messages, [key]);
      GetSetOtherKey(root1, senderPath, senderList, [key]);
      GetSetOtherKey(root2, recipientPath, recipientList, [key]);
    }
    forall key | key != "messages"
      ensures Get(root3, [conversation, key]) == Get(root, [conversation, key])
    {
      GetSetSibling(root, conversation, "messages", messages, key);
      GetSetOtherKey(root1, senderPath, senderList, [conversation, key]);
      GetSetOtherKey(root2, recipientPath, recipientList, [conversation, key]);
    }
    forall key | key != "conversations"
      ensures Get(root3, [currentEmail, key]) == Get(root, [currentEmail, key])
    {
      GetSetOtherKey(root, messagesPath, messages, [currentEmail, key]);
      GetSetSibling(root1, currentEmail, "conversations", senderList, key);
      GetSetOtherKey(root2, recipientPath, recipientList, [currentEmail, key]);
    }
    forall key | key != "conversations"
      ensures Get(root3, [otherUserEmail, key]) == Get(root, [otherUserEmail, key])
    {
      GetSetOtherKey(root, messagesPath, messages, [otherUserEmail, key]);
      GetSetOtherKey(root1, senderPath, senderList, [otherUserEmail, key]);
      GetSetSibling(root2, otherUserEmail, "conversations", recipientList, key);
    }
  }

  /** Both summary completions test the message write's error, so when both
      summary writes are rejected the caller is still told `true` twice and
      only the message was stored. */
  lemma SendMessageReportsSuccessOnFailedSummaryWrites(root: Value, conversation: string, otherUserEmail: string, name: string,
                                                      newMessage: Message, email: string, currentName: string, p: Platform)
    requires IsRecordList(Get(root, [conversation, "messages"]))
    ensures
      var message := SendContent(p, newMessage.kind);
      var entry := MessageRecord(newMessage.messageId, KindTag(newMessage.kind), message, p.formatDate(newMessage.sentDate), SafeEmail(email), name);
      var e := SendMessageEffect(root, conversation, otherUserEmail, name, newMessage,
                                 UserDefaults(Some(email), Some(currentName)), p, true, false, false);
      && e.calls == [true, true]
      && e.root == Set(root, [conversation, "messages"], List(Records(Get(root, [conversation, "messages"])) + [entry]))
  {
  }

  /** Without a name in the user defaults the counterpart's list is never
      touched and the completion is called once. */
  lemma SendMessageWithoutNameSkipsRecipient(root: Value, conversation: string, otherUserEmail: string, name: string,
                                             newMessage: Message, email: string, p: Platform, w2: bool, w3: bool)
    requires IsRecordList(Get(root, [conversation, "messages"]))
    requires conversation != otherUserEmail && otherUserEmail != SafeEmail(email)
    ensures var e := SendMessageEffect(root, conversation, otherUserEmail, name, newMessage, UserDefaults(Some(email), None), p, true, w2, w3);
      && e.calls == [true]
      && Get(e.root, [otherUserEmail]) == Get(root, [otherUserEmail])
  {
    var currentEmail := SafeEmail(email);
    var message := SendContent(p, newMessage.kind);
    var dateString := p.formatDate(newMessage.sentDate);
    var latest := LatestMessage(dateString, message, false);
    var messagesPath := [conversation, "messages"];
    var entry := MessageRecord(newMessage.messageId, KindTag(newMessage.kind), message, dateString, currentEmail, name);
    var messages := List(Get(root, messagesPath).value.items + [entry]);
    var root1 := Set(root, messagesPath, messages);
    var senderPath := [currentEmail, "conversations"];
    var senderList := UpsertLatest(Get(root1, senderPath), conversation, LatestRecord(latest),
                                   ConversationRecord(Conversation(conversation, name, SafeEmail(otherUserEmail), latest)));
    GetSetOtherKey(root, messagesPath, messages, [otherUserEmail]);
    GetSetOtherKey(root1, senderPath, senderList, [otherUserEmail]);
  }

  /** A message of a kind that survives the store, sent into a conversation
      whose messages read back, reads back as the last message of the list,
      sent by the current user's key under the given name. */
  lemma SentMessageIsListed(root: Value, conversation: string, otherUserEmail: string, name: string, newMessage: Message,
                            email: string, currentName: string, p: Platform)
    requires IsRecordList(Get(root, [conversation, "messages"])) && DecodableMessages(p, Get(root, [conversation, "messages"]))
    requires conversation != SafeEmail(email) && conversation != otherUserEmail && otherUserEmail != SafeEmail(email)
    requires Transmissible(p, newMessage.kind)
    requires p.parseDate(p.formatDate(newMessage.sentDate)) == Some(newMessage.sentDate)
    ensures
      var e := SendMessageEffect(root, conversation, otherUserEmail, name, newMessage,
                                 UserDefaults(Some(email), Some(currentName)), p, true, true, true);
      && DecodableMessages(p, Get(e.root, [conversation, "messages"]))
      && DecodeMessages(p, Get(e.root, [conversation, "messages"]))
         == Success(DecodeMessages(p, Get(root, [conversation, "messages"])).value
                    + [Message(Sender(SafeEmail(email), name, ""), newMessage.messageId, newMessage.sentDate, newMessage.kind)])
  {
    SendMessageOutcome(root, conversation, otherUserEmail, name, newMessage, email, currentName, p);
    AppendedMessageIsListed(p, Get(root, [conversation, "messages"]), newMessage, SafeEmail(email), name);
  }

  /** When both summary lists hold only summaries this code writes (or are
      not there), they still do after `sendMessage`. */
  lemma SendMessageKeepsSummaryShape(root: Value, conversation: string, otherUserEmail: string, name: string, newMessage: Message,
                                     email: string, currentName: string, p: Platform)
    requires IsRecordList(Get(root, [conversation, "messages"]))
    requires conversation != SafeEmail(email) && conversation != otherUserEmail && otherUserEmail != SafeEmail(email)
    requires AllSummaryShaped(Get(root, [SafeEmail(email), "conversations"])) || !IsRecordList(Get(root, [SafeEmail(email), "conversations"]))
    requires AllSummaryShaped(Get(root, [otherUserEmail, "conversations"])) || !IsRecordList(Get(root, [otherUserEmail, "conversations"]))
    ensures
      var e := SendMessageEffect(root, conversation, otherUserEmail, name, newMessage,
                                 UserDefaults(Some(email), Some(currentName)), p, true, true, true);
      && AllSummaryShaped(Get(e.root, [SafeEmail(email), "conversations"]))
      && AllSummaryShaped(Get(e.root, [otherUserEmail, "conversations"]))
  {
    var currentEmail := SafeEmail(email);
    var latest := LatestMessage(p.formatDate(newMessage.sentDate), SendContent(p, newMessage.kind), false);
    SendMessageOutcome(root, conversation, otherUserEmail, name, newMessage, email, currentName, p);
    UpsertLatestKeepsShape(Get(root, [currentEmail, "conversations"]), conversation, LatestRecord(latest),
                           Conversation(conversation, name, SafeEmail(otherUserEmail), latest));
    UpsertLatestKeepsShape(Get(root, [otherUserEmail, "conversations"]), conversation, LatestRecord(latest),
                           Conversation(conversation, currentName, currentEmail, latest));
  }
}
