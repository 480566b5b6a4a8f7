/** What each store operation leaves behind, proved about the effect
    functions the `DatabaseManager` methods are verified against. Keys that
    an operation writes are assumed pairwise distinct where stated: when they
    coincide, later whole-node writes overwrite earlier ones. */
module CreateOutcomes {
  import opened Options
  import opened Identity
  import opened Models
  import opened Wire
  import opened Codec
  import opened Decoding
  import opened Summaries
  import opened Database

  /** On success, `createNewConversation` appends one summary at the end of
      each participant's list (a list that is not there becomes a one-element
      list), both with the id `"conversation_ <messageId>"` and the same
      unread latest message; the counterpart's points back at the current
      user under the current name; the conversation node holds exactly the
      first message; nothing else changes. */
  lemma CreateNewConversationOutcome(root: Value, otherUserEmail: string, name: string, firstMessage: Message,
                                     email: string, currentName: string, p: Platform)
    requires Get(root, [SafeEmail(email)]).Some? && Get(root, [SafeEmail(email)]).value.Dict?
    requires otherUserEmail != SafeEmail(email)
    requires otherUserEmail != "conversation_ " + firstMessage.messageId
    requires SafeEmail(email) != "conversation_ " + firstMessage.messageId
    ensures
      var safeEmail := SafeEmail(email);
      var conversationId := "conversation_ " + firstMessage.messageId;
      var latest := LatestMessage(p.formatDate(firstMessage.sentDate), CreateContent(firstMessage.kind), false);
      var e := CreateNewConversationEffect(root, otherUserEmail, name, firstMessage, UserDefaults(Some(email), Some(currentName)), p, true, true, true);
      && e.calls == [true]
      && Get(e.root, [otherUserEmail, "conversations"])
         == Some(List(Records(Get(root, [otherUserEmail, "conversations"])) + [ConversationRecord(Conversation(conversationId, currentName, safeEmail, latest))]))
      && Get(e.root, [safeEmail, "conversations"])
         == Some(List(Records(Get(root, [safeEmail, "conversations"])) + [ConversationRecord(Conversation(conversationId, name, otherUserEmail, latest))]))
      && Get(e.root, [conversationId])
         == Some(Dict(map["messages" := List([MessageRecord(firstMessage.messageId, KindTag(firstMessage.kind), CreateContent(firstMessage.kind),
                                                           p.formatDate(firstMessage.sentDate), safeEmail, name)])]))
      && (forall key :: key != otherUserEmail && key != safeEmail && key != conversationId ==> Get(e.root, [key]) == Get(root, [key]))
      && (forall key :: key != "conversations" ==> Get(e.root, [safeEmail, key]) == Get(root, [safeEmail, key]))
      && (forall key :: key != "conversations" ==> Get(e.root, [otherUserEmail, key]) == Get(root, [otherUserEmail, key]))
  {
    var safeEmail := SafeEmail(email);
    var conversationId := ConversationId(firstMessage.messageId);
    var latest := LatestMessage(p.formatDate(firstMessage.sentDate), CreateContent(firstMessage.kind), false);
    var own := ConversationRecord(Conversation(conversationId, name, otherUserEmail, latest));
    var mirrored := ConversationRecord(Conversation(conversationId, currentName, safeEmail, latest));
    var recipientPath := [otherUserEmail, "conversations"];
    var recipientList := AppendOrCreate(Get(root, recipientPath), mirrored);
    var root1 := Set(root, recipientPath, recipientList);
    var fields := Get(root, [safeEmail]).value.fields;
    var newNode := Dict(fields["conversations" := AppendOrCreate(Field(fields, "conversations"), own)]);
    var root2 := Set(root1, [safeEmail], newNode);
    var collectionMessage := MessageRecord(firstMessage.messageId, KindTag(firstMessage.kind), CreateContent(firstMessage.kind),
                                           p.formatDate(firstMessage.sentDate), safeEmail, name);
    var value := Dict(map["messages" := List([collectionMessage])]);
    var root3 := Set(root2, [conversationId], value);
    assert CreateNewConversationEffect(root, otherUserEmail, name, firstMessage, UserDefaults(Some(email), Some(currentName)), p, true, true, true)
      == Effect(root3, [true]);

    ThreeWrites(root, otherUserEmail, recipientList, safeEmail, newNode, conversationId, value);
    assert recipientList == List(Records(Get(root, recipientPath)) + [mirrored]);

    UserNodeWithSummary(root, safeEmail, own);
  }

  /** The current user's node as read at the start, with the new summary
      appended to its list: the list grows by the summary, the other
      children are as they were. */
  lemma UserNodeWithSummary(root: Value, safeEmail: string, own: Value)
    requires IsDictNode(Get(root, [safeEmail]))
    ensures
      var fields := Get(root, [safeEmail]).value.fields;
      var newNode := Dict(fields["conversations" := AppendOrCreate(Field(fields, "conversations"), own)]);
      && Get(newNode, ["conversations"]) == Some(List(Records(Get(root, [safeEmail, "conversations"])) + [own]))
      && (forall key :: key != "conversations" ==> Get(newNode, [key]) == Get(root, [safeEmail, key]))
  {
    var fields := Get(root, [safeEmail]).value.fields;
    GetAppend(root, [safeEmail], ["conversations"]);
    assert [safeEmail] + ["conversations"] == [safeEmail, "conversations"];
    assert Get(root, [safeEmail, "conversations"]) == Field(fields, "conversations");
    assert AppendOrCreate(Field(fields, "conversations"), own) == List(Records(Field(fields, "conversations")) + [own]);
    forall key | key != "conversations"
      ensures Get(root, [safeEmail, key]) == Field(fields, key)
    {
      GetAppend(root, [safeEmail], [key]);
      assert [safeEmail] + [key] == [safeEmail, key];
    }
  }

  /** The three whole-node writes of a successful `createNewConversation`, at
      distinct top-level keys: the counterpart's list, the user's node, the
      conversation node. Each reads back as written, and everything else as
      before. */
  lemma ThreeWrites(root: Value, otherUserEmail: string, recipientList: Value, safeEmail: string, newNode: Value,
                    conversationId: string, value: Value)
    requires otherUserEmail != safeEmail && otherUserEmail != conversationId && safeEmail != conversationId
    ensures
      var root3 := Set(Set(Set(root, [otherUserEmail, "conversations"], recipientList), [safeEmail], newNode), [conversationId], value);
      && Get(root3, [otherUserEmail, "conversations"]) == Some(recipientList)
      && (forall key :: Get(root3, [safeEmail, key]) == Get(newNode, [key]))
      && Get(root3, [conversationId]) == Some(value)
      && (forall key :: key != otherUserEmail && key != safeEmail && key != conversationId ==> Get(root3, [key]) == Get(root, [key]))
      && (forall key :: key != "conversations" ==> Get(root3, [otherUserEmail, key]) == Get(root, [otherUserEmail, key]))
  {
    var recipientPath := [otherUserEmail, "conversations"];
    var root1 := Set(root, recipientPath, recipientList);
    var root2 := Set(root1, [safeEmail], newNode);
    var root3 := Set(root2, [conversationId], value);
    GetSetSame(root, recipientPath, recipientList);
    GetSetOtherKey(root1, [safeEmail], newNode, recipientPath);
    GetSetOtherKey(root2, [conversationId], value, recipientPath);
    GetSetSame(root2, [conversationId], value);
    forall key ensures Get(root3, [safeEmail, key]) == Get(newNode, [key]) {
      GetSetChild(root1, safeEmail, newNode, key);
      GetSetOtherKey(root2, [conversationId], value, [safeEmail, key]);
    }
    forall key | key != otherUserEmail && key != safeEmail && key != conversationId
      ensures Get(root3, [key]) == Get(root, [key])
    {
      GetSetOtherKey(root, recipientPath, recipientList, [key]);
      GetSetOtherKey(root1, [safeEmail], newNode, [key]);
      GetSetOtherKey(root2, [conversationId], value, [key]);
    }
    forall key | key != "conversations"
      ensures Get(root3, [otherUserEmail, key]) == Get(root, [otherUserEmail, key])
    {
      GetSetSibling(root, otherUserEmail, "conversations", recipientList, key);
      GetSetOtherKey(root1, [safeEmail], newNode, [otherUserEmail, key]);
      GetSetOtherKey(root2, [conversationId], value, [otherUserEmail, key]);
    }
  }

  /** Without an e-mail or a name in the user defaults nothing happens and
      the completion is never called; without a node for the current user
      the completion gets `false` and nothing is written. */
  lemma CreateNewConversationGuards(root: Value, otherUserEmail: string, name: string, firstMessage: Message,
                                    defaults: UserDefaults, p: Platform, w1: bool, w2: bool, w3: bool)
    ensures var e := CreateNewConversationEffect(root, otherUserEmail, name, firstMessage, defaults, p, w1, w2, w3);
      && (defaults.email.None? || defaults.name.None? ==> e == Effect(root, []))
      && (defaults.email.Some? && defaults.name.Some? && !IsDictNode(Get(root, [SafeEmail(defaults.email.value)])) ==> e == Effect(root, [false]))
      && |e.calls| <= 1
  {
  }

  /** When the current user's node cannot be written back, the completion
      gets `false`, but the counterpart's summary is already written and is
      not rolled back, and no conversation node is created. */
  lemma CreateNewConversationPartialFailure(root: Value, otherUserEmail: string, name: string, firstMessage: Message,
                                            email: string, currentName: string, p: Platform)
    requires IsDictNode(Get(root, [SafeEmail(email)]))
    requires otherUserEmail != "conversation_ " + firstMessage.messageId
    ensures
      var safeEmail := SafeEmail(email);
      var conversationId := "conversation_ " + firstMessage.messageId;
      var latest := LatestMessage(p.formatDate(firstMessage.sentDate), CreateContent(firstMessage.kind), false);
      var e := CreateNewConversationEffect(root, otherUserEmail, name, firstMessage, UserDefaults(Some(email), Some(currentName)), p, true, false, true);
      && e.calls == [false]
      && Get(e.root, [otherUserEmail, "conversations"])
         == Some(List(Records(Get(root, [otherUserEmail, "conversations"])) + [ConversationRecord(Conversation(conversationId, currentName, safeEmail, latest))]))
      && Get(e.root, [conversationId]) == Get(root, [conversationId])
  {
    var safeEmail := SafeEmail(email);
    var conversationId := ConversationId(firstMessage.messageId);
    var latest := LatestMessage(p.formatDate(firstMessage.sentDate), CreateContent(firstMessage.kind), false);
    var mirrored := ConversationRecord(Conversation(conversationId, currentName, safeEmail, latest));
    var recipientPath := [otherUserEmail, "conversations"];
    var recipientList := AppendOrCreate(Get(root, recipientPath), mirrored);
    GetSetSame(root, recipientPath, recipientList);
    GetSetOtherKey(root, recipientPath, recipientList, [conversationId]);
    assert recipientList == List(Records(Get(root, recipientPath)) + [mirrored]);
  }

  /** After a successful `createNewConversation`, each participant's list
      reads back as before plus the new conversation (a list that was not
      there reads back as that conversation alone). */
  lemma CreatedConversationIsListed(root: Value, otherUserEmail: string, name: string, firstMessage: Message,
                                    email: string, currentName: string, p: Platform)
    requires IsDictNode(Get(root, [SafeEmail(email)]))
    requires otherUserEmail != SafeEmail(email)
    requires otherUserEmail != "conversation_ " + firstMessage.messageId
    requires SafeEmail(email) != "conversation_ " + firstMessage.messageId
    ensures
      var safeEmail := SafeEmail(email);
      var conversationId := "conversation_ " + firstMessage.messageId;
      var latest := LatestMessage(p.formatDate(firstMessage.sentDate), CreateContent(firstMessage.kind), false);
      var e := CreateNewConversationEffect(root, otherUserEmail, name, firstMessage, UserDefaults(Some(email), Some(currentName)), p, true, true, true);
      && DecodeConversations(Get(e.root, [otherUserEmail, "conversations"]))
         == Success(Listed(Get(root, [otherUserEmail, "conversations"])) + [Conversation(conversationId, currentName, safeEmail, latest)])
      && DecodeConversations(Get(e.root, [safeEmail, "conversations"]))
         == Success(Listed(Get(root, [safeEmail, "conversations"])) + [Conversation(conversationId, name, otherUserEmail, latest)])
  {
    var safeEmail := SafeEmail(email);
    var conversationId := "conversation_ " + firstMessage.messageId;
    var latest := LatestMessage(p.formatDate(firstMessage.sentDate), CreateContent(firstMessage.kind), false);
    CreateNewConversationOutcome(root, otherUserEmail, name, firstMessage, email, currentName, p);
    AppendedListReadsBack(Get(root, [otherUserEmail, "conversations"]), Conversation(conversationId, currentName, safeEmail, latest));
    AppendedListReadsBack(Get(root, [safeEmail, "conversations"]), Conversation(conversationId, name, otherUserEmail, latest));
  }

  /** After a successful `createNewConversation` whose first message is text,
      the conversation's messages read back as that message alone, sent by
      the current user's key. */
  lemma CreatedFirstMessageIsListed(root: Value, otherUserEmail: string, name: string, firstMessage: Message,
                                    email: string, currentName: string, p: Platform)
    requires IsDictNode(Get(root, [SafeEmail(email)]))
    requires otherUserEmail != SafeEmail(email)
    requires otherUserEmail != "conversation_ " + firstMessage.messageId
    requires SafeEmail(email) != "conversation_ " + firstMessage.messageId
    requires firstMessage.kind.Text?
    requires p.parseDate(p.formatDate(firstMessage.sentDate)) == Some(firstMessage.sentDate)
    ensures
      var conversationId := "conversation_ " + firstMessage.messageId;
      var e := CreateNewConversationEffect(root, otherUserEmail, name, firstMessage, UserDefaults(Some(email), Some(currentName)), p, true, true, true);
      && DecodableMessages(p, Get(e.root, [conversationId, "messages"]))
      && DecodeMessages(p, Get(e.root, [conversationId, "messages"]))
         == Success([Message(Sender(SafeEmail(email), name, ""), firstMessage.messageId, firstMessage.sentDate, firstMessage.kind)])
  {
    var safeEmail := SafeEmail(email);
    var conversationId := "conversation_ " + firstMessage.messageId;
    var item := MessageRecord(firstMessage.messageId, KindTag(firstMessage.kind), CreateContent(firstMessage.kind),
                              p.formatDate(firstMessage.sentDate), safeEmail, name);
    CreateNewConversationOutcome(root, otherUserEmail, name, firstMessage, email, currentName, p);
    FirstTextMessageIsListed(p, firstMessage, safeEmail, name);
    OnlyMessagesNode(CreateNewConversationEffect(root, otherUserEmail, name, firstMessage, UserDefaults(Some(email), Some(currentName)), p, true, true, true).root,
                     conversationId, item);
  }

  /** A conversation node that is exactly `{messages: [item]}` has the
      one-element array as its messages. */
  lemma OnlyMessagesNode(root: Value, conversationId: string, item: Value)
    requires Get(root, [conversationId]) == Some(Dict(map["messages" := List([item])]))
    ensures Get(root, [conversationId, "messages"]) == Some(List([item]))
  {
    GetAppend(root, [conversationId], ["messages"]);
    assert [conversationId] + ["messages"] == [conversationId, "messages"];
  }

  /** `conversationExists` called for the counterpart right after a
      successful `createNewConversation` does not find the conversation just
      created: the counterpart's list holds only summaries this code writes,
      and those carry the counterpart key under `other_user_email`. */
  lemma ConversationExistsMissesCreatedConversation(root: Value, targetRecipientEmail: string, name: string, firstMessage: Message,
                                                    email: string, currentName: string, p: Platform)
    requires IsDictNode(Get(root, [SafeEmail(email)]))
    requires SafeEmail(targetRecipientEmail) != SafeEmail(email)
    requires SafeEmail(targetRecipientEmail) != "conversation_ " + firstMessage.messageId
    requires SafeEmail(email) != "conversation_ " + firstMessage.messageId
    requires var before := Get(root, [SafeEmail(targetRecipientEmail), "conversations"]);
      AllSummaryShaped(before) || !IsRecordList(before)
    ensures
      var e := CreateNewConversationEffect(root, SafeEmail(targetRecipientEmail), name, firstMessage,
                                           UserDefaults(Some(email), Some(currentName)), p, true, true, true);
      && e.calls == [true]
      && FindBySender(Get(e.root, [SafeEmail(targetRecipientEmail), "conversations"]), SafeEmail(email)) == Failure(FailedToFetch)
  {
    var otherUserEmail := SafeEmail(targetRecipientEmail);
    var safeEmail := SafeEmail(email);
    var conversationId := "conversation_ " + firstMessage.messageId;
    var latest := LatestMessage(p.formatDate(firstMessage.sentDate), CreateContent(firstMessage.kind), false);
    var before := Get(root, [otherUserEmail, "conversations"]);
    var mirrored := Conversation(conversationId, currentName, safeEmail, latest);
    CreateNewConversationOutcome(root, otherUserEmail, name, firstMessage, email, currentName, p);
    AppendOrCreateKeepsShape(before, mirrored);
    assert AppendOrCreate(before, ConversationRecord(mirrored)) == List(Records(before) + [ConversationRecord(mirrored)]);
    FindBySenderMissesWrittenSummaries(Some(AppendOrCreate(before, ConversationRecord(mirrored))), safeEmail);
  }
}
