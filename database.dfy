/** The store operations of `DatabaseManager`. Each callback chain runs as one
    sequential method over the remote tree; whether each write is accepted is
    a parameter, and the values handed to `completion` are returned in order
    (none when a guard returns without calling it). */
module Database {
  import opened Options
  import opened Identity
  import opened Models
  import opened Wire
  import opened Codec
  import opened Summaries

  /** What `UserDefaults` holds for the signed-in user. */
  datatype UserDefaults = UserDefaults(email: Option<string>, name: Option<string>)

  /** The tree after an operation and the values passed to its completion
      handler, in order. */
  datatype Effect = Effect(root: Value, calls: seq<bool>)

  /** A write that the store accepts replaces the value at `path`; one it
      rejects changes nothing. */
  function Write(root: Value, path: Path, value: Value, succeeds: bool): Value
  {
    if succeeds then Set(root, path, value) else root
  }

  /** The id minted for a conversation from its first message's id (with the
      space the literal holds). */
  function ConversationId(messageId: string): (id: string)
    ensures |id| == |messageId| + 14 && id[12] == '_' && id[13] == ' '
    ensures id[14..] == messageId
  {
    "conversation_ " + messageId
  }

  /** Distinct message ids mint distinct conversation ids. */
  lemma ConversationIdInjective(a: string, b: string)
    requires ConversationId(a) == ConversationId(b)
    ensures a == b
  {
    assert ConversationId(a)[14..] == ConversationId(b)[14..];
  }

  /** The node `insertUser` writes for a user: names only. */
  function UserNode(user: ChatAppUser): (node: Value)
    ensures node.Dict? && node.fields.Keys == {"first_name", "last_name"}
    ensures node.fields["first_name"] == Str(user.firstName) && node.fields["last_name"] == Str(user.lastName)
  {
    Dict(map["first_name" := Str(user.firstName), "last_name" := Str(user.lastName)])
  }

  /** The entry `insertUser` adds to the `users` directory. */
  function DirectoryEntry(user: ChatAppUser): (entry: Value)
    ensures entry.Dict? && entry.fields.Keys == {"name", "email"}
    ensures entry.fields["email"] == Str(SafeEmail(user.emailAddress))
    ensures entry.fields["name"] == Str(user.firstName + " " + user.lastName)
  {
    Dict(map["name" := Str(user.firstName + " " + user.lastName), "email" := Str(user.Key())])
  }

  /** `insertUser`: overwrite the user's node, then append to or create the
      directory. */
  function InsertUserEffect(root: Value, user: ChatAppUser, nodeWriteSucceeds: bool, directoryWriteSucceeds: bool): Effect
  {
    var root1 := Write(root, [user.Key()], UserNode(user), nodeWriteSucceeds);
    if !nodeWriteSucceeds then Effect(root1, [false])
    else
      var directory := AppendDirectoryEntry(Get(root1, ["users"]), DirectoryEntry(user));
      Effect(Write(root1, ["users"], directory, directoryWriteSucceeds), [directoryWriteSucceeds])
  }

  /** `finishCreatingConversation`: create the conversation node holding the
      first message only. */
  function FinishCreatingEffect(root: Value, name: string, conversationId: string, firstMessage: Message,
                                defaults: UserDefaults, p: Platform, conversationWriteSucceeds: bool): Effect
  {
    if defaults.email.None? then Effect(root, [false])
    else
      var collectionMessage := MessageRecord(firstMessage.messageId, KindTag(firstMessage.kind), CreateContent(firstMessage.kind),
                                             p.formatDate(firstMessage.sentDate), SafeEmail(defaults.email.value), name);
      var value := Dict(map["messages" := List([collectionMessage])]);
      Effect(Write(root, [conversationId], value, conversationWriteSucceeds), [conversationWriteSucceeds])
  }

  /** `createNewConversation`: read the current user's node; append a mirrored
      summary to the counterpart's list; append the user's own summary to the
      node read and write the node back; then finish. */
  function CreateNewConversationEffect(root: Value, otherUserEmail: string, name: string, firstMessage: Message,
                                       defaults: UserDefaults, p: Platform,
                                       recipientWriteSucceeds: bool, userWriteSucceeds: bool, conversationWriteSucceeds: bool): Effect
  {
    if defaults.email.None? || defaults.name.None? then Effect(root, [])
    else
      var safeEmail := SafeEmail(defaults.email.value);
      var userNode := Get(root, [safeEmail]);
      if !(userNode.Some? && userNode.value.Dict?) then Effect(root, [false])
      else
        var conversationId := ConversationId(firstMessage.messageId);
        var latest := LatestMessage(p.formatDate(firstMessage.sentDate), CreateContent(firstMessage.kind), false);
        var own := ConversationRecord(Conversation(conversationId, name, otherUserEmail, latest));
        var mirrored := ConversationRecord(Conversation(conversationId, defaults.name.value, safeEmail, latest));
        var recipientPath := [otherUserEmail, "conversations"];
        var root1 := Write(root, recipientPath, AppendOrCreate(Get(root, recipientPath), mirrored), recipientWriteSucceeds);
        var fields := userNode.value.fields;
        var newNode := Dict(fields["conversations" := AppendOrCreate(Field(fields, "conversations"), own)]);
        var root2 := Write(root1, [safeEmail], newNode, userWriteSucceeds);
        if !userWriteSucceeds then Effect(root2, [false])
        else FinishCreatingEffect(root2, name, conversationId, firstMessage, defaults, p, conversationWriteSucceeds)
  }

  /** `sendMessage`: append the message record to the conversation's list;
      then upsert `latest_message` in the sender's and in the counterpart's
      summary lists. Both summary completions report success whatever their
      own write did, because they test the error of the message write. */
  function SendMessageEffect(root: Value, conversation: string, otherUserEmail: string, name: string, newMessage: Message,
                             defaults: UserDefaults, p: Platform,
                             messagesWriteSucceeds: bool, senderWriteSucceeds: bool, recipientWriteSucceeds: bool): Effect
  {
    if defaults.email.None? then Effect(root, [false])
    else
      var currentEmail := SafeEmail(defaults.email.value);
      var currentMessages := Get(root, [conversation, "messages"]);
      if !IsRecordList(currentMessages) || !messagesWriteSucceeds then Effect(root, [false])
      else
        var dateString := p.formatDate(newMessage.sentDate);
        var message := SendContent(p, newMessage.kind);
        var entry := MessageRecord(newMessage.messageId, KindTag(newMessage.kind), message, dateString, currentEmail, name);
        var root1 := Set(root, [conversation, "messages"], List(currentMessages.value.items + [entry]));
        var latest := LatestMessage(dateString, message, false);
        var senderPath := [currentEmail, "conversations"];
        var senderEntry := ConversationRecord(Conversation(conversation, name, SafeEmail(otherUserEmail), latest));
        var root2 := Write(root1, senderPath, UpsertLatest(Get(root1, senderPath), conversation, LatestRecord(latest), senderEntry), senderWriteSucceeds);
        if defaults.name.None? then Effect(root2, [true])
        else
          var recipientPath := [otherUserEmail, "conversations"];
          var recipientEntry := ConversationRecord(Conversation(conversation, defaults.name.value, SafeEmail(currentEmail), latest));
          var root3 := Write(root2, recipientPath, UpsertLatest(Get(root2, recipientPath), conversation, LatestRecord(latest), recipientEntry), recipientWriteSucceeds);
          Effect(root3, [true, true])
  }

  /** `deleteConversation` removes by position, so it reads past the end of
      the list unless the id is in it: the condition its callers must meet. */
  predicate DeleteFindsEntry(root: Value, conversationId: string, defaults: UserDefaults)
  {
    defaults.email.Some? && IsRecordList(Get(root, [SafeEmail(defaults.email.value), "conversations"])) ==>
      var conversations := Get(root, [SafeEmail(defaults.email.value), "conversations"]).value.items;
      IndexOfField(conversations, "id", conversationId) < |conversations|
  }

  /** `deleteConversation`: remove the first entry with the id from the
      current user's list and write the list back. */
  function DeleteConversationEffect(root: Value, conversationId: string, defaults: UserDefaults, writeSucceeds: bool): Effect
    requires DeleteFindsEntry(root, conversationId, defaults)
  {
    if defaults.email.None? then Effect(root, [])
    else
      var path := [SafeEmail(defaults.email.value), "conversations"];
      var node := Get(root, path);
      if !IsRecordList(node) then Effect(root, [])
      else
        var positionToRemove := IndexOfField(node.value.items, "id", conversationId);
        Effect(Write(root, path, List(RemoveAt(node.value.items, positionToRemove)), writeSucceeds), [writeSucceeds])
  }

  /** The remote database, one tree of values. */
  class DatabaseManager {
    var root: Value

    constructor (initial: Value)
      ensures root == initial
    {
      root := initial;
    }

    /** `observeSingleEvent(of: .value)` at `path`. */
    function Observe(path: Path): Option<Value>
      reads this
    {
      Get(root, path)
    }

    /** `setValue` at `path`; `succeeds` says whether the store accepts it,
        and the result is whether an error is reported. */
    method SetValue(path: Path, value: Value, succeeds: bool) returns (error: bool)
      modifies this
      ensures root == Write(old(root), path, value, succeeds)
      ensures error == !succeeds
    {
      if succeeds {
        root := Set(root, path, value);
      }
      error := !succeeds;
    }

    method InsertUser(user: ChatAppUser, nodeWriteSucceeds: bool, directoryWriteSucceeds: bool) returns (calls: seq<bool>)
      modifies this
      ensures Effect(root, calls) == InsertUserEffect(old(root), user, nodeWriteSucceeds, directoryWriteSucceeds)
    {
      var error := SetValue([user.Key()], UserNode(user), nodeWriteSucceeds);
      if error {
        return [false];
      }
      var newElement := DirectoryEntry(user);
      var snapshot := Observe(["users"]);
      var usersCollection: Value;
      if IsStringRecordList(snapshot) {
        var collection := snapshot.value.items;
        collection := collection + [newElement];
        usersCollection := List(collection);
      } else {
        usersCollection := List([newElement]);
      }
      error := SetValue(["users"], usersCollection, directoryWriteSucceeds);
      calls := [!error];
    }

    method CreateNewConversation(otherUserEmail: string, name: string, firstMessage: Message,
                                 defaults: UserDefaults, p: Platform,
                                 recipientWriteSucceeds: bool, userWriteSucceeds: bool, conversationWriteSucceeds: bool)
      returns (calls: seq<bool>)
      modifies this
      ensures Effect(root, calls) == CreateNewConversationEffect(old(root), otherUserEmail, name, firstMessage, defaults, p,
                                                                 recipientWriteSucceeds, userWriteSucceeds, conversationWriteSucceeds)
    {
      if defaults.email.None? || defaults.name.None? {
        return [];
      }
      var currentName := defaults.name.value;
      var safeEmail := SafeEmail(defaults.email.value);
      var snapshot := Observe([safeEmail]);
      if !(snapshot.Some? && snapshot.value.Dict?) {
        return [false];
      }
      var userNode := snapshot.value.fields;
      var dateString := p.formatDate(firstMessage.sentDate);
      var message := CreateContent(firstMessage.kind);
      var conversationId := ConversationId(firstMessage.messageId);
      var latest := LatestMessage(dateString, message, false);
      var newConversationData := ConversationRecord(Conversation(conversationId, name, otherUserEmail, latest));
      var recipientNewConversationData := ConversationRecord(Conversation(conversationId, currentName, safeEmail, latest));

      // The counterpart's list; the result of this write is never looked at.
      var recipientSnapshot := Observe([otherUserEmail, "conversations"]);
      var recipientConversations: Value;
      if IsRecordList(recipientSnapshot) {
        var conversations := recipientSnapshot.value.items;
        conversations := conversations + [recipientNewConversationData];
        recipientConversations := List(conversations);
      } else {
        recipientConversations := List([recipientNewConversationData]);
      }
      var ignored := SetValue([otherUserEmail, "conversations"], recipientConversations, recipientWriteSucceeds);

      // The current user's node as read at the start, with the new summary.
      var existing := Field(userNode, "conversations");
      if IsRecordList(existing) {
        var conversations := existing.value.items;
        conversations := conversations + [newConversationData];
        userNode := userNode["conversations" := List(conversations)];
      } else {
        userNode := userNode["conversations" := List([newConversationData])];
      }
      var error := SetValue([safeEmail], Dict(userNode), userWriteSucceeds);
      if error {
        return [false];
      }
      calls := FinishCreatingConversation(name, conversationId, firstMessage, defaults, p, conversationWriteSucceeds);
    }

    method FinishCreatingConversation(name: string, conversationId: string, firstMessage: Message,
                                      defaults: UserDefaults, p: Platform, conversationWriteSucceeds: bool)
      returns (calls: seq<bool>)
      modifies this
      ensures Effect(root, calls) == FinishCreatingEffect(old(root), name, conversationId, firstMessage, defaults, p, conversationWriteSucceeds)
    {
      var dateString := p.formatDate(firstMessage.sentDate);
      var message := CreateContent(firstMessage.kind);
      if defaults.email.None? {
        return [false];
      }
      var currentUserEmail := SafeEmail(defaults.email.value);
      var collectionMessage := MessageRecord(firstMessage.messageId, KindTag(firstMessage.kind), message, dateString, currentUserEmail, name);
      var value := Dict(map["messages" := List([collectionMessage])]);
      var error := SetValue([conversationId], value, conversationWriteSucceeds);
      calls := [!error];
    }

    method SendMessage(conversation: string, otherUserEmail: string, name: string, newMessage: Message,
                       defaults: UserDefaults, p: Platform,
                       messagesWriteSucceeds: bool, senderWriteSucceeds: bool, recipientWriteSucceeds: bool)
      returns (calls: seq<bool>)
      modifies this
      ensures Effect(root, calls) == SendMessageEffect(old(root), conversation, otherUserEmail, name, newMessage, defaults, p,
                                                       messagesWriteSucceeds, senderWriteSucceeds, recipientWriteSucceeds)
    {
      if defaults.email.None? {
        return [false];
      }
      var currentEmail := SafeEmail(defaults.email.value);
      var snapshot := Observe([conversation, "messages"]);
      if !IsRecordList(snapshot) {
        return [false];
      }
      var currentMessages := snapshot.value.items;
      var dateString := p.formatDate(newMessage.sentDate);
      var message := SendContent(p, newMessage.kind);
      var currentUserEmail := SafeEmail(defaults.email.value);
      var newMessageEntry := MessageRecord(newMessage.messageId, KindTag(newMessage.kind), message, dateString, currentUserEmail, name);
      currentMessages := currentMessages + [newMessageEntry];
      var error := SetValue([conversation, "messages"], List(currentMessages), messagesWriteSucceeds);
      if error {
        return [false];
      }
      var latest := LatestMessage(dateString, message, false);
      var updatedValue := LatestRecord(latest);

      // The sender's list.
      var senderEntry := ConversationRecord(Conversation(conversation, name, SafeEmail(otherUserEmail), latest));
      var senderConversations := RecordLatestMessage(Observe([currentEmail, "conversations"]), conversation, updatedValue, senderEntry);
      var senderError := SetValue([currentEmail, "conversations"], senderConversations, senderWriteSucceeds);
      // The completion tests `error`, the message write's, not `senderError`.
      calls := [error == false];

      // The counterpart's list.
      if defaults.name.None? {
        return;
      }
      var currentName := defaults.name.value;
      var recipientEntry := ConversationRecord(Conversation(conversation, currentName, SafeEmail(currentEmail), latest));
      var recipientConversations := RecordLatestMessage(Observe([otherUserEmail, "conversations"]), conversation, updatedValue, recipientEntry);
      var recipientError := SetValue([otherUserEmail, "conversations"], recipientConversations, recipientWriteSucceeds);
      calls := calls + [error == false];
    }

    method DeleteConversation(conversationId: string, defaults: UserDefaults, writeSucceeds: bool) returns (calls: seq<bool>)
      requires DeleteFindsEntry(root, conversationId, defaults)
      modifies this
      ensures Effect(root, calls) == DeleteConversationEffect(old(root), conversationId, defaults, writeSucceeds)
    {
      if defaults.email.None? {
        return [];
      }
      var safeEmail := SafeEmail(defaults.email.value);
      var snapshot := Observe([safeEmail, "conversations"]);
      if IsRecordList(snapshot) {
        var conversations := snapshot.value.items;
        var positionToRemove := FirstPosition(conversations, conversationId);
        conversations := RemoveAt(conversations, positionToRemove);
        var error := SetValue([safeEmail, "conversations"], List(conversations), writeSucceeds);
        return [!error];
      }
      return [];
    }

    /** `conversationExists`: the values handed to the completion handler. */
    method ConversationExists(targetRecipientEmail: string, defaults: UserDefaults)
      returns (calls: seq<Result<string, DatabaseError>>)
      ensures defaults.email.None? ==> calls == []
      ensures defaults.email.Some? ==>
        calls == [FindBySender(Get(root, [SafeEmail(targetRecipientEmail), "conversations"]), SafeEmail(defaults.email.value))]
    {
      var safeRecipientEmail := SafeEmail(targetRecipientEmail);
      if defaults.email.None? {
        return [];
      }
      var safeSenderEmail := SafeEmail(defaults.email.value);
      var collection := Observe([safeRecipientEmail, "conversations"]);
      calls := [FindBySender(collection, safeSenderEmail)];
    }
  }
}
