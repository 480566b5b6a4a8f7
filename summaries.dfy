/** The in-memory edits the store operations make to the arrays they read:
    append-or-create, the linear scan for a conversation id, the
    `latest_message` upsert, removal by position, and the first-match search
    of `conversationExists`. */
module Summaries {
  import opened Options
  import opened Models
  import opened Wire
  import opened Codec

  /** The key under which summaries store the counterpart's key. */
  const CounterpartKey := "other_user_email"

  /** The key `conversationExists` looks the counterpart up under. */
  const LookupKey := "other_user-email"

  /** `if var list = node as? [[String: Any]] { list.append(entry) } else { [entry] }`. */
  function AppendOrCreate(node: Option<Value>, entry: Value): (r: Value)
    ensures r.List? && |r.items| == |Records(node)| + 1
    ensures r.items[..|Records(node)|] == Records(node) && r.items[|Records(node)|] == entry
    ensures !IsRecordList(node) ==> r == List([entry])
    ensures entry.Dict? ==> IsRecordList(Some(r))
  {
    if IsRecordList(node) then List(node.value.items + [entry]) else List([entry])
  }

  /** The directory array after `insertUser`: appended to when it is an array
      of string dictionaries, replaced by a one-element array otherwise. */
  function AppendDirectoryEntry(node: Option<Value>, entry: Value): (r: Value)
    ensures r.List? && |r.items| >= 1 && r.items[|r.items| - 1] == entry
    ensures IsStringRecordList(node) ==> r.items == node.value.items + [entry]
    ensures !IsStringRecordList(node) ==> r == List([entry])
  {
    if IsStringRecordList(node) then List(node.value.items + [entry]) else List([entry])
  }

  /** The `for` loop of `sendMessage` and `deleteConversation`: count the
      entries before the first one whose `id` is `conversationId`. */
  method FirstPosition(conversations: seq<Value>, conversationId: string) returns (position: nat)
    ensures position <= |conversations|
    ensures forall j :: 0 <= j < position ==> !HasField(conversations[j], "id", conversationId)
    ensures position < |conversations| ==> HasField(conversations[position], "id", conversationId)
    ensures position == IndexOfField(conversations, "id", conversationId)
  {
    position := 0;
    for i := 0 to |conversations|
      invariant position == i
      invariant forall j :: 0 <= j < i ==> !HasField(conversations[j], "id", conversationId)
    {
      if HasField(conversations[i], "id", conversationId) {
        break;
      }
      position := position + 1;
    }
  }

  /** A summary list after `sendMessage` has recorded a new latest message:
      the first entry with the conversation's id gets `latest` as its
      `latest_message`; without one, `appended` is appended (to a new array when
      the node is not an array of dictionaries). */
  function UpsertLatest(node: Option<Value>, conversationId: string, latest: Value, appended: Value): (r: Value)
    ensures r.List?
    ensures var before := Records(node); var k := IndexOfField(before, "id", conversationId);
      k < |before| ==>
        && |r.items| == |before|
        && r.items[k] == Dict(before[k].fields["latest_message" := latest])
        && forall j :: 0 <= j < |before| && j != k ==> r.items[j] == before[j]
    ensures var before := Records(node);
      IndexOfField(before, "id", conversationId) == |before| ==> r == List(before + [appended])
  {
    if IsRecordList(node) then
      var items := node.value.items;
      var position := IndexOfField(items, "id", conversationId);
      if position < |items| then List(items[position := Dict(items[position].fields["latest_message" := latest])])
      else List(items + [appended])
    else List([appended])
  }

  /** The closure body of `sendMessage` for one participant: scan for the
      conversation's entry, overwrite its `latest_message` in place, or append
      `newConversationData`; a node that is not an array of dictionaries
      becomes a one-element array. */
  method RecordLatestMessage(snapshot: Option<Value>, conversation: string, updatedValue: Value, newConversationData: Value)
    returns (databaseEntryConversations: Value)
    ensures databaseEntryConversations == UpsertLatest(snapshot, conversation, updatedValue, newConversationData)
  {
    if IsRecordList(snapshot) {
      var conversations := snapshot.value.items;
      var position := FirstPosition(conversations, conversation);
      if position < |conversations| {
        var targetConversation := conversations[position].fields;
        targetConversation := targetConversation["latest_message" := updatedValue];
        conversations := conversations[position := Dict(targetConversation)];
      } else {
        conversations := conversations + [newConversationData];
      }
      databaseEntryConversations := List(conversations);
    } else {
      databaseEntryConversations := List([newConversationData]);
    }
  }

  /** `remove(at: position)`: the entry at `position` is gone and the others
      keep their order. */
  function RemoveAt(items: seq<Value>, position: nat): (r: seq<Value>)
    requires position < |items|
    ensures |r| == |items| - 1
    ensures forall j :: 0 <= j < position ==> r[j] == items[j]
    ensures forall j :: position <= j < |r| ==> r[j] == items[j + 1]
    ensures multiset(r) + multiset{items[position]} == multiset(items)
  {
    assert items == items[..position] + [items[position]] + items[position + 1..];
    items[..position] + items[position + 1..]
  }

  /** The search of `conversationExists`: the `id` of the first summary whose
      `other_user-email` is the sender's key. */
  function FindBySender(collection: Option<Value>, safeSenderEmail: string): (r: Result<string, DatabaseError>)
    ensures r.Success? ==> IsRecordList(collection)
    ensures r.Success? ==>
      exists k :: 0 <= k < |collection.value.items|
        && HasField(collection.value.items[k], LookupKey, safeSenderEmail)
        && HasField(collection.value.items[k], "id", r.value)
        && (forall j :: 0 <= j < k ==> !HasField(collection.value.items[j], LookupKey, safeSenderEmail))
    ensures IsRecordList(collection) && NoEntryFor(collection.value.items, safeSenderEmail) ==> r.Failure?
  {
    if !IsRecordList(collection) then Failure(FailedToFetch)
    else
      var items := collection.value.items;
      var k := IndexOfField(items, LookupKey, safeSenderEmail);
      if k == |items| then Failure(FailedToFetch)
      else
        var id := StringField(items[k].fields, "id");
        if id.None? then Failure(FailedToFetch) else Success(id.value)
  }

  /** The search returns the id of the first entry whose `other_user-email`
      is the sender's key, when that entry has a string id. */
  lemma FindBySenderFindsFirst(collection: Option<Value>, safeSenderEmail: string, k: nat, id: string)
    requires IsRecordList(collection) && k < |collection.value.items|
    requires HasField(collection.value.items[k], LookupKey, safeSenderEmail)
    requires forall j :: 0 <= j < k ==> !HasField(collection.value.items[j], LookupKey, safeSenderEmail)
    requires HasField(collection.value.items[k], "id", id)
    ensures FindBySender(collection, safeSenderEmail) == Success(id)
  {
    assert IndexOfField(collection.value.items, LookupKey, safeSenderEmail) == k;
  }

  /** No entry's `other_user-email` is the given key. */
  predicate NoEntryFor(items: seq<Value>, safeSenderEmail: string)
  {
    forall k :: 0 <= k < |items| ==> !HasField(items[k], LookupKey, safeSenderEmail)
  }

  /** An entry with exactly the keys of a summary this code writes. */
  predicate SummaryShaped(item: Value)
  {
    item.Dict? && item.fields.Keys == {"id", CounterpartKey, "name", "latest_message"}
  }

  /** Every entry of a summary list is shaped as this code writes summaries. */
  predicate AllSummaryShaped(node: Option<Value>)
  {
    IsRecordList(node) && forall i :: 0 <= i < |node.value.items| ==> SummaryShaped(node.value.items[i])
  }

  /** Summaries written from a conversation are shaped as such. */
  lemma ConversationRecordShaped(c: Conversation)
    ensures SummaryShaped(ConversationRecord(c))
  {
    assert ConversationRecord(c).fields.Keys == {"id", CounterpartKey, "name", "latest_message"};
  }

  /** Appending a written summary keeps every entry summary-shaped. */
  lemma AppendOrCreateKeepsShape(node: Option<Value>, c: Conversation)
    requires AllSummaryShaped(node) || !IsRecordList(node)
    ensures AllSummaryShaped(Some(AppendOrCreate(node, ConversationRecord(c))))
  {
    ConversationRecordShaped(c);
    var r := AppendOrCreate(node, ConversationRecord(c));
    forall i | 0 <= i < |r.items| ensures SummaryShaped(r.items[i]) {
      if i < |Records(node)| {
        assert r.items[i] == r.items[..|Records(node)|][i];
      }
    }
  }

  /** The `latest_message` upsert keeps every entry summary-shaped. */
  lemma UpsertLatestKeepsShape(node: Option<Value>, conversationId: string, latest: Value, c: Conversation)
    requires AllSummaryShaped(node) || !IsRecordList(node)
    ensures AllSummaryShaped(Some(UpsertLatest(node, conversationId, latest, ConversationRecord(c))))
  {
    ConversationRecordShaped(c);
    var before := Records(node);
    var r := UpsertLatest(node, conversationId, latest, ConversationRecord(c));
    var k := IndexOfField(before, "id", conversationId);
    if k < |before| {
      assert before[k].fields.Keys + {"latest_message"} == before[k].fields.Keys;
      assert SummaryShaped(r.items[k]);
    } else {
      assert r.items == before + [ConversationRecord(c)];
    }
    forall i | 0 <= i < |r.items| ensures r.items[i].Dict? && SummaryShaped(r.items[i]) {
      if i != k && i < |before| {
        assert r.items[i] == before[i];
      }
    }
  }

  /** On a list of summaries written by this code, the search of
      `conversationExists` never matches: the key it reads is spelt with a
      hyphen, the key written with an underscore. */
  lemma FindBySenderMissesWrittenSummaries(collection: Option<Value>, safeSenderEmail: string)
    requires AllSummaryShaped(collection)
    ensures FindBySender(collection, safeSenderEmail) == Failure(FailedToFetch)
  {
    var items := collection.value.items;
    forall k | 0 <= k < |items| ensures !HasField(items[k], LookupKey, safeSenderEmail) {
      assert SummaryShaped(items[k]);
      assert LookupKey !in {"id", CounterpartKey, "name", "latest_message"};
    }
  }
}
