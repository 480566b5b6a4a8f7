/** What `deleteConversation` leaves behind, proved about its effect
    function. */
module DeleteOutcomes {
  import opened Options
  import opened Identity
  import opened Wire
  import opened Summaries
  import opened Database

  /** `remove(at:)` stays in bounds exactly when there is no list to scan or
      the list holds an entry with the id. */
  lemma DeleteFindsEntryExactly(root: Value, conversationId: string, defaults: UserDefaults)
    ensures DeleteFindsEntry(root, conversationId, defaults) <==>
      || defaults.email.None?
      || !IsRecordList(Get(root, [SafeEmail(defaults.email.value), "conversations"]))
      || exists k :: 0 <= k < |Records(Get(root, [SafeEmail(defaults.email.value), "conversations"]))|
                     && HasField(Records(Get(root, [SafeEmail(defaults.email.value), "conversations"]))[k], "id", conversationId)
  {
    if defaults.email.Some? && IsRecordList(Get(root, [SafeEmail(defaults.email.value), "conversations"])) {
      var items := Records(Get(root, [SafeEmail(defaults.email.value), "conversations"]));
      var k := IndexOfField(items, "id", conversationId);
      if k == |items| {
        assert forall j :: 0 <= j < |items| ==> !HasField(items[j], "id", conversationId);
      }
    }
  }

  /** On success the first entry with the id is gone from the current user's
      list, the entries around it keep their order, and nothing else changes:
      the counterpart's summary of the same conversation and the conversation
      node stay. */
  lemma DeleteConversationOutcome(root: Value, conversationId: string, defaults: UserDefaults)
    requires defaults.email.Some?
    requires IsRecordList(Get(root, [SafeEmail(defaults.email.value), "conversations"]))
    requires DeleteFindsEntry(root, conversationId, defaults)
    ensures
      var safeEmail := SafeEmail(defaults.email.value);
      var items := Records(Get(root, [safeEmail, "conversations"]));
      var k := IndexOfField(items, "id", conversationId);
      var e := DeleteConversationEffect(root, conversationId, defaults, true);
      && e.calls == [true]
      && k < |items| && HasField(items[k], "id", conversationId)
      && (forall j :: 0 <= j < k ==> !HasField(items[j], "id", conversationId))
      && Get(e.root, [safeEmail, "conversations"]) == Some(List(items[..k] + items[k + 1..]))
      && (forall key :: key != safeEmail ==> Get(e.root, [key]) == Get(root, [key]))
      && (forall key :: key != "conversations" ==> Get(e.root, [safeEmail, key]) == Get(root, [safeEmail, key]))
  {
    var safeEmail := SafeEmail(defaults.email.value);
    var path := [safeEmail, "conversations"];
    var items := Records(Get(root, path));
    var k := IndexOfField(items, "id", conversationId);
    var after := List(RemoveAt(items, k));
    assert RemoveAt(items, k) == items[..k] + items[k + 1..];
    GetSetSame(root, path, after);
    forall key | key != safeEmail
      ensures Get(Set(root, path, after), [key]) == Get(root, [key])
    {
      GetSetOtherKey(root, path, after, [key]);
    }
    forall key | key != "conversations"
      ensures Get(Set(root, path, after), [safeEmail, key]) == Get(root, [safeEmail, key])
    {
      GetSetSibling(root, safeEmail, "conversations", after, key);
    }
  }

  /** Without an e-mail or without a list to scan the completion is never
      called; a rejected write leaves the tree as it was and reports `false`. */
  lemma DeleteConversationGuards(root: Value, conversationId: string, defaults: UserDefaults, writeSucceeds: bool)
    requires DeleteFindsEntry(root, conversationId, defaults)
    ensures var e := DeleteConversationEffect(root, conversationId, defaults, writeSucceeds);
      && (defaults.email.None? ==> e == Effect(root, []))
      && (defaults.email.Some? && !IsRecordList(Get(root, [SafeEmail(defaults.email.value), "conversations"])) ==> e == Effect(root, []))
      && (e.calls == [] || e.calls == [writeSucceeds])
      && (!writeSucceeds ==> e.root == root)
  {
  }
}
