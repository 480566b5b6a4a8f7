/** What `insertUser` leaves behind, proved about its effect function. */
module InsertOutcomes {
  import opened Options
  import opened Identity
  import opened Wire
  import opened Summaries
  import opened Database

  /** On success the user's node holds the two names only (a conversation list
      stored there before is gone), the directory gains the user's entry at
      its end (or becomes that entry alone when it is not an array of string
      dictionaries), and no other key changes. */
  lemma InsertUserOutcome(root: Value, user: ChatAppUser)
    requires user.Key() != "users"
    ensures var e := InsertUserEffect(root, user, true, true);
      && e.calls == [true]
      && Get(e.root, [SafeEmail(user.emailAddress)]) == Some(UserNode(user))
      && Get(e.root, [SafeEmail(user.emailAddress), "conversations"]) == None
      && Get(e.root, ["users"]) == Some(AppendDirectoryEntry(Get(root, ["users"]), DirectoryEntry(user)))
      && (forall key :: key != user.Key() && key != "users" ==> Get(e.root, [key]) == Get(root, [key]))
  {
    var key := user.Key();
    var root1 := Set(root, [key], UserNode(user));
    var directory := AppendDirectoryEntry(Get(root1, ["users"]), DirectoryEntry(user));
    GetSetOtherKey(root, [key], UserNode(user), ["users"]);
    GetSetSame(root1, ["users"], directory);
    GetSetOtherKey(root1, ["users"], directory, [key]);
    GetSetSame(root, [key], UserNode(user));
    GetSetChild(root, key, UserNode(user), "conversations");
    GetSetOtherKey(root1, ["users"], directory, [key, "conversations"]);
    forall other | other != key && other != "users"
      ensures Get(Set(root1, ["users"], directory), [other]) == Get(root, [other])
    {
      GetSetOtherKey(root, [key], UserNode(user), [other]);
      GetSetOtherKey(root1, ["users"], directory, [other]);
    }
  }

  /** A rejected node write reports `false` and changes nothing; a rejected
      directory write reports `false` but leaves the new node in place. */
  lemma InsertUserFailures(root: Value, user: ChatAppUser, directoryWriteSucceeds: bool)
    ensures InsertUserEffect(root, user, false, directoryWriteSucceeds) == Effect(root, [false])
    ensures InsertUserEffect(root, user, true, false) == Effect(Set(root, [SafeEmail(user.emailAddress)], UserNode(user)), [false])
  {
  }
}
