# Messenger conversation bookkeeping in Dafny

This project models the conversation and message bookkeeping of the Messenger
iOS app's `DatabaseManager`. Every operation reads one node of the remote
tree, changes a Swift array or dictionary in memory, and writes the node back
whole.

- **Keys.** User keys are derived from e-mail addresses by `safeEmail`.
- **`insertUser`** writes a user's node and appends the user to the `users`
  directory, or creates the directory.
- **`createNewConversation` and `finishCreatingConversation`** mint the id
  `"conversation_ <messageId>"`. They append one mirrored summary to each
  participant's `conversations` array and create the conversation's
  `messages` array.
- **`sendMessage`** appends a message record. It then upserts the
  `latest_message` of the conversation's summary in both participants' arrays
  by a linear scan.
- **`deleteConversation`** removes the first summary with a given id from the
  current user's array.
- **`conversationExists`** searches the counterpart's array for a summary
  pointing back at the current user.
- **`getAllConversations` and `getAllMessagesForConversation`** decode one
  snapshot into `Conversation` and `Message` values. Malformed records are
  dropped one at a time.

Files and modules:

| file | module | contents |
|---|---|---|
| `options.dfy` | `Options` | `Option` and `Result` |
| `models.dfy` | `Models` | the record types `Conversation`, `LatestMessage`, `Message`, `Sender` and `MessageKind`; the `type` tags; the `Platform` services the code calls but this model does not define |
| `identity.dfy` | `Identity` | `safeEmail` and `ChatAppUser` |
| `wire.dfy` | `Wire` | the remote tree as a `Value` addressed by key paths, with `Get` and `Set` (`setValue`), and the casts the code applies to snapshots |
| `lists.dfy` | `Lists` | `compactMap` and `components(separatedBy:)` |
| `codec.dfy` | `Codec` | the content string of each message kind, the stored kind read back from `type` and `content`, and the dictionaries written for summaries and messages |
| `decoding.dfy` | `Decoding` | the two snapshot decoders |
| `summaries.dfy` | `Summaries` | the in-memory array edits: append-or-create, the scan for an id, the upsert, remove-at and the first-match search |
| `database.dfy` | `Database` | class `DatabaseManager`, whose `root` is the remote tree |
| `create_outcomes.dfy`, `send_outcomes.dfy`, `delete_outcomes.dfy`, `insert_outcomes.dfy` | | what each operation leaves behind |

How a callback chain is modelled:

- Each callback chain is one method of `DatabaseManager` whose steps run in
  sequence.
- A method's `ensures` ties the new tree, and the values passed to
  `completion`, to an effect function of the old tree (for example
  `SendMessageEffect`).
- The outcome lemmas are proved about those effect functions.
- Whether each `setValue` is accepted is a boolean parameter. A rejected
  write changes nothing.
- The completion values are returned as a sequence, in order. An empty
  sequence means the operation returned without calling `completion`. A
  two-element sequence means `completion(true)` was called twice.
- The e-mail and name from `UserDefaults` are passed in as a `UserDefaults`
  value.

Where the design documentation and the code disagree, the model follows the
code:

- Keys are described as collision-free, but `safeEmail` is not injective:
  `"a.b@c"` and `"a@b.c"` both become `"a-b-c"` (`SafeEmailNotInjective`).
- `conversationExists` is meant to find an existing conversation with a user.
  It reads the key `other_user-email`, but summaries are written with
  `other_user_email`, so it never finds a summary this code wrote
  (`FindBySenderMissesWrittenSummaries`,
  `ConversationExistsMissesCreatedConversation`).

The `messageKindString` extension that produces the stored `type` tag is not
part of this model. The only tags the code documents are `text`, `photo` and
`video` (DatabaseManager.swift:278-285), and the decoder tests for `photo`,
`video` and `location`. The remaining tags (`attributed_text`, `emoji`,
`audio`, `contact`, `custom`) are assumed, one per message kind; the decoder
reads all of them back as text.

## Model

| member | source | states |
|---|---|---|
| Models.KindTag | Messenger/Resources/DatabaseManager.swift:323 | (no contract of its own) the `type` tag stored for each kind; see the note on tags above |
| Identity.Replace | Messenger/Resources/DatabaseManager.swift:23-24 | `replacingOccurrences` of one character: same length, every occurrence of `from` becomes `to`, every other character unchanged in place |
| Identity.SafeEmail | Messenger/Resources/DatabaseManager.swift:22-26 | the key has the address's length and holds neither `.` nor `@`; each `.` or `@` becomes `-` and every other character is unchanged in place |
| Identity.SafeEmailFixesKeys | Messenger/Resources/DatabaseManager.swift:22-26 | a string without `.` or `@` is its own key |
| Identity.SafeEmailIdempotent | Messenger/Resources/DatabaseManager.swift:22-26 | deriving a key from a key changes nothing |
| Identity.SafeEmailNotInjective | Messenger/Resources/DatabaseManager.swift:22-26 | two different addresses, `a.b@c` and `a@b.c`, share the key `a-b-c` |
| Identity.ChatAppUser.Key | Messenger/Resources/DatabaseManager.swift:760-764 | the user's own key derivation agrees with `safeEmail` on every address |
| Lists.CompactMap | Messenger/Resources/DatabaseManager.swift:354-371 | `compactMap` is never longer than its input, and every output element is the closure's value on some input element |
| Lists.CompactMapAppend | Messenger/Resources/DatabaseManager.swift:386-455 | `compactMap` of a concatenation is the concatenation of the results, so surviving records keep their order |
| Lists.CompactMapKeepsAll | Messenger/Resources/DatabaseManager.swift:354-371 | when the closure drops nothing, the output is the element-wise map |
| Lists.CompactMapSingle | Messenger/Resources/DatabaseManager.swift:386-455 | a one-record array decodes to the record's value or to nothing |
| Lists.Split | Messenger/Resources/DatabaseManager.swift:428 | `components(separatedBy:)` yields at least one piece, and no piece holds the separator; it yields exactly one piece, the whole string, iff the separator is absent |
| Lists.SplitAtFirst | Messenger/Resources/DatabaseManager.swift:428 | a string cut at its first separator splits into that prefix followed by the pieces of the rest |
| Codec.CreateContent | Messenger/Resources/DatabaseManager.swift:178-197 | (no contract of its own; see `CreateContentKeepsOnlyText`) the content of a first message: the text of a text message, `""` for every other kind; `finishCreatingConversation` repeats the switch at :291-310 |
| Codec.SendContent | Messenger/Resources/DatabaseManager.swift:491-518 | (no contract of its own; see `SendContentRoundTrip`, `UnsupportedKindsReadBackAsText`) text as is, a photo or video as its URL string or `""` without one, a location as `"<longitude>,<latitude>"`, every other kind `""` |
| Codec.DecodeKind | Messenger/Resources/DatabaseManager.swift:399-440 | (no contract of its own; see `SendContentRoundTrip`, `OtherTagsReadAsText`, `LocationIndexPastEndExactly`) the kind read back from `type` and `content`, `None` when a URL, placeholder or number is missing |
| Codec.LatestRecord | Messenger/Resources/DatabaseManager.swift:549-553 | (no contract of its own; see `ConversationRecordRoundTrip`) the `latest_message` dictionary `{date, is_read, message}` |
| Codec.ConversationRecord | Messenger/Resources/DatabaseManager.swift:200-220 | (no contract of its own; see `ConversationRecordRoundTrip`, `ConversationRecordShaped`) the summary dictionary with `id`, `other_user_email`, `name` and `latest_message` |
| Codec.MessageRecord | Messenger/Resources/DatabaseManager.swift:321-329 | (no contract of its own; see `MessageRecordRoundTrip`) the message dictionary with `is_read` false; `sendMessage` writes the same shape at :529-537 |
| Codec.LocationIndexPastEndExactly | Messenger/Resources/DatabaseManager.swift:427-432 | `locationComponents[1]` reads past the end exactly when the location content has no comma and parses as a number |
| Codec.SendContentRoundTrip | Messenger/Resources/DatabaseManager.swift:491-518 | text, a photo or video with a URL, and a location whose numbers are described exactly are read back by the decoder as the kind that was sent, without reading past the end |
| Codec.UnsupportedKindsReadBackAsText | Messenger/Resources/DatabaseManager.swift:510-517 | attributed text, emoji, audio, contact and custom messages are stored with empty content and read back as empty text |
| Codec.OtherTagsReadAsText | Messenger/Resources/DatabaseManager.swift:438-440 | any `type` other than photo, video and location decodes as text holding the content |
| Codec.CreateContentKeepsOnlyText | Messenger/Resources/DatabaseManager.swift:178-197 | a first message is stored as `sendMessage` would store it for text and for the kinds neither stores, but not for a location or for a photo or video with a non-empty URL |
| Decoding.DecodeConversation | Messenger/Resources/DatabaseManager.swift:355-370 | (no contract of its own; see `ConversationRecordRoundTrip`) one summary dictionary as a conversation, `None` when a field is missing or mistyped |
| Decoding.ReadMessageFields | Messenger/Resources/DatabaseManager.swift:387-397 | (no contract of its own; see `MessageRecordRoundTrip`) the guard of the message closure: seven typed fields and a date the formatter accepts |
| Decoding.DecodeMessage | Messenger/Resources/DatabaseManager.swift:386-455 | (no contract of its own; see `MessageRecordRoundTrip`, `FirstPhotoMessageIsDropped`) one message dictionary as a message with the sender built from the stored e-mail and name, `None` when dropped |
| Decoding.DecodeConversations | Messenger/Resources/DatabaseManager.swift:349-373 | fails with `failedToFetch` iff the snapshot is not an array of dictionaries; otherwise no longer than the array, and every conversation is the decode of some record |
| Decoding.ConversationRecordRoundTrip | Messenger/Resources/DatabaseManager.swift:200-220 | a summary dictionary written by the code decodes back to its conversation |
| Decoding.ConversationListRoundTrip | Messenger/Resources/DatabaseManager.swift:354-371 | an array of written summaries decodes to exactly those conversations, in order |
| Decoding.AppendedConversationIsListed | Messenger/Resources/DatabaseManager.swift:225-227 | appending a written summary to a summary array appends its conversation to the decoded list |
| Decoding.AppendedListReadsBack | Messenger/Resources/DatabaseManager.swift:225-233 | after append-or-create, a summary list decodes to the old decoded list plus the new conversation |
| Decoding.DecodeMessages | Messenger/Resources/DatabaseManager.swift:381-457 | fails with `failedToFetch` iff the snapshot is not an array of dictionaries; otherwise no longer than the array, and every message is the decode of some record |
| Decoding.MessageRecordRoundTrip | Messenger/Resources/DatabaseManager.swift:523-531 | a message record written by `sendMessage` decodes back to the message, with the sender built from the stored e-mail and name, when its kind survives the store and the date formatter reads back what it wrote |
| Decoding.AppendedMessageIsListed | Messenger/Resources/DatabaseManager.swift:529-541 | appending such a record to a decodable message array appends the message to the decoded list |
| Decoding.FirstTextMessageIsListed | Messenger/Resources/DatabaseManager.swift:321-335 | the one-record list written for a text first message decodes to that message |
| Decoding.FirstPhotoMessageIsDropped | Messenger/Resources/DatabaseManager.swift:401-406 | a photo first message, stored with empty content, is dropped on reading when `""` is not a URL |
| Summaries.AppendOrCreate | Messenger/Resources/DatabaseManager.swift:225-233 | an array of dictionaries gains the entry at its end with its prior elements unchanged; anything else becomes the one-element array |
| Summaries.AppendDirectoryEntry | Messenger/Resources/DatabaseManager.swift:85-117 | an array of string dictionaries gains the entry at its end; anything else becomes the one-element directory |
| Summaries.FirstPosition | Messenger/Resources/DatabaseManager.swift:556-565 | the loop stops at the first entry whose `id` is the conversation's, or at the array's length when there is none |
| Summaries.UpsertLatest | Messenger/Resources/DatabaseManager.swift:547-595 | if an entry matches, only the first match changes, and only in its `latest_message`, with the same length and order; with no match the new summary is appended; an absent list becomes one summary |
| Summaries.RecordLatestMessage | Messenger/Resources/DatabaseManager.swift:609-664 | the closure's loop-and-mutate computation equals the upsert |
| Summaries.RemoveAt | Messenger/Resources/DatabaseManager.swift:702 | `remove(at:)` keeps the entries before the position, shifts the ones after it down by one, and removes exactly one occurrence of the entry |
| Summaries.FindBySender | Messenger/Resources/DatabaseManager.swift:725-746 | success only on an array, with the id of the first entry whose `other_user-email` is the sender's key; failure when no entry has that key |
| Summaries.FindBySenderFindsFirst | Messenger/Resources/DatabaseManager.swift:731-741 | conversely, when the first matching entry has a string id, that id is returned |
| Summaries.ConversationRecordShaped | Messenger/Resources/DatabaseManager.swift:200-220 | a written summary has exactly the keys `id`, `other_user_email`, `name` and `latest_message` |
| Summaries.AppendOrCreateKeepsShape | Messenger/Resources/DatabaseManager.swift:225-258 | appending a written summary keeps every entry in that shape |
| Summaries.UpsertLatestKeepsShape | Messenger/Resources/DatabaseManager.swift:547-664 | the upsert keeps every entry in that shape |
| Summaries.FindBySenderMissesWrittenSummaries | Messenger/Resources/DatabaseManager.swift:732 | on an array of written summaries, the search always fails, because the key it reads is misspelt |
| Database.ConversationId | Messenger/Resources/DatabaseManager.swift:199 | the id is the message id after the 14-character prefix `conversation_ `, whose last character is a space |
| Database.ConversationIdInjective | Messenger/Resources/DatabaseManager.swift:199 | distinct message ids mint distinct conversation ids |
| Database.UserNode | Messenger/Resources/DatabaseManager.swift:68-70 | the node written for a user has exactly the keys `first_name` and `last_name`, holding the two names |
| Database.DirectoryEntry | Messenger/Resources/DatabaseManager.swift:87-90 | a directory entry has exactly the keys `name` and `email`: the full name with a space, and the user's key |
| Database.InsertUserEffect | Messenger/Resources/DatabaseManager.swift:67-124 | (no contract of its own; see `InsertUserOutcome`, `InsertUserFailures`) node write, then the directory append-or-create, with one completion |
| Database.FinishCreatingEffect | Messenger/Resources/DatabaseManager.swift:274-344 | (no contract of its own; see `CreateNewConversationOutcome`) `false` without an e-mail, otherwise the conversation node `{messages: [record]}` and one completion reporting its write |
| Database.CreateNewConversationEffect | Messenger/Resources/DatabaseManager.swift:157-272 | (no contract of its own; see `CreateNewConversationOutcome`, `CreateNewConversationGuards`, `CreateNewConversationPartialFailure`) the guards, the counterpart's append whose result is ignored, the user's node write back, then finish |
| Database.SendMessageEffect | Messenger/Resources/DatabaseManager.swift:462-678 | (no contract of its own; see `SendMessageCompletions`, `SendMessageOutcome`, `SendMessageReportsSuccessOnFailedSummaryWrites`) the message append, then the two upserts whose completions test the message write's error |
| Database.DeleteFindsEntry | Messenger/Resources/DatabaseManager.swift:692-702 | (a predicate; see `DeleteFindsEntryExactly`) the condition under which `remove(at:)` stays in bounds |
| Database.DeleteConversationEffect | Messenger/Resources/DatabaseManager.swift:680-715 | (no contract of its own; see `DeleteConversationOutcome`, `DeleteConversationGuards`) remove the first entry with the id and write the list back |
| Database.DatabaseManager.constructor | Messenger/Resources/DatabaseManager.swift:20 | the manager starts on the given tree |
| Database.DatabaseManager.SetValue | Messenger/Resources/DatabaseManager.swift:541-545 | an accepted write replaces the node at the path; a rejected one changes nothing and reports an error |
| Database.DatabaseManager.InsertUser | Messenger/Resources/DatabaseManager.swift:67-124 | the new tree and the completion values equal `InsertUserEffect` of the old tree |
| Database.DatabaseManager.CreateNewConversation | Messenger/Resources/DatabaseManager.swift:157-272 | the new tree and the completion values equal `CreateNewConversationEffect` of the old tree |
| Database.DatabaseManager.FinishCreatingConversation | Messenger/Resources/DatabaseManager.swift:274-344 | the new tree and the completion values equal `FinishCreatingEffect` of the old tree |
| Database.DatabaseManager.SendMessage | Messenger/Resources/DatabaseManager.swift:462-678 | the new tree and the completion values equal `SendMessageEffect` of the old tree, with both summary completions testing the message write's error |
| Database.DatabaseManager.DeleteConversation | Messenger/Resources/DatabaseManager.swift:680-715 | under the condition that keeps `remove(at:)` in bounds, the new tree and the completion values equal `DeleteConversationEffect` of the old tree |
| Database.DatabaseManager.ConversationExists | Messenger/Resources/DatabaseManager.swift:717-747 | no completion without an e-mail; otherwise exactly one completion, with the first-match search on the counterpart's array |
| CreateOutcomes.CreateNewConversationOutcome | Messenger/Resources/DatabaseManager.swift:167-343 | on success: completion `true` once; each participant's array ends with one new summary with id `"conversation_ " + messageId` and the same unread latest message; the counterpart's summary has the current user's key and name, the user's summary has the counterpart's key and the given name; the conversation node is exactly `{messages: [first record]}`; no other key and no sibling of `conversations` changes |
| CreateOutcomes.UserNodeWithSummary | Messenger/Resources/DatabaseManager.swift:237-258 | the user's node as read, with the summary appended to its `conversations` (or a new one-element list), keeps every other child |
| CreateOutcomes.ThreeWrites | Messenger/Resources/DatabaseManager.swift:228-242 | the counterpart's list, the user's node and the conversation node, written at distinct keys, each read back as written, and every other key and every sibling of the counterpart's list reads as before |
| CreateOutcomes.OnlyMessagesNode | Messenger/Resources/DatabaseManager.swift:331-337 | a conversation node `{messages: [record]}` has the one-record array under `messages` |
| CreateOutcomes.CreateNewConversationGuards | Messenger/Resources/DatabaseManager.swift:161-172 | no e-mail or no name means no completion and no change; no user node means `false` and no change; at most one completion |
| CreateOutcomes.CreateNewConversationPartialFailure | Messenger/Resources/DatabaseManager.swift:224-246 | when the user's node write is rejected, the completion gets `false`, but the counterpart's summary stays written and no conversation node is created |
| CreateOutcomes.CreatedConversationIsListed | Messenger/Resources/DatabaseManager.swift:157-272 | after success, both participants' lists decode to their old conversations plus the new one |
| CreateOutcomes.CreatedFirstMessageIsListed | Messenger/Resources/DatabaseManager.swift:321-343 | after success with a text first message, the conversation's messages decode to that message alone, sent by the current user's key |
| CreateOutcomes.ConversationExistsMissesCreatedConversation | Messenger/Resources/DatabaseManager.swift:717-747 | right after a successful `createNewConversation`, `conversationExists` for the counterpart fails when that user's list held only written summaries |
| SendOutcomes.SendMessageCompletions | Messenger/Resources/DatabaseManager.swift:470-672 | the completion is called as `[false]`, `[true]` or `[true, true]`; `[false]` exactly when there is no e-mail, the messages node is not an array, or the message write fails, and then nothing changed; `[true]` exactly when there is no name |
| SendOutcomes.SendMessageOutcome | Messenger/Resources/DatabaseManager.swift:523-673 | on success: the messages array is the old one plus one record with the sender's key and `is_read` false; each participant's list is the upsert of the new latest message; no other top-level key, no other child of the conversation node and no other child of either user's node changes |
| SendOutcomes.ThreeListWrites | Messenger/Resources/DatabaseManager.swift:541-666 | the messages, the sender's list and the counterpart's list, written one child below distinct top-level keys, each read back as written; every other top-level key and every sibling of a written child reads as before |
| SendOutcomes.SendMessageReportsSuccessOnFailedSummaryWrites | Messenger/Resources/DatabaseManager.swift:597-603 | with both summary writes rejected, the completion still gets `true` twice, and only the message was stored |
| SendOutcomes.SendMessageWithoutNameSkipsRecipient | Messenger/Resources/DatabaseManager.swift:618-620 | without a name, the counterpart's node is untouched and the completion is called once |
| SendOutcomes.SentMessageIsListed | Messenger/Resources/DatabaseManager.swift:533-545 | a sent message whose kind survives the store is read back as the last message of the conversation |
| SendOutcomes.SendMessageKeepsSummaryShape | Messenger/Resources/DatabaseManager.swift:547-664 | summary lists holding only written summaries still do after `sendMessage` |
| DeleteOutcomes.DeleteFindsEntryExactly | Messenger/Resources/DatabaseManager.swift:692-702 | `remove(at:)` stays in bounds iff there is no array to scan or some entry has the id |
| DeleteOutcomes.DeleteConversationOutcome | Messenger/Resources/DatabaseManager.swift:690-713 | on success, exactly the first entry with the id is removed, and the entries around it keep their order; the counterpart's list, the conversation node and the rest of the tree are untouched |
| DeleteOutcomes.DeleteConversationGuards | Messenger/Resources/DatabaseManager.swift:681-713 | no e-mail or no array means no completion and no change; otherwise one completion reporting the write; a rejected write changes nothing |
| InsertOutcomes.InsertUserOutcome | Messenger/Resources/DatabaseManager.swift:67-121 | on success, the user's node holds only the two names, so a previous `conversations` list is gone; the directory gains the user's entry; no other key changes |
| InsertOutcomes.InsertUserFailures | Messenger/Resources/DatabaseManager.swift:77-115 | a rejected node write reports `false` and changes nothing; a rejected directory write reports `false` but leaves the new node |

## Left out

- Firebase transport: the database reference, `observeSingleEvent`, `setValue` and `getDataForPath`. The tree is a value, and each read or write is a `Get` or `Set` on it.
- Continuous `.observe` listeners: each decoder is one decode of one snapshot, not a stream.
- Races and callback scheduling: each operation's steps run in one fixed order. In `createNewConversation` the counterpart's array is written before the user's node, and the user's node is the one read at the start. The outcome lemmas assume that the conversation node and the two users' nodes have distinct keys.
- `userExists`, `getAllUsers` and `getDataForPath` are not part of this model. They read a node without any bookkeeping.
- `ChatAppUser.profilePictureFileName` is not part of this model. It only builds a storage file name.
- Message ids and dates are inputs. How the app generates them is not modelled.
- The date formatter, `Double` descriptions and parsing, `URL(string:)` and the placeholder images are functions of a `Platform` parameter. Their behaviour is not modelled. Coordinates are exact `real` numbers rather than floating point.
- Only the URL string of a `Media` reaches the store. Images, sizes and `CLLocation` are left out.
- The remote store's own rules are left out. Writing an empty array deletes the node, and numbers can appear in the tree; here the tree holds only strings, booleans, dictionaries and arrays.
- Keys are not validated. The store raises an error for a path holding `.`, `#`, `$`, `[` or `]`, so a raw `otherUserEmail` with a dot (DatabaseManager.swift:224, :609) crashes the app; here any string is one key. A `/` inside a key would address a deeper node; here it does not.
- Strings are compared character by character. Swift's `==` (DatabaseManager.swift:560, :628, :696, :735) also equates canonically equivalent Unicode strings, so an id or key spelt with a different normalisation would match in the app but not in the model.
- `AppDelegate`, `StorageManager`, the view controllers and `ProfileViewModel` are not part of this model.
- Database.DatabaseManager.DeleteConversation: `remove(at:)` past the end, when the id is absent, is a precondition (`DeleteFindsEntry`) rather than a modelled crash.
- Decoding.DecodeMessages: reading `locationComponents[1]` past the end is a precondition (`DecodableMessages`) rather than a modelled crash.
- The second `UserDefaults` e-mail guard inside `sendMessage`'s read callback is not modelled separately. Both guards read the same `UserDefaults` value.
