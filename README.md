# Mic-Drop Arena: matchmaking and chat-history core in Dafny

This project models the core logic of Mic-Drop Arena, an app that pairs anonymous users for one-on-one "roast battles" and keeps their chat history. The model covers two parts:

- **Matchmaking back end** (`functions/index.js`), module `Matchmaking`.
  - `findPartner` is a callable function. It runs one store transaction over three collections: `waitingUsers` (keyed by uid), `sessions` (keyed by a generated id) and `users` (which holds each user's `activeSessionId`).
  - The transaction either enqueues the caller, or it creates a session with a waiting partner, deletes that partner's waiting document and points both users at the new session.
  - `cleanupUser` deletes a deleted account's waiting document.
  - The transaction is one atomic step. `Pair` and `Cleanup` state each effect as a function on the store value `Db`.
  - The class `Database` holds the three collections as `map` fields. Its methods `FindPartner` and `CleanupUser` make the writes one by one and are proved equal to `Pair` and `Cleanup`.
- **Chat client logic** (`script.js`).
  - `ClientSession` holds the live-session variables (`currentPartner`, `partnerUid`, `partnerUsername`, `partnerAvatar`) as fields of class `Client`. It models the `chat_start` handler, `resetUI` and the guard at the top of `sendMessage`.
  - `JsString` models JavaScript's `trim`, which that guard uses.
  - `ChatHistory` models the partner list built by `showChatHistoryList` (a scan with a `seen` set) and the conversation query, ordering and `you`/`stranger` labelling of `loadChatHistory`.
- `Wrappers` holds `Option` (a JavaScript value that may be missing) and `Result` (the error path of `findPartner`).

Some inputs come from outside the code. The model takes each one as a parameter:

- **Store order** (`order`): the store's enumeration of the waiting collection. `limit(1)` returns the first document in this order whose `uid` differs from the caller's. `Database.FindPartner` requires that `order` lists every waiting document, as a real query sees the whole collection.
- **Request payload** (`request`): the caller's `{username, avatar}`, `None` when the payload is null or a field is undefined.
- **Query failure** (`queryFailed`): whether loading the store module or running the conversation query threw.
- **New session id** (`newId`): the id the store generates for `sessions.doc()`. The lemmas about a new session assume this id is fresh (`newId !in db.sessions`).
- **Query results** (`snapshot`): the records a history query returns.
- **Caller identity** (`caller` or `user`): the authenticated uid, `None` when there is none.
- **Local profile** (`you`): the name and avatar read from `localStorage`.

## Model

| member | source | states |
|---|---|---|
| `Matchmaking.FirstWaitingOther` | functions/index.js:28-32 | The chosen document exists, is in the store's order and has a `uid` other than the caller's. When it finds none, every enumerated document belongs to the caller. |
| `Matchmaking.QueryFindsOtherIffOneWaits` | functions/index.js:28-34 | When the order enumerates the whole collection, the query finds a partner exactly when some waiting document has a different uid. |
| `Matchmaking.NewSession` | functions/index.js:53-64 | The new session's `participantInfo` has exactly the two uids as keys and holds the partner's stored profile. When the uids differ it also holds the caller's supplied profile, and the session is well formed. |
| `Matchmaking.Pair` | functions/index.js:11-84 | The transaction's effect. It fails exactly when the call has no auth, and then writes nothing. A `waiting` reply leaves `sessions` and `users` alone. A `matched` reply carries `newId`, which is then a session. The only waiting key that can appear is the caller's. |
| `Matchmaking.FindPartnerCall` | functions/index.js:13-64 | A whole call. Without auth it fails with `Unauthenticated`. With auth, a payload that cannot be stored fails with `Rejected`. A failed call writes nothing, and any other call is `Pair`. |
| `Matchmaking.UnauthenticatedChangesNothing` | functions/index.js:13-18 | A call without auth is rejected with `Unauthenticated` and the store is unchanged. |
| `Matchmaking.NoOtherWaiterEnqueues` | functions/index.js:34-46 | If no waiting document has another uid, the reply is `waiting`. `waitingUsers[uid]` becomes `{uid, username, avatar}` and `sessions` and `users` are untouched. |
| `Matchmaking.EnqueueKeepsOneEntryPerUser` | functions/index.js:36-42 | After enqueueing, documents are still keyed by their own uid and the caller's entry holds the supplied profile. The count grows by one only if the caller had no entry. Re-queueing overwrites. |
| `Matchmaking.OtherWaiterMatches` | functions/index.js:28-81 | If another user waits and the order covers the collection, the call matches and replies with the new session id. |
| `Matchmaking.MatchIsWithAnotherWaitingUser` | functions/index.js:49-64 | A match pairs the caller with an existing waiting document whose uid differs from the caller's. The session's `participants` is `[uid, partnerUid]` with two distinct uids. `participantInfo` holds the caller's supplied profile and the partner's stored profile. |
| `Matchmaking.MatchConsumesExactlyOneEntry` | functions/index.js:49-66 | A match deletes exactly the waiting document of the session's second participant, the partner. The waiting count drops by one, and every other document, including any entry of the caller's, is kept. |
| `Matchmaking.MatchCreatesFreshSession` | functions/index.js:53-64 | With a fresh id, a match adds exactly one session under that id, keeps all other sessions and replies with the same id. |
| `Matchmaking.MatchPointsBothUsers` | functions/index.js:68-81 | Both participants' `users` documents become `{activeSessionId: newId}`. No other user's pointer changes. |
| `Matchmaking.PairPreservesValid` | functions/index.js:25-83 | `findPartner` keeps waiting documents keyed by uid and every session a pair of two distinct users with a profile for each. |
| `Matchmaking.PairPreservesPointers` | functions/index.js:53-76 | With a fresh id, every active-session pointer still names an existing session that contains that user. |
| `Matchmaking.TwoCallersArePairedOnce` | functions/index.js:25-83 | Two users with nobody waiting who call one after the other: the first gets `waiting`. The second gets `matched` with one session holding both, and neither has a waiting document left. |
| `Matchmaking.UpdateSize` | functions/index.js:36-37 | Writing a document under a new key adds one to the collection. Writing under an existing key keeps the count. |
| `Matchmaking.Cleanup` | functions/index.js:89-98 | `cleanupUser` removes `waitingUsers[uid]` and changes no other document or collection. |
| `Matchmaking.CleanupAbsentIsNoop` | functions/index.js:93-97 | Deleting an absent waiting document leaves the store unchanged. |
| `Matchmaking.CleanupIdempotent` | functions/index.js:89-98 | Two cleanups equal one, and cleanup keeps the store invariants and resolvable pointers. |
| `Matchmaking.Database.constructor` | functions/index.js:6 | An empty store, which meets the invariants and has resolvable pointers. |
| `Matchmaking.Database.FindPartner` | functions/index.js:11-84 | The auth and payload checks, then the step-by-step writes (`set` waiting, or `set` session, `delete` partner, `set` both pointers), leave the store and reply that `FindPartnerCall` gives. A valid call replies `waiting` exactly when no other user waits. The invariants are kept. |
| `Matchmaking.Database.CleanupUser` | functions/index.js:89-98 | The batch delete leaves the store that `Cleanup` gives, and the invariants are kept. |
| `JsString.LeadingWhitespace` | script.js:129 | The leading run of whitespace that `trim` drops: all whitespace, and ends at a non-whitespace character or the end of the string. |
| `JsString.TrailingWhitespaceStart` | script.js:129 | The trailing run of whitespace that `trim` drops: all whitespace, and starts after a non-whitespace character or at the start of the string. |
| `JsString.Trim` | script.js:129 | `trim` is never longer than its input and neither starts nor ends with whitespace. |
| `JsString.TrimIsMaximalSlice` | script.js:129 | `trim` returns a contiguous slice with only whitespace cut off on either side. The slice neither starts nor ends with whitespace. |
| `JsString.TrimEmptyIffBlank` | script.js:129-130 | The trimmed input is empty exactly when every character is whitespace. |
| `ClientSession.OrElse` | script.js:231-233 | JavaScript `v \|\| fallback`: a present, non-empty value is kept, otherwise the fallback is used. |
| `ClientSession.SendBlocked` | script.js:129-130 | The guard as written: the trimmed input is empty or `currentPartner` is falsy. `SendBlockedIff` states what this means. |
| `ClientSession.SendBlockedIff` | script.js:129-130 | `sendMessage` returns early exactly for blank input or a missing or empty `currentPartner`, and always when there is no partner. |
| `ClientSession.Client.constructor` | script.js:47-52 | Initial values: no partner, no partner uid, name `Opponent` and the default avatar. |
| `ClientSession.Client.OnChatStart` | script.js:229-233 | `currentPartner := partnerId`. The partner uid, name and avatar fall back to `"unknown"`, `"Opponent"` and the dicebear URL when missing or empty. |
| `ClientSession.Client.ResetUI` | script.js:105-112 | Afterwards `currentPartner` is null whatever the state before. The other partner fields are left as they were. |
| `ClientSession.Client.SendMessage` | script.js:128-133 | Nothing is emitted when the trimmed input is empty or there is no partner. Otherwise the emitted text is the non-empty trimmed input. |
| `ClientSession.MessageBlockedAfterPartnerLeft` | script.js:304-309 | After `chat_start` a non-blank message is sent trimmed. After `partner_left` runs `resetUI`, the same message is not sent. |
| `ChatHistory.OwnedBy` | script.js:488-492 | The partner-list query keeps exactly the records whose `uid` is the caller's. |
| `ChatHistory.FirstContacts` | script.js:495-502 | The `seen`-set scan never keeps the same `withUid` twice, covers every partner of the scanned records and keeps only scanned records. |
| `ChatHistory.FirstContactIsEarliest` | script.js:498-502 | The record kept for a partner comes no later in the scan than any other record of that partner. |
| `ChatHistory.FirstContactIsMostRecent` | script.js:491-502 | On a newest-first scan, the kept record is the partner's most recent contact. |
| `ChatHistory.FirstContactsStaySorted` | script.js:491-502 | On a newest-first scan, the partner list is ordered most recent contact first. |
| `ChatHistory.EntryOf` | script.js:503-506 | A row opens the record's `withUid`. It shows `to`/`toAvatar` when `from` is the user's name, and `from`/`fromAvatar` otherwise. |
| `ChatHistory.EntriesOf` | script.js:498-520 | One row per kept record, in order, each the record's own row. |
| `ChatHistory.FirstContactsStep` | script.js:498-502 | One step of the scan keeps the next record exactly when its partner is not yet in `seen`. |
| `ChatHistory.Opponent` | script.js:504-506 | If `from` equals the user's name, the opponent is `to`/`toAvatar`, otherwise `from`/`fromAvatar`. Name and avatar come from the same side. |
| `ChatHistory.EntriesNamePartners` | script.js:498-520 | The rows name the kept records' partners, once each. |
| `ChatHistory.ShowChatHistoryList` | script.js:494-521 | The loop's rows are the kept records' entries. No partner uid is repeated, and the rows cover every partner in the snapshot. |
| `ChatHistory.PartnerListIsRecentDistinctPartners` | script.js:488-502 | On the query's result, each partner of the caller's records is listed exactly once, at its most recent contact, most recent first. |
| `ChatHistory.IsPartnerQueryResult` | script.js:488-492 | What the partner-list query returns: a permutation of the caller's records, newest first. `QueryHoldsOwnRecords` and `PartnerListIsRecentDistinctPartners` state its consequences. |
| `ChatHistory.QueryHoldsOwnRecords` | script.js:488-494 | A snapshot that is a permutation of the caller's records holds exactly those records and partners. |
| `ChatHistory.InConversation` | script.js:363-366 | The query's filter: the record is `me`'s with `p`, or `p`'s with `me`. |
| `ChatHistory.Between` | script.js:361-366 | A record is selected iff `(uid == me && withUid == p) \|\| (uid == p && withUid == me)`. |
| `ChatHistory.BetweenSymmetric` | script.js:363-366 | Swapping `me` and `p` selects the same records in the same order. |
| `ChatHistory.ConsSorted` | script.js:367 | A record no newer than the head of an ascending sequence can go in front of it. |
| `ChatHistory.InsertByTimestamp` | script.js:367 | Insertion keeps ascending timestamp order and adds exactly one record. |
| `ChatHistory.SortByTimestamp` | script.js:367 | `orderBy('timestamp', 'asc')` yields a non-decreasing permutation of its input. |
| `ChatHistory.Conversation` | script.js:361-368 | The conversation query's result is non-decreasing in timestamp and a permutation of the selected records. |
| `ChatHistory.LabelOf` | script.js:379-386 | A line is `you` iff the record's `uid` is the user's. It then shows the local name and avatar, and otherwise the partner name and avatar passed in. Text is kept. |
| `ChatHistory.LabelAll` | script.js:378-387 | Every record of the snapshot gets its own label, in order. |
| `ChatHistory.LoadChatHistory` | script.js:338-406 | No user gives no view, and only then. The failure note appears exactly when a signed-in load's import or query throws. A transcript is never empty. |
| `ChatHistory.LoadChatHistoryAsWritten` | script.js:338-406 | As written, the view is never a transcript, and a thrown import or query also ends in the failure note. |
| `ChatHistory.TranscriptIsLabelledConversation` | script.js:361-387 | "No conversation found" exactly when no record is between the two uids. Otherwise the transcript is the conversation: a non-decreasing permutation of the selected records, each line `you` iff its record's uid is the user's. |
| `ChatHistory.TranscriptSameForBothSides` | script.js:361-386 | Both users of a conversation load the same texts in the same order, with `you` and `stranger` swapped. |
| `ChatHistory.AsWrittenHidesEveryConversation` | script.js:390-406 | As written, any non-empty conversation ends as the failure note where the intended model gives a transcript. |
| `ChatHistory.AsWrittenFailsOnOneMessage` | script.js:390-406 | Concrete witness: one saved message "hi" from `a` to `b` gives the failure note as written, and a one-line `you` transcript as intended. |

## Findings

| source | as written | input that shows it | evidently intended | confidence | as-written member | corrected member |
|---|---|---|---|---|---|---|
| script.js:390-406 | After rendering the transcript, `loadChatHistory` clears the chat and iterates `filteredMessages`, which is never declared. The `ReferenceError` lands in the `catch`, which replaces the chat with "Failed to load conversation". | Signed-in user `a`, one saved record `{uid: "a", withUid: "b", text: "hi", timestamp: 1}`, opening the history with `b` | Show the labelled, time-ordered transcript built at lines 378-387 | high, not executed | `ChatHistory.LoadChatHistoryAsWritten` (exhibited by `ChatHistory.AsWrittenFailsOnOneMessage`, `ChatHistory.AsWrittenHidesEveryConversation`) | `ChatHistory.LoadChatHistory` (proved by `ChatHistory.TranscriptIsLabelledConversation`, `ChatHistory.TranscriptSameForBothSides`) |

## Behaviour worth knowing

- Nothing in functions/index.js stops a waiting user from calling again. A matched caller keeps its own waiting document, because line 66 deletes only the partner's. `MatchConsumesExactlyOneEntry` states this.
- No code in these files clears `activeSessionId` when a session ends, so the model has no such step.
- The partner pick is whatever `limit(1)` returns. The query has no `orderBy`, so no oldest-first policy exists, and the store's order is a parameter.
- `transaction.set` on a `users` document replaces the whole document. The model stores only `activeSessionId`.

## Left out

- Firestore's optimistic-concurrency retry and conflict handling. The transaction is one atomic step, so concurrent callers are modelled only as serialized calls (`TwoCallersArePairedOnce`).
- The `serverTimestamp()` fields of waiting and session documents (functions/index.js:41, 63). They are opaque store values.
- Session-id generation (`sessions.doc()`) is random in the store. The model takes the id as a parameter, and freshness is a hypothesis of the session lemmas.
- `console.log` output in both files, because it has no effect on state.
- The network calls (`socket.emit`), the local echo through `addMessage`, the `addDoc` persistence, the sound and the input clearing in `sendMessage` (script.js:132-180). `Client.SendMessage` returns the text that would be emitted and stands for all of them.
- The persistence in `receive_message` (script.js:249-300). It stores the whole message object as `text` and re-saves the received message as the user's own, so it is not modelled as intended behaviour.
- DOM rendering, HTML building, audio, random quotes, the friends sidebar and the toggles (script.js:1-26, 73-104, 114-126, 412-472).
- Socket transport, reconnection settings and event wiring (script.js:28-38, 197-227, 304-333). The server-side relay that handles `start_chat`, `skip_partner` and typing is not part of this model.
- The typing debounce (script.js:178-194), because it is driven by timers.
- `Matchmaking.FindPartnerCall`: a payload field that is null or not a string is not distinguished from a string. The store accepts such values, and the model treats the field as present. A transaction that fails through contention after its retries is not modelled either.
- `Matchmaking.Pair`: the reply assumes the transaction commits. Store-side failures (quota, network, retry exhaustion) are not modelled.
- `ChatHistory.ShowChatHistoryList`: the `catch` at script.js:523-526 is not modelled. It shows "Error loading chats" when the module import or the query throws, and the method starts from a delivered snapshot.
- The `inLiveChat` flag and the "Back to Live Chat" button of `loadChatHistory` (script.js:343-353).
- The store's sort for `orderBy`. `SortByTimestamp` is a stable insertion sort, so equal timestamps keep collection order. For the partner list, the query result is described by `IsPartnerQueryResult` (the caller's records, newest first) instead of being computed.
- `ChatHistory.ShowChatHistoryList`: the early return when no user or database is present (script.js:480) is not modelled. The method starts from the query snapshot.
- functions/.eslintrc.js is lint configuration with no behaviour.
