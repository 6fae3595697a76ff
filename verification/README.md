# Verified model of the Hone stores, agent loops and migrations

Hone keeps its users, web sessions, quotas, conversations and audit records on local files and in SQLite, runs language
models in tool loops, and migrates old data with scripts. This project models those parts in Dafny and proves what they
promise over whole histories, over all interleavings of threads, and over all inputs. `dafny verify dfyconfig.toml`
checks everything.

- **Web login** (`WebAuthTables`, `WebAuthStore`, `WebAuthHistory`, `WebAuthDraws`, `WebAuthRecords`). Two tables, users and sessions. `Step` says what one
  call does to them; the class `Store` does it in place, statement by statement; the history module proves, for every
  sequence of calls from empty tables, which tokens, invite codes, API keys and passwords work now. SHA-256 is a free
  constructor `Digest`, so it is injective and never equals a generated text. Random values are the arguments `Draws`,
  `token` and `userId` of a call; the clock is its argument `now`, in nanoseconds; a typed invite code brings the runtime's
  upper-casing, an arbitrary function, with it.
- **Conversation quota** (`Quota`, `QuotaProtocol`). The record arithmetic in 32 bits, the storage class, and a step
  relation in which any number of threads look up the lock, lock, read, decide, write and unlock; reads and writes may
  fail. A ledger records reservations granted, committed and outstanding.
- **Sessions** (`SessionModel`, `SessionChanges`, `SessionContext`, `SessionStore`, `SessionCalls`, `SessionProtocol`,
  `SessionRaces`, `SessionMirror`, `MirrorColumns`).
  The document and its changes; the selection of messages for the model; the store with JSON files and an index, for both
  backends; a step relation for the locked mutators, unlocked readers and creators, index failures and restarts; concrete
  runs that show which hypotheses are needed; and the three tables of the SQLite index.
- **Agent loops** (`AgentContexts`, `AgentLoop`, `AgentReports`, `CliLoop`, `CliReports`, `ToolCallTag`, `PromptBudget`,
  `PromptText`, `Utf8`). The model and the
  tools are arbitrary oracles. The loops add to a context object; the tag parser and the prompt budget work on arbitrary
  text.
- **Actor keys and migrations** (`ActorKey`, `KeyText`, `KeyReading`, `UnreadableText`, `PyJson`, `CronMigration`,
  `SessionMigration`, `SessionOutcome`, `SessionFixpoint`, `UnsafeSession`, `SessionValidation`). The escaping codec as written in Python
  and in Rust, over all Unicode texts, and the migrations that build on it, over arbitrary JSON with Python's meaning of
  truth, `get` and `==`. `show` is Python's `str` on values that are not strings.
- **Audit** (`AuditQuery`, `AuditPages`, `AuditStore`). The query builder with positional parameters, the table under inserts and
  prunes, and the paged export.
- **Time stamps** (`Timestamps`, `TimestampFormat`). RFC 3339 texts at +08:00 with 0, 3, 6 or 9 fraction digits, compared as strings.

What turned out to hold only under a condition, or not at all:

- Rust's component decoder restores a text exactly when it is ASCII (`ActorKey.RustRestoresIff`); Python's restores
  exactly the texts none of whose UTF-8 bytes is a Latin-1 letter or digit that Python's encoder keeps
  (`ActorKey.PythonRestoresIff`), hence everything that Rust wrote.
- Rust reads an actor back from its key exactly when all parts are ASCII and the scope does not spell "direct", which
  shares its key with no scope at all (`KeyReading.KeyReadBackIff`).
- Session migration takes at most four passes, and three only if no summary message behind a blank text summary has a
  timestamp that is truthy and no text (`SessionMigration.StageBounds`).
- It reaches a fixpoint at all exactly when its first pass is safe: the id does not fail to decode, and an actor decoded
  from it has a user that is not blank, or parts that the script can read back (`SessionFixpoint.FixpointReachedIff`).
  The session with nothing but the id `Actor__c3_a9__direct___20` is not: its first pass writes the actor ("é", " ")
  and the second fails on the id that the first wrote (`UnsafeSession.SecondPassFails`).
- `remove_last_message_if_matches` takes a tool message back exactly when its content is blank, no JSON, or JSON with the
  same text (`SessionModel.ToolMessageTakenBackIff`); a JSON string is not taken back (`SessionModel.ToolMessageMayStay`).
- Locks go by the id as given and files by its trimmed stem, backfills of readers take no lock, and creators take none:
  each of these loses an update in a concrete run (`SessionRaces`).
- The offset of an audit page wraps in 32 bits (`AuditQuery.OffsetExactIff`).
- A validated session file stem validates to itself exactly when it has no outer white space (`SessionStore.PathIsStable`);
  the id "a /." has the stem "a ", whose own stem is "a" (`SessionStore.PathNeedNotBeStable`).

## Model

| member | source | states |
|---|---|---|
| WebAuthTables.StepKeepsSound | memory/src/web_auth.rs:269-1211 | no operation on any input breaks the table invariant: codes and key hashes unique across users, key hash and prefix both present or both absent, phones normalized, every session row under a hash and owned by a present, unrevoked user |
| WebAuthTables.FreeCode | memory/src/web_auth.rs:1447-1466 | the retry loop returns a drawn code that no user has, and gives up only when all eight draws are taken |
| WebAuthTables.FreeKey | memory/src/web_auth.rs:1468-1488 | the same for API keys, by hash |
| WebAuthTables.NormalizePhoneNumber | memory/src/web_auth.rs:1427-1435 | the loop computes the normal form that the phone lemmas are about |
| WebAuthTables.PhoneMeaning | memory/src/web_auth.rs:1427-1445 | a normalized phone is its digits behind an optional leading plus; normalizing is idempotent and keeps validity |
| WebAuthTables.ExpiryDecidesTime | memory/src/web_auth.rs:784-784 | on rendered times the test on the texts of expiry and clock is the test on instants |
| WebAuthTables.PurgeDecidesTime | memory/src/web_auth.rs:1353-1360 | a purge by texts removes exactly the rows that a purge by instants removes |
| WebAuthStore.Store.GenerateUniqueInviteCode | memory/src/web_auth.rs:1447-1466 | the eight queries find the first drawn code absent from the table |
| WebAuthStore.Store.GenerateUniqueApiKey | memory/src/web_auth.rs:1468-1488 | the eight queries find the first drawn key whose hash is absent from the table |
| WebAuthStore.Store.CreateInviteUser | memory/src/web_auth.rs:269-343 | performs exactly the creation step of the histories, or fails and changes nothing |
| WebAuthStore.Store.FindInviteUserByApiKey | memory/src/web_auth.rs:454-510 | performs exactly the key lookup step and notes the use |
| WebAuthStore.Store.EnsureApiKeyForUser | memory/src/web_auth.rs:512-566 | issues a key only to a user without one |
| WebAuthStore.Store.ResetApiKeyForUser | memory/src/web_auth.rs:568-610 | performs exactly the key reset step |
| WebAuthStore.Store.CreateSessionForInvite | memory/src/web_auth.rs:612-707 | purges, then performs exactly the invite login step, with no write on failure |
| WebAuthStore.Store.CreateSessionForUser | memory/src/web_auth.rs:1127-1211 | purges, then performs exactly the user login step |
| WebAuthStore.Store.AuthenticateSessionDetailed | memory/src/web_auth.rs:719-831 | performs exactly the check step, and never answers that the user is revoked or missing |
| WebAuthStore.Store.DeleteSession | memory/src/web_auth.rs:833-850 | removes exactly the rows of the presented text and of its hash |
| WebAuthStore.Store.CountActiveSessionsForUser | memory/src/web_auth.rs:852-873 | purges and counts the user's rows |
| WebAuthStore.Store.SetInviteRevoked | memory/src/web_auth.rs:875-936 | a revocation deletes the user's rows, a restoration brings none back |
| WebAuthStore.Store.ResetInviteCode | memory/src/web_auth.rs:938-988 | a new code, no revocation and no session rows, all or nothing |
| WebAuthStore.Store.SetPassword | memory/src/web_auth.rs:1025-1062 | writes only when no password is set |
| WebAuthStore.Store.ChangePassword | memory/src/web_auth.rs:1065-1092 | writes only when a password is set |
| WebAuthStore.Store.RecordTosAcceptance | memory/src/web_auth.rs:1094-1125 | writes only for an unrevoked user |
| WebAuthHistory.SessionTableIsHistory | memory/src/web_auth.rs:612-988 | after every sequence of calls the session table holds exactly the grants issued and not ended since |
| WebAuthHistory.CheckIsHistory | memory/src/web_auth.rs:719-831 | for arbitrary clocks and any presented text, the answer is decided by the history of the token that the text names, a stored hash counting as its token; missing and revoked users cannot be answered |
| WebAuthHistory.SessionAuthenticates | memory/src/web_auth.rs:719-831 | with a clock that never goes back, a text authenticates as a user exactly when the token that it names was issued to that user, now is before the expiry fixed at issue, and since then it was not deleted and the user neither revoked nor given a new code |
| WebAuthHistory.ExpiryFixedAtIssue | memory/src/web_auth.rs:612-707 | a login's expiry is 30 days after an invite login and the caller's days after a user login; nothing changes it |
| WebAuthHistory.LiveIsUnique | memory/src/web_auth.rs:612-707 | a live token has one user and one expiry |
| WebAuthHistory.UserTableIsHistory | memory/src/web_auth.rs:269-1125 | code, phone, revocation, password and key of a user are those that the history set last |
| WebAuthHistory.KeyAccepted | memory/src/web_auth.rs:454-510 | a key is accepted for a user exactly when it is the latest one issued to that user, not blank, and the user is not revoked |
| WebAuthHistory.CodeOpensSession | memory/src/web_auth.rs:612-707 | a code opens a session exactly when it is the user's current one, the normalized phone matches, the user is not revoked and the drawn token is live for nobody |
| WebAuthHistory.HistoryKeepsTables | memory/src/web_auth.rs:269-988 | at every point codes and keys are unique, hash and prefix come and go together, and a revoked user has no session row |
| WebAuthHistory.PasswordSetOnce | memory/src/web_auth.rs:1025-1092 | a first password succeeds exactly when none was ever set, a change exactly when one was |
| WebAuthHistory.CountIsLiveTokens | memory/src/web_auth.rs:852-873 | the count is the number of tokens live for the user at the call's clock |
| WebAuthDraws.ResetCodeIsDrawn | memory/src/web_auth.rs:938-988 | a code reset gives a known user the first drawn code that nobody had, this user included, lifts a revocation and changes no other user; it fails only when all draws are taken |
| WebAuthDraws.ResetKeyIsDrawn | memory/src/web_auth.rs:568-610 | a key reset gives a known user the first drawn key whose hash nobody had, new and unused, and changes nothing else |
| WebAuthDraws.EnsuredKey | memory/src/web_auth.rs:512-566 | nothing happens for a user with a key, and a reset for one without |
| WebAuthDraws.CreationIsDrawn | memory/src/web_auth.rs:269-343 | a new user gets the first free drawn code and key; creation fails exactly for fewer than 6 or more than 20 digits, exhausted draws or a taken id |
| WebAuthDraws.ReplacedCodeIsRefused | memory/src/web_auth.rs:938-988 | after a code reset the replaced code opens nothing, as long as no later draw brings it back |
| WebAuthDraws.ReplacedKeyFindsNobody | memory/src/web_auth.rs:568-610 | after a key reset the replaced key finds nobody, as long as no later draw has its hash |
| WebAuthRecords.TimesAreHistory | memory/src/web_auth.rs:269-1125 | every time in the user table, the accepted terms and the key prefix are those of the last call that set them |
| WebAuthRecords.RowTimesAreHistory | memory/src/web_auth.rs:612-831 | a session row was created at the last login that issued its token and last seen then or at the last accepted check |
| WebAuthRecords.AnswersShowRows | memory/src/web_auth.rs:454-988 | a user record in an answer is the row after the call |
| WebAuthRecords.UserIdOpensSession | memory/src/web_auth.rs:1127-1211 | a login by user id succeeds exactly for a known, unrevoked user and a token that is not live |
| WebAuthRecords.EnsureKeyKeeps | memory/src/web_auth.rs:512-566 | every known user has a key, so ensuring one changes nothing |
| WebAuthRecords.TosRecordedIff | memory/src/web_auth.rs:1094-1125 | terms are recorded exactly for known users that are not revoked |
| WebAuthRecords.RevocationClears | memory/src/web_auth.rs:875-936 | a revocation clears as many sessions as the user has live tokens, a restoration none |
| WebAuthRecords.CodeResetClears | memory/src/web_auth.rs:938-988 | so does a code reset |
| WebAuthRecords.TypedCodeMeaning | memory/src/web_auth.rs:1418-1425 | white space anywhere in a typed code does not matter, and the rest is taken in upper case |
| Quota.ConversationQuotaStorage.TryReserve | memory/src/quota.rs:129-198 | bypass, rejection or one more reservation in the record of the key, and nothing else |
| Quota.ConversationQuotaStorage.FinishReservation | memory/src/quota.rs:200-230 | one reservation less, and one success more when committed; nothing without a record |
| Quota.ConversationQuotaStorage.SnapshotForDate | memory/src/quota.rs:232-263 | the date and the counters of the record of the key, with a limit of 0, or none |
| Quota.DecideWithinLimit | memory/src/quota.rs:152-195 | a rejection means that the limit is reached, a write adds one reservation and stays within the limit |
| QuotaProtocol.MutualExclusion | memory/src/quota.rs:75-85 | two threads are never both between lock and unlock of one key |
| QuotaProtocol.NextKeepsInv | memory/src/quota.rs:129-230 | every step of every thread keeps the protocol invariant |
| QuotaProtocol.QuotaSafety | memory/src/quota.rs:129-230 | in every run, at every moment, each file shows exactly the commits so far and the reservations outstanding, and their sum is within the cap |
| QuotaProtocol.DecisionsAreExact | memory/src/quota.rs:152-230 | a reservation is refused exactly when commits and outstanding reservations reach its limit; the 32-bit sum never overflows and no saturating update saturates |
| SessionModel.TextRoundTrip | memory/src/session.rs:451-510 | the text of a converted message is the trimmed content, even behind tool-call parts, for every role but tool |
| SessionModel.AddThenRemove | memory/src/session.rs:1023-1082 | adding a message and removing it again with the same role and content succeeds and restores the list |
| SessionModel.ToolMessageTakenBackIff | memory/src/session.rs:1055-1082 | for the role tool, removing again succeeds, and then restores the list, exactly when the content is blank, no JSON, or JSON whose text is the content |
| SessionModel.ToolMessageMayStay | memory/src/session.rs:794-811 | so a JSON string, which loses its quotes, stays |
| SessionModel.BatchStaysTogether | memory/src/session.rs:1217-1236 | an appended batch stays one contiguous slice under all later additions |
| SessionChanges.WritesIff | memory/src/session.rs:1055-1172 | only a removal that does not match and a prompt state that is there return without writing |
| SessionChanges.LastWriteStamps | memory/src/session.rs:1023-1258 | version and update time are those of the last operation that wrote |
| SessionChanges.NoWriteNoChange | memory/src/session.rs:1023-1258 | when none wrote, the document is the old one |
| SessionChanges.IdentityKept | memory/src/session.rs:1023-1258 | id, actor, identity and creation time never change |
| SessionChanges.SummaryIsLast | memory/src/session.rs:1195-1215 | the summary is that of the last replacement with a summary |
| SessionChanges.EntryIsLast | memory/src/session.rs:1238-1258 | a metadata entry is that of the last update with its key |
| SessionChanges.FrozenIsFirst | memory/src/session.rs:264-269 | the frozen time is the first that is not blank, for ever |
| SessionChanges.MessagesAreAdded | memory/src/session.rs:1217-1236 | operations that add put their messages behind the old ones in order |
| SessionChanges.MessagesAreReplaced | memory/src/session.rs:1175-1215 | after a replacement there are the new messages and those added since |
| SessionChanges.AssistantParts | memory/src/session.rs:459-465 | an assistant message is one part for each call in order, then its trimmed text |
| SessionChanges.CallPart | memory/src/session.rs:418-449 | the part of a call has its id, function name and parsed arguments |
| SessionChanges.ToolParts | memory/src/session.rs:466-485 | a tool message is one result with call id and tool name from the metadata |
| SessionChanges.JoinedSnoc | memory/src/session.rs:491-501 | the text of a message is the non-blank texts of its parts, one per line |
| SessionChanges.ResultShown | memory/src/session.rs:794-811 | an object result is shown as the first of four fields that is a non-blank text, or else as JSON |
| SessionChanges.FirstResultShown | memory/src/session.rs:501-510 | a message without text shows its first tool result |
| SessionChanges.PlainNameIsStem | memory/src/session.rs:1435-1453 | one plain name is its own stem; "", "." and ".." are refused |
| SessionChanges.SecondNameIsRefused | memory/src/session.rs:1435-1453 | an id with a second name or a step up behind a separator is refused |
| SessionContext.SelectionIsExact | memory/src/session.rs:583-606 | a message is selected exactly when it is one of the newest limit conversation messages at or after the last boundary, in order |
| SessionContext.LastBoundary | memory/src/session.rs:763-767 | the last boundary, or none when there is none |
| SessionContext.NarrowerIsSuffix | memory/src/session.rs:769-779 | a smaller limit takes a suffix of the wider answer |
| SessionContext.BoundaryHidesHistory | memory/src/session.rs:769-779 | once a boundary is appended, earlier messages never matter again |
| SessionContext.ConversationIs | memory/src/session.rs:372-374 | without limit and boundary exactly the user, assistant and tool messages are selected |
| SessionStore.PathIsStable | memory/src/session.rs:1435-1453 | a validated stem validates to itself exactly when it has no outer white space |
| SessionStore.PathNeedNotBeStable | memory/src/session.rs:1435-1453 | ids such as "a /." have a stem that does not |
| SessionStore.StepKeepsEqual | memory/src/session.rs:993-1260 | started equal, both backends answer a call alike and index and files stay equal |
| SessionStore.CallsAgree | memory/src/session.rs:993-1260 | from equal stores every call sequence gets the same answers from both backends and leaves equal stores |
| SessionStore.BackendsAgree | memory/src/session.rs:846-878 | after startup backfill every call sequence gets the same answers from both backends and leaves the same files, index and documents to list |
| SessionStore.ListingsAgree | memory/src/session_sqlite.rs:369-396 | two listings of the same documents, newest first, show the same time at every position, so they are equal up to ties |
| SessionStore.BackendsListAlike | memory/src/session.rs:1110-1130 | after startup backfill and any call sequence, whatever listings the two backends return hold the same documents and show the same time at every position |
| SessionStore.SortIsListing | memory/src/session.rs:1365-1392 | sorting the documents of a directory, read in any order, lists each once, newest first |
| SessionStore.ListMeaning | memory/src/session.rs:1110-1130 | a listing holds every document once, newest first |
| SessionStore.SessionStorage.ListSessions | memory/src/session.rs:1110-1130 | a listing of the index, or of the files when the index is empty or not used |
| SessionStore.SessionStorage.constructor | memory/src/session.rs:1296-1363 | startup backfill gives every file that can be read an index row under its document's id, in directory order |
| SessionStore.AbsorbedIsLast | memory/src/session.rs:1296-1363 | after backfill the row of an id is the document of the last file read that carries it |
| SessionStore.SessionStorage.Load | memory/src/session.rs:993-1020 | index first, then the file with a best-effort backfill; or just the file |
| SessionStore.SessionStorage.Write | memory/src/session.rs:1260-1276 | the file first, then the index, whose failure only the Sqlite backend reports |
| SessionStore.SessionStorage.CreateSession | memory/src/session.rs:922-967 | writes the new document under the validated stem |
| SessionStore.SessionStorage.Update | memory/src/session.rs:1023-1258 | the body that the mutators share: load, change, write |
| SessionCalls.LoadAnswers | memory/src/session.rs:993-1020 | where a load finds its answer: the index row in the Sqlite backend, or else the file at the stem |
| SessionCalls.LoadKeepsFiles | memory/src/session.rs:1005-1018 | a load writes no file, and in the Sqlite backend at most the index row that it missed |
| SessionCalls.CreationAnswers | memory/src/session.rs:922-967 | when a creation succeeds, and its error otherwise |
| SessionCalls.CreatedIsLoaded | memory/src/session.rs:922-967 | after a creation of p a load of p answers the new document under id p, its file holds it, and other files, rows and loads are as before |
| SessionCalls.UpdateAnswers | memory/src/session.rs:1023-1258 | when an update succeeds, and its answer otherwise |
| SessionCalls.UpdatedIsLoaded | memory/src/session.rs:1023-1258 | after an Ok update a load answers what the change makes of the document loaded before, and file and index row hold it |
| SessionCalls.UpdateKeepsOthers | memory/src/session.rs:1260-1276 | an update, Ok or not, leaves loads of other stems as they were |
| SessionCalls.FailedUpdateIsInFile | memory/src/session.rs:1260-1276 | when the index upsert fails the file is written, and a load of an indexed id answers the old document |
| SessionCalls.JsonLoadsAreFolds | memory/src/session.rs:993-1276 | in the Json backend, after any calls from any stores, a load answers the fold of the Ok calls on its file |
| SessionCalls.SqliteLoadsAreFolds | memory/src/session.rs:993-1276 | the same in the Sqlite backend for an indexed id that is spelled alike, whichever upserts fail |
| SessionProtocol.NextKeepsInv | memory/src/session.rs:993-1276 | every step of every thread, every failure and every restart keeps the protocol invariant |
| SessionProtocol.NoLostUpdates | memory/src/session.rs:1023-1258 | at every moment a load finds the start document with exactly the calls that returned Ok applied one after another; the JSON file is that document, or it with the latest call that missed the index applied |
| SessionProtocol.LoadsSeeOkCalls | memory/src/session.rs:993-1020 | any load, locked or not, obtains what the Ok calls left |
| SessionProtocol.OkCallHeals | memory/src/session.rs:1396-1412 | the next Ok mutation makes file and index equal again |
| SessionProtocol.UnchangedCallCounts | memory/src/session.rs:1055-1172 | a mutator with nothing to change is an Ok call too |
| SessionProtocol.RestartShowsJson | memory/src/session.rs:1296-1363 | a restart that backfills the file makes the JSON version the visible one |
| SessionRaces.UntrimmedIdLosesUpdate | memory/src/session.rs:208-218 | two spellings of one id take different locks: the first call returns Ok, and what is visible is the second applied to the start document |
| SessionRaces.UntrimmedIdLosesMessages | memory/src/session.rs:1217-1236 | so a batch appended with Ok is missing, and what is visible is the result of neither order of the two calls |
| SessionRaces.UnindexedIdLosesUpdate | memory/src/session.rs:1011-1016 | with an id not indexed yet, a reader's backfill overwrites an Ok call in the index |
| SessionRaces.CreatorLosesUpdate | memory/src/session.rs:922-967 | a concurrent creation of an indexed id leaves an Ok mutation out of what is visible: the index shows the new document, the file the changed old one |
| SessionRaces.CreatorRaceIsNotSerial | memory/src/session.rs:1260-1276 | unless those two documents are equal, no sequence of calls one after another leaves such a file and index |
| SessionMirror.SqliteSessionMirror.UpsertSession | memory/src/session_sqlite.rs:163-350 | fails exactly for an unreadable file or a taken source path, leaving the tables alone; otherwise the tables show the new document |
| SessionMirror.SqliteSessionMirror.InsertMessages | memory/src/session_sqlite.rs:163-350 | exactly the messages at ordinals 0..n-1, all other rows unchanged |
| SessionMirror.SqliteSessionMirror.InsertEntries | memory/src/session_sqlite.rs:163-350 | exactly the metadata entries, all other rows unchanged |
| SessionMirror.SqliteSessionMirror.LoadSession | memory/src/session_sqlite.rs:352-367 | the stored document of the id, or none |
| SessionMirror.SqliteSessionMirror.UpsertAll | memory/src/session.rs:1296-1363 | after any sequence of upserts message, metadata and session rows match the documents that were not refused |
| SessionMirror.LastFilesAreShown | memory/src/session_sqlite.rs:163-350 | with distinct source paths nothing is refused and the tables show exactly the last file of each session |
| SessionMirror.PathsStayUnique | memory/src/session_sqlite.rs:163-350 | no two sessions ever have the same source path |
| MirrorColumns.MessageColumns | memory/src/session_sqlite.rs:306-345 | a message row has the fields of the message and nine texts of its metadata |
| MirrorColumns.OwnerColumns | memory/src/session_sqlite.rs:218-268 | the columns on actor and identity |
| MirrorColumns.MessageSummaryColumns | memory/src/session_sqlite.rs:270-274 | the columns on messages: their number, and time, role and preview of the last |
| MirrorColumns.PreviewMeaning | memory/src/session_sqlite.rs:463-479 | a preview has all characters but white space in order, single blanks inside and none outside; of more than 160 characters it shows 159 and an ellipsis |
| MirrorColumns.GapCollapses | memory/src/session_sqlite.rs:463-479 | white space between two words becomes one blank |
| SessionMirror.QueryIsFilter | memory/src/session_sqlite.rs:397-433 | querying the columns for interrupted sessions equals filtering and sorting the documents |
| SessionMirror.WindowIsTime | memory/src/session_sqlite.rs:397-433 | for rendered timestamps the string window is a window of time |
| AgentLoop.RunTools | agents/function_calling/src/lib.rs:151-367 | one tool message per call, in order, and a report of exactly the successful ones |
| AgentLoop.Run | agents/function_calling/src/lib.rs:151-367 | the context ends as start, user message, tool rounds and on success one final message; the model is called `iterations` times and never above the limit, whose error names it |
| AgentLoop.TranscriptWellFormed | agents/function_calling/src/lib.rs:151-367 | every assistant message with n tool calls is followed by exactly n tool messages with the same ids in order |
| AgentLoop.ModelSeesWellFormed | agents/function_calling/src/lib.rs:151-367 | the same holds of what the model sees at each call, and a later call only sees more |
| AgentLoop.ReportedCallsAreShown | agents/function_calling/src/lib.rs:151-367 | every reported tool execution succeeded, and its result is a tool message of the transcript |
| AgentReports.AllSuccessesReported | agents/function_calling/src/lib.rs:151-367 | every successful tool call of every reply is reported exactly once, in order, with id, name, parsed arguments and result, and nothing else is |
| AgentReports.RoundsAreShown | agents/function_calling/src/lib.rs:151-367 | the messages of each round, told from the oracles: the reply with its reasoning and calls, then a tool message for each with the result or the error |
| AgentReports.TurnEndsAsAnswered | agents/function_calling/src/lib.rs:151-367 | how a turn ends, told from the model's replies |
| CliLoop.Run | agents/gemini_cli/src/lib.rs:761-951 | at most one model call more than the limit; the context ends as start, user message, rounds and on success the final text |
| CliLoop.CallIdsDistinct | agents/codex_cli/src/lib.rs:297-490 | call ids of different iterations differ whatever the tool names are |
| CliLoop.PendingAreToolMessages | agents/codex_cli/src/lib.rs:297-490 | the pending results are exactly the tool messages that the turn added |
| CliLoop.ToolIdsDistinct | agents/gemini_cli/src/lib.rs:761-951 | n rounds add n tool messages with pairwise distinct ids |
| CliLoop.ShownTextHasNoTag | agents/gemini_cli/src/lib.rs:761-951 | no text shown next to a tool call contains an opening tag |
| CliReports.AllSuccessesReported | agents/codex_cli/src/lib.rs:297-490 | every round whose tool succeeded is reported exactly once, in order, with the parsed arguments, and nothing else is |
| CliReports.RoundsAreShown | agents/gemini_cli/src/lib.rs:761-951 | the messages of each round: the visible text if there is any, then the result or the error under the call's id |
| CliReports.TurnEndsAsAnswered | agents/gemini_cli/src/lib.rs:761-951 | how a turn ends, told from the model's answers |
| ToolCallTag.ClosesBehindOpening | agents/gemini_cli/src/lib.rs:546-579 | the slice between the tags is never out of range, since the tags cannot overlap |
| ToolCallTag.FramedCallIsParsed | agents/gemini_cli/src/lib.rs:546-579 | an object between the tags with a non-empty text as name parses to the trimmed prefix and that name, the value of "arguments" or the empty object, and the text of "reasoning" or none |
| ToolCallTag.FramedNonsenseIsText | agents/codex_cli/src/lib.rs:181-213 | what does not parse, is no object, or has no, an empty or another name than a text is no call, and the whole text stays visible |
| ToolCallTag.ParsedCallIsFramed | agents/codex_cli/src/lib.rs:181-213 | a returned call always comes from such a frame and the visible text shows no opening tag; without a call the whole text is visible |
| PromptBudget.BoundaryBelow | agents/gemini_cli/src/lib.rs:344-354 | between the longest fitting prefix and the limit there are at most three bytes, none of them a character boundary |
| PromptBudget.TruncateToBytes | agents/gemini_cli/src/lib.rs:344-354 | the loop keeps the longest prefix of whole characters that fits and steps back at most three bytes |
| PromptBudget.SelectHistory | agents/gemini_cli/src/lib.rs:456-539 | the history shown is the longest run of newest non-empty messages that fits |
| PromptBudget.BuildPrompt | agents/gemini_cli/src/lib.rs:456-539 | the prompt is system part, tools part, history header, that run and the tail, and at most 150000 bytes unless the fixed parts alone are longer |
| PromptText.HistoryLines | agents/gemini_cli/src/lib.rs:456-539 | the lines of the history are speaker and content of exactly the messages with content, in order |
| PromptText.TruncatedMeaning | agents/gemini_cli/src/lib.rs:344-354 | a text that is too long is cut behind the longest prefix that fits, and marked |
| PromptText.ResultsShown | agents/gemini_cli/src/lib.rs:456-539 | each tool result is a line with the tool's name and its text, cut to 6000 bytes |
| PromptText.FixedParts | agents/gemini_cli/src/lib.rs:456-539 | what stands in front of the history and behind it |
| Utf8.DecodeIff | scripts/migrate_sessions.py:50-50 | strict decoding succeeds with a text on exactly the bytes of that text |
| ActorKey.EncodeComponent | scripts/migrate_sessions.py:26-33 | the loop writes each byte kept or escaped, in Python's and in Rust's choice of kept bytes |
| ActorKey.DecodeComponent | memory/src/portfolio.rs:132-150 | the Rust loop over bytes computes the decoded text |
| ActorKey.DecodeComponentPython | scripts/migrate_sessions.py:36-50 | the Python loop computes the decoded text, or the decoding error, with all that Python's int accepts after an underscore |
| ActorKey.DecodersReadAlike | bins/hone-cli/src/cloud.rs:1110-1128 | both decoders read the same bytes from every component that either encoder wrote |
| ActorKey.PythonRestoresIff | scripts/migrate_sessions.py:26-50 | Python restores a text exactly when no byte of it is a kept Latin-1 character |
| ActorKey.PythonRestoresRust | crates/hone-core/src/actor.rs:227-237 | Python restores every component that Rust wrote |
| ActorKey.RustRestoresIff | memory/src/portfolio.rs:132-150 | Rust restores exactly the ASCII texts, whoever wrote them |
| ActorKey.AsciiRoundTrip | scripts/migrate_sessions.py:26-50 | on ASCII texts both encoders agree and both decoders undo them |
| ActorKey.ComponentInjective | crates/hone-core/src/actor.rs:227-237 | different texts have different components |
| ActorKey.EscapedIsClean | scripts/migrate_sessions.py:26-33 | a component contains no "__" and no colon and does not end in "_" |
| ActorKey.SplitUndoesJoin | scripts/migrate_sessions.py:79-81 | a joined key splits into exactly its three parts under Python's split and Rust's splitn(3) |
| ActorKey.KeysDistinct | crates/hone-core/src/actor.rs:176-184 | two actors share a key exactly when channel, scope or "direct", and user agree, over all texts |
| KeyText.PlainTextsKept | crates/hone-core/src/actor.rs:227-237 | a text is its own component exactly when it consists of ASCII letters, digits and dashes |
| KeyText.EscapedChar | scripts/migrate_sessions.py:26-33 | any other ASCII character is an underscore and two lower-case hexadecimal digits |
| KeyReading.KeyReadBackIff | memory/src/portfolio.rs:109-129 | a proper actor is read back from its key, written in either language, exactly when its parts are ASCII and its scope does not spell "direct" |
| KeyReading.TrimmedReadingIff | memory/src/portfolio.rs:132-150 | reading and trimming restores a trimmed text exactly when it is ASCII |
| KeyReading.ScopedKeyReadBackIff | bins/hone-cli/src/cloud.rs:1099-1108 | scope and user are read back from the two-part key under the same condition |
| ActorKey.QuotaLockKeysDistinct | memory/src/quota.rs:329-331 | a quota lock key determines the storage key and the date |
| PyJson.NormalizeChannelSettles | scripts/migrate_sessions.py:53-57 | a normalized channel is not blank, not legacy, and normalizes to itself |
| PyJson.NormalizeChannelMeaning | scripts/migrate_sessions.py:53-57 | a channel is stripped, and a blank or test channel is the web |
| PyJson.ReadActorIff | scripts/migrate_sessions.py:100-107 | an actor is read exactly from an object whose user is not blank, with the channel in normal form and a scope that is a text, not blank and not "direct" |
| PyJson.ReadActorSettles | scripts/migrate_sessions.py:100-107 | the actor read from an actor object has nothing left to normalize |
| PyJson.ReadActorOfJson | scripts/migrate_cron_jobs.py:46-55 | reading the object written for a settled actor gives that actor |
| CronMigration.InferredIsSettled | scripts/migrate_cron_jobs.py:45-82 | an inferred actor has nothing left to normalize |
| CronMigration.InferredIff | scripts/migrate_cron_jobs.py:57-82 | without a readable actor object an actor is inferred exactly when there is a user and the job objects agree on a channel; its scope is that of the first job with one that is not blank, by position, unless it is "direct" |
| CronMigration.NormalizeChannels | scripts/migrate_cron_jobs.py:104-113 | the loop normalizes exactly the channels of job objects and reports a change exactly when there is one |
| CronMigration.MigratePayload | scripts/migrate_cron_jobs.py:85-115 | the migrated payload; the report names exactly the parts that differ, or asks for manual work when no actor is inferred |
| CronMigration.MigrationWrites | scripts/migrate_cron_jobs.py:94-113 | the actor object, the user and the channel of each job object in normal form |
| CronMigration.OnePassIsFixpoint | scripts/migrate_cron_jobs.py:85-115 | one pass reaches the fixpoint for every payload, and the same actor is inferred again |
| CronMigration.MigrationKeepsTheRest | scripts/migrate_cron_jobs.py:94-113 | only actor, user and the channels of job objects change |
| CronMigration.ValidatePayload | scripts/migrate_cron_jobs.py:118-153 | the loop reports the findings, in order |
| CronMigration.MigratedPassesIff | scripts/migrate_cron_jobs.py:118-153 | the migrated payload has no findings at its storage path exactly when an actor was inferred and the jobs are a list of objects |
| CronMigration.ValidIff | scripts/migrate_cron_jobs.py:118-153 | exactly which payloads pass validation in a file of a given name |
| SessionMigration.ExtractSummary | scripts/migrate_sessions.py:146-195 | the loop finds the first summary message and removes just that; with the clearing after it, the new summary state |
| SessionMigration.NormalizeActor | scripts/migrate_sessions.py:93-128 | actor and id as read or decoded, the decoding error, or no actor and no change |
| SessionMigration.MigrateSession | scripts/migrate_sessions.py:198-242 | one pass and its whole report; a pass that reports nothing has changed nothing |
| SessionOutcome.OthersUntouched | scripts/migrate_sessions.py:198-242 | a pass changes no other field of the file |
| SessionOutcome.ShapeWritten | scripts/migrate_sessions.py:131-143 | version, metadata and runtime after a pass: the frozen time is the first non-blank text of its old value, the creation and the update time, or else the clock |
| SessionOutcome.SummaryIsWritten | scripts/migrate_sessions.py:146-195 | summary and messages after a pass, for each form of the old summary |
| SessionOutcome.NamesWritten | scripts/migrate_sessions.py:93-128 | actor and id after a pass: read, decoded, kept, or an exception |
| SessionOutcome.ReportMeaning | scripts/migrate_sessions.py:202-227 | the report names exactly the parts that are not in shape |
| SessionOutcome.SummaryIsReported | scripts/migrate_sessions.py:229-234 | when a summary is reported as normalized or cleared |
| SessionOutcome.NamesAreReported | scripts/migrate_sessions.py:236-240 | when the names are reported as changed, and when manual work is asked for |
| SessionMigration.StageFalls | scripts/migrate_sessions.py:146-195 | each pass takes exactly one stage off the summary, and at stage 0 leaves it alone |
| SessionMigration.StageBounds | scripts/migrate_sessions.py:146-195 | there are at most four stages, and exactly which sessions have three and four |
| SessionFixpoint.SessionIdReadBack | scripts/migrate_sessions.py:71-90 | a session id reads back as its actor, an empty or default scope as none, and then stays |
| SessionFixpoint.FixpointIff | scripts/migrate_sessions.py:198-242 | after two or more passes (one with a readable actor object) another pass succeeds and changes nothing exactly when the first was safe and the passes cover the summary's stages |
| SessionFixpoint.FixpointReachedIff | scripts/migrate_sessions.py:198-242 | some number of passes reaches a fixpoint exactly when the first is safe: an actor that it decodes has a user that is not blank or parts that can be read back |
| UnreadableText.StaysUnreadable | scripts/migrate_sessions.py:26-50 | a text that Python does not restore, if it decodes at all, decodes to another such text |
| UnreadableText.BlankUnreadableFails | scripts/migrate_sessions.py:36-50 | a blank text that Python does not restore does not decode |
| UnreadableText.DecodedIsStripped | scripts/migrate_sessions.py:36-57 | the decoding of a stripped text is stripped, so normalizing a decoded channel does not hide the change |
| SessionFixpoint.PassesThatSuffice | scripts/migrate_sessions.py:198-242 | after four passes, or three when summary messages have text or falsy timestamps, the data are final exactly when the first pass was safe |
| SessionFixpoint.BoundsAreReached | scripts/migrate_sessions.py:160-165 | sessions that need three and four passes |
| SessionFixpoint.AsciiIsReadable | scripts/migrate_sessions.py:75-90 | ASCII actors meet the hypothesis on decoded actors |
| UnsafeSession.SecondPassFails | scripts/migrate_sessions.py:93-128 | a session with nothing but one id: its first pass succeeds, and its second fails on the id that the first wrote |
| UnsafeSession.RustKeyDecodes | scripts/migrate_sessions.py:75-90 | Python decodes every key that Rust wrote, up to the channel's normal form and a default scope |
| SessionValidation.ReadActorOfTexts | scripts/migrate_sessions.py:278-306 | channel and user that are texts are read alike by every rendering, so validation needs none |
| SessionValidation.FixpointIsSettled | scripts/migrate_sessions.py:198-242 | data that a pass leaves alone are in shape, with a settled summary and settled names |
| SessionValidation.FixpointIsValidIff | scripts/migrate_sessions.py:245-310 | such data are valid under their own id exactly when messages are a list, the summary's time is a text, and an actor object can be read |
| SessionValidation.ValidIff | scripts/migrate_sessions.py:245-310 | exactly which sessions pass validation in a file with a given stem |
| AuditQuery.TermAdded | memory/src/llm_audit.rs:311-363 | a term with the next placeholder and its parameter adds exactly one conjunct |
| AuditQuery.BuildWhere | memory/src/llm_audit.rs:304-363 | for every subset of filters page and count query have the same clauses, placeholder i is bound to parameter i, and the clauses hold exactly of the records that match all filters |
| AuditQuery.ListAuditRecords | memory/src/llm_audit.rs:365-413 | the count is the number of matching records; the page is the window at the offset of the matching records in the given order, newest first, none twice, at most 100 |
| AuditQuery.OffsetExactIff | memory/src/llm_audit.rs:367-373 | the page offset is the one asked for exactly when it fits in 32 bits |
| AuditQuery.OffsetCanWrap | memory/src/llm_audit.rs:367-373 | it can wrap |
| AuditPages.PageAsked | memory/src/llm_audit.rs:367-368 | the first page and 50 records by default; sizes are cut to 1 to 100 |
| AuditPages.PagesAreAnswer | memory/src/llm_audit.rs:365-413 | while offsets fit in 32 bits, the first n pages are the first n page sizes of records of the answer, none twice and none missing |
| AuditPages.MatchMeaning | memory/src/llm_audit.rs:304-363 | a record matches when it has all values asked for and lies between the dates, inclusive |
| AuditPages.DatesAreInclusive | memory/src/llm_audit.rs:340-363 | on rendered times that is a closed window of time |
| AuditPages.PageFalls | memory/src/llm_audit.rs:375-413 | the order of a page: times fall, nothing twice |
| AuditStore.LlmAuditStorage.Record | memory/src/llm_audit.rs:539-600 | an insert, or an error for a known id; and after every hundredth write a prune |
| AuditStore.LlmAuditStorage.PruneExpired | memory/src/llm_audit.rs:232-244 | exactly the rows from before the cutoff go |
| AuditStore.PruneDecidesTime | memory/src/llm_audit.rs:232-244 | on rendered times a prune keeps exactly what was created at the cutoff or later |
| AuditStore.RowsAreHistory | memory/src/llm_audit.rs:257-263 | after any run a row is there exactly when it was there at the start or accepted, and survived every prune since |
| AuditStore.FewStaleRows | memory/src/llm_audit.rs:257-263 | at most 99 rows are from before the last prune's cutoff |
| AuditStore.EveryHundredthPrunes | memory/src/llm_audit.rs:257-263 | exactly every hundredth accepted write prunes |
| AuditStore.ExportRecordsPage | memory/src/llm_audit.rs:496-524 | a page is a window of all records in (created_at, id) order |
| AuditStore.ImportLlmAudit | bins/hone-cli/src/cloud.rs:1154-1169 | the loop terminates, hands on all records in order, and in no more batches than needed |
| AuditStore.ExportVisitsEachOnce | memory/src/llm_audit.rs:496-524 | every record exactly once, strictly in (created_at, id) order |
| AuditStore.ExportIsByTime | memory/src/llm_audit.rs:496-524 | that order is by creation time, and by id where times are equal |
| Timestamps.StampOrder | crates/hone-core/src/time.rs:5-15 | for all instants of the years 0000 to 9999 the string order of the rendered times is the order of time, equality included |
| Timestamps.RenderDecidesInstants | crates/hone-core/src/time.rs:13-15 | the same on civil times, whatever the number of fraction digits |
| Timestamps.CivilOf | crates/hone-core/src/time.rs:9-11 | every instant of those years has a valid civil time at +08:00 |
| TimestampFormat.DaysOfYears | crates/hone-core/src/time.rs:9-11 | the number of days before a year, in closed form |
| TimestampFormat.EpochText | crates/hone-core/src/time.rs:9-15 | the text of midnight UTC of 1 January 1970 |

## Left out

- SessionProtocol.NoLostUpdates: assumes ids that are their own file stems, no concurrent `create_session` of the watched id, and an indexed id in the Sqlite backend; `SessionRaces` has, for each of the three, a run that loses an update without it.
- SessionProtocol.NextKeepsInv: a file write is one step, so a crash in the middle of `std::fs::write` is not modelled.
- QuotaProtocol.QuotaSafety: assumes one process, callers that use limits up to one cap and settle each reservation once, and writes that happen as a whole or not at all.
- WebAuthHistory.SessionAuthenticates: assumes a clock that never goes back; `WebAuthHistory.CheckIsHistory` is the statement for arbitrary clocks.
- PromptBudget.BuildPrompt: takes the text that explains the tool protocol, the printed tool schema and each role in upper case as arguments.
- ActorKey.DecodeComponentPython: decimal digits beyond ASCII are those of Unicode 14.0.
- SessionFixpoint.FixpointIff: assumes file stems and clock texts that are not blank.
- SessionStore.BackendsAgree: assumes that file names match ids, that every file can be read and upserted at startup, and that the stems of new ids have no outer white space.
- AuditQuery.ListAuditRecords: the order of rows with equal `created_at` is an argument, since the code does not decide it; `AuditPages.PagesAreAnswer` is about pages in one such order.
- AuditStore.RowsAreHistory: writes are sequential; the write counter does not wrap; a failing prune is not modelled.
- SessionCalls.UpdatedIsLoaded: assumes, in the Sqlite backend, that stored documents carry the names they are stored under.
- SessionCalls.SqliteLoadsAreFolds: assumes that the id is its own stem, is indexed, is the id of no other document, and is spelled alike by all calls.
- WebAuthDraws.ReplacedCodeIsRefused: assumes that no later call draws the replaced code, which the code does not rule out; so does `ReplacedKeyFindsNobody` for keys.
- SessionMirror.QueryIsFilter: ties in `updated_at` may come in any order.
- Cloud Postgres and object-store backends: their store functions are not part of this model.
- The SQL engine, serde, the file system, Argon2 and SHA-256: tables are maps, queries are written out, stored sessions are read back as they were written, hashes are injective.
- Random generation: draws are arguments, so only the uniqueness checks and retry counts matter.
- Lookups by phone that may match several users, and the read-only listings of users: which row comes back is not decided by the code.
- The columns of an audit row that no filter reads are one text, and the round trip of their JSON is not modelled.
- Audit logging, tool observers, streaming events, token usage and debug output of the agents.
- Command-line handling, file renaming and reporting of the migration scripts; dictionary order, which Python's `==` ignores.
- Unchecked casts of page limits and offsets in the export, which start at 500 and never exceed the number of rows.
