# Verified models of the Urdu Bolo backend

Models of the parts of the backend whose correctness is not visible in any one
function, with machine-checked proofs. Run `dafny verify dfyconfig.toml` (Dafny 4.11).

A component is modelled twice where the original changes state. A state value and a
`Step` function say what every call does, and the theorems are about runs of steps. A
class with the original's fields has methods in the original's statement order, each
ensured to do exactly its step, so the theorems are theorems about the methods; content
calls that are one statement are steps only. Where interleaving is modelled (playback
capabilities, starts, resumes, heartbeats, refreshes, upload calls) a step is one access to
the database, the cache, the store or a file, with what the call does around it, and the
methods are the calls run without interruption. All theorems over runs hold for every
sequence of steps.

| Files | What they model |
|---|---|
| `SqlScanner`, `SqlDump`, `SqlRoundTrip`, `SqlDumpTheorem` | the reader of legacy SQL dumps: its index loops against one quote automaton, and a printer that it undoes |
| `Playlist`, `HlsGateway` | the rewriting of HLS playlists into gateway paths, and the registry that gives the paths their meaning |
| `PlaybackProtocol`, `PlaybackCapabilities` | playback capabilities over the database row and the Redis entry, under every interleaving |
| `PlaybackSessions`, `PlaybackService` | the concurrency limit, watch time and viewing history |
| `RefreshSessions`, `AuthService` | refresh-token rotation, revocation and the cleanup job |
| `Lockout` | the login lockout |
| `Uploads`, `UploadOverlaps`, `UploadsService` | chunked uploads to a multipart store or a staging directory, and what overlapping calls make of them |
| `ContentTree`, `ContentServices` | soft deletion, restoring, moving and publishing of dramas, seasons, episodes and media, and the four visibility conditions |
| `Migration`, `LegacyMigration` | the legacy migration, its ledger and its rollback |
| `RateLimit` | the fixed-window limiter |
| `Subscriptions` | stacked subscription windows |
| `SupportChat` | support conversations with cached unread counters |
| `Text`, `Sets` | strings, trimming, joining, optional fields; sizes of sets |

Ten promises turned out not to hold everywhere; each is stated with the exact
condition under which it does.

- A dump that was printed reads back exactly unless a table has a column named `__proto__`,
  save one repeated after a null (`SqlDumpTheorem.ParseUndoesPrint`; an input in
  `SqlDumpTheorem.ProtoIsLost`).
- An upload's file is kept once, and is the last-received bytes, unless it is staged and a
  chunk call, a cancellation or a second completion overlaps its completion, or the
  completion is repeated after it broke off with its file forwarded
  (`UploadOverlaps.CompletionsMustBeAlone`; runs in `UploadOverlaps.OverlapKeepsTwo`, `RepeatIsKept`,
  `ResentIsLost`, `CancelledIsKept` and `TornFile`).
- A completed upload is kept somewhere unless it is staged and no place to forward to is
  configured (`Uploads.CompletedIsKept`; an input in `Uploads.NowhereToKeep`).
- A multipart upload with all its bytes completes, while the store works, unless two of its
  parts before the last differ in size (`Uploads.CompletionIsExact`; inputs in
  `Uploads.UnevenPartsAreRefused`).
- No user runs more playback sessions than the limit, nor two for one episode and device,
  unless a start or resume overlaps another of the same user
  (`PlaybackSessions.LimitNeedsTurns`; runs in `PlaybackSessions.TwoPassTheCount` and `TwinsBothRun`).
- Watched time follows the position of smooth playback unless heartbeats overlap
  (`PlaybackSessions.SmoothWatch`; runs in `PlaybackSessions.OverlapCountsTwice`).
- Deleting dramas in bulk equals deleting them one by one, except that the bulk call also
  deletes live seasons under dramas that are already deleted (`ContentTree.BulkDeleteIsEach`;
  an input in `ContentTree.BulkDeleteReachesFurther`).
- A rewritten playlist means what the original means, except that a blank line or a tag
  that ends in a carriage return of its own, and is not the last line, loses it
  (`HlsGateway.PlaylistReadsBack`; an input in `HlsGateway.StrayReturnIsLost`).
- A rollback restores the database exactly unless some row is to be created and the run id
  is empty, or two rows of one table have one source key, or the run id, a table name or a
  key is too long for its ledger column or holds a NUL. With an empty id the rollback
  refuses to start; otherwise the run stops after creating a row it could not record
  (`Migration.RollbackInvertsMigration`; inputs in `Migration.OneIdTwice` and
  `Migration.UnusableRunId`). docs/MIGRATION_GUIDE.md has the operator judge a run by its dry
  run; for dramas the dry run's count can be too high (`Migration.DramasDryRunMiscounts`).
- Extending a subscription keeps a user's windows apart unless another active one overlaps
  the range of the extended one (`Subscriptions.ExtendKeepsDisjoint`; an input in
  `Subscriptions.ArbitraryExtendOverlaps`).

One difference between code and documentation: docs/SECURITY_ARCHITECTURE.md says that
refresh-token reuse revokes the token family; the code revokes all of the user's sessions,
and so does the model.

## Model

| member | source | states |
|---|---|---|
| SqlScanner.Restart | scripts/legacy-migration/import-sql.ts:41-64 | restarting the quote automaton on a slice that begins outside a literal agrees with the run over the whole text |
| SqlScanner.SyncStep | scripts/legacy-migration/import-sql.ts:45-47 | one turn of the loops' quote handling, index skips included, keeps the `quoted` flag in step with the automaton |
| SqlScanner.StatementEnd | scripts/legacy-migration/import-sql.ts:41-50 | the least `;` outside every literal at or after the start, or the length of the text |
| SqlScanner.SplitFields | scripts/legacy-migration/import-sql.ts:52-64 | the trimmed pieces between the commas outside literals |
| SqlScanner.PiecesAreTheBareCuts | scripts/legacy-migration/import-sql.ts:52-64 | the untrimmed pieces joined by commas are the input, and the joining commas are exactly those outside literals |
| SqlScanner.Tuples | scripts/legacy-migration/import-sql.ts:82-95 | the fields of every top-level parenthesised group, by a one-pass reader on the same automaton |
| SqlDump.ParseQuoted | scripts/legacy-migration/import-sql.ts:69-75 | the index loop with its skips undoes escapes as a left-to-right reading does |
| SqlDump.ParseValue | scripts/legacy-migration/import-sql.ts:66-80 | null, string, number or bare text, in the order of the tests |
| SqlDump.ReadRows | scripts/legacy-migration/import-sql.ts:105-105 | one row for each tuple, missing fields null, repeated columns keeping the last; an assignment to `__proto__` sets no field unless a null was assigned to it before |
| SqlDump.ParseDump | scripts/legacy-migration/import-sql.ts:97-110 | the restarting header search reads the same tables as reading statement after statement |
| SqlRoundTrip.LiteralReadsBack | scripts/legacy-migration/import-sql.ts:66-80 | every written form of a null, safe integer or string reads back as that value |
| SqlRoundTrip.RowReadsBack | scripts/legacy-migration/import-sql.ts:52-64 | a written row splits into exactly its written fields |
| SqlRoundTrip.TuplesReadBack | scripts/legacy-migration/import-sql.ts:41-95 | written rows followed by `;` and any text end where they should and give their fields back |
| SqlDumpTheorem.HeaderMatches | scripts/legacy-migration/import-sql.ts:99-103 | a written header is matched whole and yields its table and column text |
| SqlDumpTheorem.NamesReadBack | scripts/legacy-migration/import-sql.ts:103-103 | a written column list splits and strips back to the column names |
| SqlDumpTheorem.StatementReadsBack | scripts/legacy-migration/import-sql.ts:101-108 | a written statement is found after any gap, adds its rows to its table, and leaves the index just after it |
| SqlDumpTheorem.RowFromDistinct | scripts/legacy-migration/import-sql.ts:105-105 | with distinct columns a row maps each column but `__proto__` to the field written for it and nothing else |
| SqlDumpTheorem.DumpRoundTrip | scripts/legacy-migration/import-sql.ts:97-110 | for all statements, in any written form and with arbitrary text between them, parsing gives each table its rows in order and no other table |
| SqlDumpTheorem.DumpedMeans | scripts/legacy-migration/import-sql.ts:69-75 | escaping gives a valid literal with the right meaning for every string and safe integer |
| SqlDumpTheorem.ParseUndoesPrint | scripts/legacy-migration/import-sql.ts:41-110 | parsing undoes printing for whole dumps of nulls, safe integers and arbitrary strings, across repeated statements; a table's rows are exactly those printed if and only if none has a column `__proto__`, save one repeated after a null |
| SqlDumpTheorem.ProtoIsLost | scripts/legacy-migration/import-sql.ts:105-105 | a row of an id and a column `__proto__` reads back as the id alone |
| Playlist.LinesOfJoin | src/media-gateway/media-gateway.service.ts:42-49 | splitting the joined output gives the written lines back, up to a carriage return that has come to stand before a line feed |
| Playlist.TokensShow | src/media-gateway/media-gateway.service.ts:58-63 | the leftmost non-overlapping attribute matches and the text between them make up the line |
| Playlist.TokensKept | src/media-gateway/media-gateway.service.ts:58-63 | replacing attribute values by others without quotes leaves the same matches in the same places |
| HlsGateway.TokensByMatch | src/media-gateway/media-gateway.service.ts:63-63 | the match list of the cursor loop breaks the line as reading it from the left does |
| HlsGateway.MediaGateway.constructor | src/media-gateway/media-gateway.service.ts:62-62 | a fresh registry for a source of ids that never repeats |
| HlsGateway.MediaGateway.ResourceUrl | src/media-gateway/media-gateway.service.ts:62-62 | registers the reference under a fresh id, disturbs no earlier entry, and returns the path of that id |
| HlsGateway.MediaGateway.ReplaceUriAttributes | src/media-gateway/media-gateway.service.ts:58-63 | the written line is the original with each attribute value replaced by a path registered for its resolution, text between matches copied in order; it fails only where a reference does not resolve |
| HlsGateway.MediaGateway.RewriteLine | src/media-gateway/media-gateway.service.ts:44-48 | a line is written by its kind, no earlier registration disturbed, and it is not written if and only if one of its references does not resolve |
| HlsGateway.MediaGateway.RewriteHls | src/media-gateway/media-gateway.service.ts:41-50 | every line is rewritten by its kind, earlier registrations survive later ones, and the rewrite fails if and only if some reference does not resolve |
| HlsGateway.TagReadsBack | src/media-gateway/media-gateway.service.ts:46-46 | a rewritten tag line read through the registry is the original with its attribute references resolved |
| HlsGateway.ReferenceReadsBack | src/media-gateway/media-gateway.service.ts:28-47 | a rewritten reference line read through the registry is the resolved reference |
| HlsGateway.LineReadsBack | src/media-gateway/media-gateway.service.ts:28-50 | until the capability expires every rewritten line means the original with its references resolved |
| HlsGateway.CrUnder | src/media-gateway/media-gateway.service.ts:42-49 | a carriage return at the end of a line belongs to the meaning of a blank line or a tag, and not to that of a reference |
| HlsGateway.PlaylistReadsBack | src/media-gateway/media-gateway.service.ts:28-50 | for every playlist the output has as many lines as the input and every line reads back until the capability expires; it means exactly its original if and only if it is not a blank line or a tag, before the last line, that ends in a carriage return of its own |
| HlsGateway.StrayReturnIsLost | src/media-gateway/media-gateway.service.ts:42-49 | a tag followed by two carriage returns and a line feed reads back without one of them |
| PlaybackProtocol.NextLowers | src/playback/playback.service.ts:82-129 | every step but a start, a signing or a storing leaves each row at most as alive and with the same capability |
| PlaybackProtocol.StepKeeps | src/playback/playback.service.ts:82-129 | every micro-step keeps one row per capability and unused fresh ones, and makes no capability current that some row already held |
| PlaybackProtocol.DeadForever | src/playback/playback.service.ts:82-129 | a superseded, expired, closed or revoked capability stays so under every interleaving |
| PlaybackProtocol.DecideAcceptsOnlyCurrent | src/playback/playback.service.ts:91-92 | the deciding read accepts exactly the current capability of an active unexpired session from its own trusted device |
| PlaybackProtocol.DeadIsNeverAccepted | src/playback/playback.service.ts:82-98 | a dead capability is refused by every later deciding read, whatever the cache holds and whichever requests were under way |
| PlaybackProtocol.ExpiryKills | src/playback/playback.service.ts:91-91 | reaching the row's expiry kills its capability |
| PlaybackProtocol.RotationKills | src/playback/playback.service.ts:107-116 | storing a successor kills the capability it supersedes |
| PlaybackProtocol.StopKills | src/playback/playback.service.ts:58-69 | closing a session kills its capability |
| PlaybackProtocol.RevokeDeviceKills | src/auth/auth.service.ts:135-164 | revoking a device kills its sessions' capabilities for good, even if the device is registered again |
| PlaybackProtocol.RotationAlone | src/playback/playback.service.ts:107-116 | an uninterrupted rotation replaces the capability in both stores and nothing else |
| PlaybackProtocol.ValidationAlone | src/playback/playback.service.ts:82-98 | an uninterrupted validation refuses, sets out to revoke, or succeeds and re-caches, by the order of the checks |
| PlaybackProtocol.StopAlone | src/playback/playback.service.ts:58-69 | an uninterrupted stop closes an active row and drops its cache entry |
| PlaybackProtocol.RevocationAlone | src/playback/playback.service.ts:128-128 | an uninterrupted revocation marks the row expired or revoked and drops its cache entry |
| PlaybackProtocol.ExpiryAlone | src/playback/playback.service.ts:127-128 | an uninterrupted expiry marks the row expired and drops its cache entry |
| PlaybackProtocol.StaleEntryReappears | src/playback/playback.service.ts:93-95 | a validation accepted before a rotation puts the superseded capability back into the cache after it, so the cache alone would not be safe |
| PlaybackCapabilities.CapabilityStore.Cache | src/playback/playback-token.service.ts:54-54 | the entry of that capability is set and no other changed |
| PlaybackCapabilities.CapabilityStore.Revoke | src/playback/playback-token.service.ts:56-56 | the entry of that capability is gone and no other changed |
| PlaybackCapabilities.PlaybackCapabilities.ValidateCapability | src/playback/playback.service.ts:82-98 | the call is its micro-steps run together, with the verdict of the order of checks |
| PlaybackCapabilities.PlaybackCapabilities.Rotate | src/playback/playback.service.ts:107-116 | the call is its micro-steps run together |
| PlaybackCapabilities.PlaybackCapabilities.RevokeBySession | src/playback/playback.service.ts:128-128 | the call is its micro-steps run together, and does nothing without a row |
| PlaybackCapabilities.PlaybackCapabilities.Expire | src/playback/playback.service.ts:127-128 | the call is its micro-steps run together |
| PlaybackCapabilities.PlaybackCapabilities.Stop | src/playback/playback.service.ts:58-69 | the call after its validation is its micro-steps run together |
| PlaybackCapabilities.PlaybackCapabilities.RevokeDevice | src/auth/auth.service.ts:155-164 | device and sessions are revoked in one step, or nothing if the device was not active |
| PlaybackSessions.ExistingMeans | src/playback/playback.service.ts:23-23 | the search finds a running session of that user, episode and device exactly when there is one |
| PlaybackSessions.AllCounted | src/playback/playback-policy.service.ts:48-48 | when no session of the pair runs, the count that leaves the pair out is the count of all running sessions |
| PlaybackSessions.CreateKeeps | src/playback/playback.service.ts:21-34 | a session created within the limit keeps the user within it and keeps one session for each pair |
| PlaybackSessions.OthersShrink | src/playback/playback.service.ts:21-76 | no step but the write that ends a start or resume adds to what runs |
| PlaybackSessions.StepKeeps | src/playback/playback.service.ts:21-129 | every step of starts, resumes and other calls keeps every user within the limit, one running session for each episode and device, and every call under way ready to write, as long as no start or resume overlaps another of its user |
| PlaybackSessions.LimitHolds | src/playback/playback.service.ts:21-44 | in every state reached without such overlaps no user runs more sessions than the limit nor two for one episode and device |
| PlaybackSessions.LimitNeedsTurns | src/playback/playback.service.ts:21-44 | every run keeps limit and pairs if and only if no start or resume is let overlap another of its user, or the limit is zero |
| PlaybackSessions.TwoPassTheCount | src/playback/playback-policy.service.ts:48-49 | one below the limit, two overlapping starts of other episodes exceed it |
| PlaybackSessions.TwinsBothRun | src/playback/playback.service.ts:22-34 | two overlapping starts of one episode on one device leave two running sessions |
| PlaybackSessions.StartCallCases | src/playback/playback.service.ts:21-35 | a start with nothing in between refuses, rotates the newest session of the pair or creates one |
| PlaybackSessions.WatchStep | src/playback/playback.service.ts:46-57 | only a session's own heartbeats move its position and watched time, by at most a minute from the position that was read |
| PlaybackSessions.WatchedWithin | src/playback/playback.service.ts:48-50 | over any run, overlapping heartbeats included, watched time never falls and grows by at most 60 seconds for each heartbeat |
| PlaybackSessions.SmoothWatch | src/playback/playback.service.ts:46-56 | if positions rise by at most 60 each, watched time is at least the final position, and equals it if and only if no heartbeat was written over a position it had not read, save one that moves on a full minute |
| PlaybackSessions.OverlapCountsTwice | src/playback/playback.service.ts:46-50 | two heartbeats that read one position and write one position count the stretch twice |
| PlaybackSessions.StepConserves | src/playback/playback.service.ts:28-57 | each call changes the history total and the sessions' sum alike, except for heartbeats of a session the history no longer points at |
| PlaybackSessions.WatchTimeConserved | src/playback/playback.service.ts:28-57 | over any run the history total plus the stray heartbeats is the sum over the user's sessions of the episode; so it never exceeds the sum, and equals it if and only if no stray heartbeat added anything |
| PlaybackService.PlaybackService.CountSessions | src/playback/playback-policy.service.ts:48-48 | the number of the user's running sessions of other episodes or devices |
| PlaybackService.PlaybackService.FindExisting | src/playback/playback.service.ts:23-23 | the newest running session of the pair |
| PlaybackService.PlaybackService.Authorize | src/playback/playback-policy.service.ts:28-50 | the first failing check in order, or permission; an existing session skips the count |
| PlaybackService.PlaybackService.Start | src/playback/playback.service.ts:21-35 | its steps run together: refuse, rotate the pair's session, or create one and point the history at it |
| PlaybackService.PlaybackService.Resume | src/playback/playback.service.ts:37-44 | its steps run together: not found, refused, device mismatch, or rotated with the stored position |
| PlaybackService.PlaybackService.Heartbeat | src/playback/playback.service.ts:46-56 | its read followed at once by its write: moves the session's position and adds at most a minute to it and to the history that points at it |
| PlaybackService.PlaybackService.Stop | src/playback/playback.service.ts:58-69 | closes the session and ends the history that points at it |
| PlaybackService.PlaybackService.QueryStatus | src/playback/playback.service.ts:71-76 | expires an active session that is overdue and changes nothing else |
| RefreshSessions.LinkKeeps | src/auth/auth.service.ts:89-98 | the transaction that links a replacement keeps chains unbranched and the log of refreshes duplicate-free |
| RefreshSessions.StepKeeps | src/auth/auth.service.ts:76-185 | every step of logins, refreshes, logouts, password changes, suspensions, deletions and cleanup keeps the chains and the log, and none undoes a revocation |
| RefreshSessions.RevokedForever | src/auth/auth.service.ts:96-97 | a revoked session stays revoked or is deleted, and no later refresh consumes it, even one that read it before |
| RefreshSessions.SuspensionIsFinal | src/users/users.service.ts:59-70 | the sessions of a suspended user are never accepted or consumed again, reactivation included |
| RefreshSessions.LogGrowth | src/auth/auth.service.ts:92-98 | a step completes at most one refresh, of a session present and unrevoked at that moment |
| RefreshSessions.ConsumedOnce | src/auth/auth.service.ts:76-101 | in every reachable state each session was consumed by at most one refresh |
| RefreshSessions.ChainIsLinear | src/auth/auth.service.ts:89-98 | two chains that meet are one chain |
| RefreshSessions.OneLivePerFamily | src/auth/auth.service.ts:76-101 | in every reachable state at most one session of a rotation family is unrevoked, the family followed through the log of refreshes, which the cleanup job leaves alone |
| RefreshSessions.LinksAreLogged | src/auth/auth.service.ts:89-98 | in every reachable state the links left in the session table are part of those families, however much was deleted |
| RefreshSessions.StepAgree | scripts/maintenance-cleanup.ts:17-19 | a system that lost only revoked and expired sessions answers every request as the full one does and stays alike |
| RefreshSessions.CleanupIsInvisible | scripts/maintenance-cleanup.ts:17-19 | for every history with the job run at any points, callers see what they would have seen without it, and the surviving sessions are the same |
| AuthService.RefreshCallCases | src/auth/auth.service.ts:76-101 | an uninterrupted refresh is refused, revokes all the user's sessions on replay, or links a replacement; expiry is tested before replay |
| AuthService.AuthService.IssueTokenPair | src/auth/auth.service.ts:178-185 | a new unrevoked session under a fresh id, no other changed |
| AuthService.AuthService.Refresh | src/auth/auth.service.ts:76-101 | is its read followed at once by its write |
| AuthService.AuthService.Logout | src/auth/auth.service.ts:103-107 | revokes that session if it is unrevoked and no other |
| AuthService.AuthService.LogoutAll | src/auth/auth.service.ts:109-113 | revokes exactly the user's unrevoked sessions |
| AuthService.AuthService.RevokeSession | src/auth/auth.service.ts:129-133 | revokes that session only if it is the user's own |
| AuthService.AuthService.ChangePassword | src/auth/auth.service.ts:166-176 | refused unless the user is there and the current password matches; then revokes the user's other sessions and keeps the caller's |
| AuthService.AuthService.UpdateStatus | src/users/users.service.ts:59-70 | refuses to disable one's own account; the status change and the revocation are one step |
| AuthService.AuthService.RemoveUser | src/users/users.service.ts:72-82 | refuses to delete one's own account; deletion and revocation are one step, and the sessions are revoked even if there was no user to delete |
| AuthService.AuthService.Validate | src/common/auth/jwt.strategy.ts:36-58 | accepts exactly an unrevoked unexpired session of an active user |
| AuthService.AuthService.Cleanup | scripts/maintenance-cleanup.ts:17-19 | deletes exactly the expired revoked sessions and clears links to them |
| Lockout.LoginGuard.Login | src/auth/auth.service.ts:52-70 | refusals count only while not locked, the fifth and later ones lock, a login clears both |
| Lockout.CountIsFailures | src/auth/auth.service.ts:52-61 | the counter is the number of failures since the last login, the lock runs 15 minutes from the latest, and from the fifth on failures lie a full lock apart |
| Lockout.LaterFailures | src/auth/auth.service.ts:52-61 | between logins the k-th counted failure comes at least k - 5 locks after the fifth |
| Lockout.FailuresInSpan | src/auth/auth.service.ts:13-61 | any span of length T holds at most 5 + floor(T / 15 min) counted failures |
| Lockout.NoLoginWhileLocked | src/auth/auth.service.ts:52-53 | no attempt succeeds within 15 minutes of the latest failure from the fifth on |
| Uploads.SortAscends | src/uploads/uploads.service.ts:99-119 | sorting a list with distinct keys makes it strictly ascending |
| Uploads.RecordedKeeps | src/uploads/uploads.service.ts:85-99 | recording a chunk, new or re-sent, keeps the byte total equal to the sum of part sizes, indices distinct and in range, the chunk list strictly sorted, and parts and chunks in agreement |
| Uploads.Pigeonhole | src/uploads/uploads.service.ts:107-109 | as many strictly ascending indices below n as there are: all of them, in order |
| Uploads.SortedParts | src/uploads/uploads.service.ts:117-121 | the part list sent on completion is numbered 1 to n in order, and its sizes add up to the running total |
| Uploads.FullLists | src/uploads/uploads.service.ts:107-109 | the list lengths are right exactly when every chunk was received, so the second length check never fires |
| Uploads.RemoteListAccepted | src/uploads/uploads.service.ts:113-122 | the store takes a completed list exactly when no listed part was overwritten since and all parts but the last have one size; it never objects to order or to a small part |
| Uploads.RemoteAssembly | src/uploads/uploads.service.ts:108-122 | a remote completion makes the chunks in order with the promised length, or fails exactly for an overwritten part or for parts of different sizes |
| Uploads.NoFileMissing | src/uploads/uploads.service.ts:129-130 | under any interleaving, while the directory is there a completion finds every file it asks for |
| Uploads.StagedAssembly | src/uploads/uploads.service.ts:129-139 | reading, forwarding and removing with nothing in between: the files in order, with the refusals in their order, kept if and only if there is a place to forward them to |
| Uploads.AssembledIsTheFile | src/uploads/uploads.service.ts:105-128 | under any interleaving what the multipart store makes is the last-received bytes of chunks 0 to n - 1 in order, of the promised length, and only once |
| Uploads.StepKeeps | src/uploads/uploads.service.ts:68-153 | every manifest, saved or in the hands of a call in flight, stays sound through every step |
| Uploads.AnyRun | src/uploads/uploads.service.ts:43-153 | in every run of interleaved calls the saved manifest is sound, every file kept has the promised length, and the multipart store makes at most one |
| Uploads.CompletionIsExact | src/uploads/uploads.service.ts:68-139 | for every sequence of chunk calls, completion succeeds if and only if every chunk was received, the last-received bytes add up to the promised size, the multipart store finds parts of one size, and the place for the file, if there is one, takes it; the file is those bytes in order |
| Uploads.CompletedIsKept | src/uploads/uploads.service.ts:105-159 | after a successful completion the bytes are kept if and only if the upload was multipart or a place to forward to is configured, and nothing else is left of them |
| Uploads.NowhereToKeep | src/uploads/uploads.service.ts:134-159 | one staged chunk and no place to forward to: the completion succeeds and no bytes are left |
| Uploads.RefusedCompletion | src/uploads/uploads.service.ts:105-139 | a completion that gives no file changes nothing, so it can be tried again |
| Uploads.UnevenPartsAreRefused | src/uploads/uploads.service.ts:77-122 | three chunks of which the first two differ in size: every call accepts them, they add up, and the multipart store refuses to join them |
| UploadOverlaps.AloneIsClean | src/uploads/uploads.service.ts:105-153 | in every run of a multipart upload, and of a staged one in which nothing overlaps a completion and none is repeated after it broke off, at most one file is kept, and it is the last-received bytes in order |
| UploadOverlaps.CompletionsMustBeAlone | src/uploads/uploads.service.ts:105-153 | once everything is received: under a discipline of which calls may overlap a completion, no run keeps a second file or one that is not the last-received bytes, if and only if the upload is multipart or the discipline lets nothing overlap a completion and repeats none that broke off with its file kept |
| UploadOverlaps.OverlapKeepsTwo | src/uploads/uploads.service.ts:105-139 | two staged completions that overlap forward the file twice, whatever was received |
| UploadOverlaps.RepeatIsKept | src/uploads/uploads.service.ts:133-139 | so do a completion that breaks off after forwarding and one after it |
| UploadOverlaps.ResentIsLost | src/uploads/uploads.service.ts:94-133 | a chunk sent again after its file was read is not in the file kept |
| UploadOverlaps.CancelledIsKept | src/uploads/uploads.service.ts:133-153 | an upload cancelled after its files were read is kept all the same |
| UploadOverlaps.TornFile | src/uploads/uploads.service.ts:129-133 | both chunks sent again between the two readings: the file kept is one that the received bytes made up at no moment |
| UploadOverlaps.PiecesInTime | src/uploads/uploads.service.ts:129-133 | in every run of interleaved calls a staged file consists, chunk by chunk, of what was last received at moments that only go forward |
| UploadsService.WorkingManifest.FindPart | src/uploads/uploads.service.ts:86-86 | the position of the chunk's part, or the end |
| UploadsService.WorkingManifest.Receive | src/uploads/uploads.service.ts:86-99 | changes parts, total and chunk list in place as the step does |
| UploadsService.UploadsService.Init | src/uploads/uploads.service.ts:43-66 | refuses a file over the maximum, or a multipart store that is not configured or does not begin an upload; else begins with an empty manifest |
| UploadsService.UploadsService.Chunk | src/uploads/uploads.service.ts:68-103 | the call is its three steps run together, refusals in order |
| UploadsService.UploadsService.Complete | src/uploads/uploads.service.ts:105-140 | the call is its steps run together; the gathering loop concatenates the staged files in order; a forward with no place configured succeeds and keeps nothing, one that fails leaves everything as it was |
| UploadsService.UploadsService.Cancel | src/uploads/uploads.service.ts:142-153 | the call is its three steps run together |
| ContentTree.StepKeeps | src/episodes/episodes.service.ts:45-85 | create, update, move, remove, restore, publish and every bulk action keep live media under live episodes under live seasons and dramas, and the two published fields in agreement |
| ContentTree.ChainsHold | src/seasons/seasons.service.ts:32-79 | in every reachable catalogue live media have a live episode, live episodes a live season and drama, and published means status PUBLISHED and all of that |
| ContentTree.OneRowChanges | src/dramas/dramas.service.ts:33-80 | a create, update, restore, publish or remove call of a single row touches no other row of any table, and none when it is refused |
| ContentTree.SeasonOutlivesDrama | src/seasons/seasons.service.ts:66-71 | a live season may stand under a deleted drama |
| ContentTree.FiltersAgree | src/episodes/episodes.service.ts:15-39 | for an ordinary user the conditions in list, details, season details and playback authorization select the same episodes, decided by two flags and the visibility alone |
| ContentTree.RestoringShowsNothing | src/dramas/dramas.service.ts:50-96 | no deletion or restoration ever shows an episode that was hidden |
| ContentTree.FellDramasMeans | src/dramas/dramas.service.ts:50-66 | after deleting dramas nothing beneath them is live and no other row has changed |
| ContentTree.FellDramasUnite | src/dramas/dramas.service.ts:87-93 | deleting two sets of dramas one after the other is deleting them together |
| ContentTree.BulkDeleteIsEach | src/dramas/dramas.service.ts:82-96 | bulk deletion equals one call after the other, for episodes and seasons always, for dramas if and only if no listed drama is already deleted with a live season under it |
| ContentTree.BulkDeleteReachesFurther | src/dramas/dramas.service.ts:82-96 | create a drama and a season, delete the drama, restore the season: the bulk call and the single call then differ |
| ContentServices.ContentServices.RemoveDrama | src/dramas/dramas.service.ts:50-66 | a live drama, its seasons, their episodes and their media are deleted together, or nothing for any other id |
| ContentServices.ContentServices.BulkDeleteDramas | src/dramas/dramas.service.ts:87-93 | the listed dramas and everything under them are deleted, also under listed dramas that were deleted before; the live ones are counted |
| ContentServices.ContentServices.RemoveSeason | src/seasons/seasons.service.ts:51-64 | a live season, its episodes and their media are deleted together, or nothing for any other id |
| ContentServices.ContentServices.BulkDeleteSeasons | src/seasons/seasons.service.ts:76-76 | the listed seasons and everything in them are deleted; the live ones are counted |
| ContentServices.ContentServices.BulkDeleteEpisodes | src/episodes/episodes.service.ts:82-82 | the listed episodes are archived and their media deleted; the live ones are counted |
| ContentServices.ContentServices.ArchiveEpisodes | src/episodes/episodes.service.ts:68-68 | episodes and their media are deleted, nothing for an empty list |
| ContentServices.ContentServices.UpdateSeason | src/seasons/seasons.service.ts:41-49 | changes or moves a live season, only to a live drama, and leaves no two seasons of a drama with its number, or reports a conflict and changes nothing |
| ContentServices.ContentServices.CreateEpisode | src/episodes/episodes.service.ts:45-53 | one new episode under a live chain, its published flag following the status asked for, or nothing |
| ContentServices.ContentServices.UpdateEpisode | src/episodes/episodes.service.ts:55-64 | changes or moves one episode with a live chain, only to a live season and a free number, flag and status together, or nothing |
| ContentServices.ContentServices.UpdateMedia | src/media-assets/media-assets.service.ts:53-60 | changes one live asset; unless a version is given it rises by one exactly when the locator changes |
| ContentServices.BuildWhere | src/episodes/episodes.service.ts:15-27 | builds the conditions of the query field by field |
| ContentServices.WhereSelects | src/episodes/episodes.service.ts:15-27 | those conditions select exactly the listed episodes, for every catalogue and query, title search included |
| Migration.MadeIsSound | scripts/legacy-migration/migrate.ts:75-149 | a row is made for its own table, a season only under a drama that exists |
| Migration.AllAdds | scripts/legacy-migration/migrate.ts:66-149 | a run leaves everything there before untouched and records each row it creates, except one whose record was refused |
| Migration.PassRemoves | scripts/legacy-migration/rollback.ts:12-24 | a pass over one entity removes exactly its recorded rows and their records |
| Migration.ClearToPass | scripts/legacy-migration/rollback.ts:10-18 | in the given order no deletion is refused; a drama's recorded seasons are gone before it |
| Migration.WholeRollsBack | scripts/legacy-migration/rollback.ts:6-27 | four passes over a fully recorded run bring back exactly what was there, without a failure |
| Migration.OrphanStays | scripts/legacy-migration/rollback.ts:12-24 | a row whose record was refused survives the rollback |
| Migration.RollbackInvertsMigration | scripts/legacy-migration/rollback.ts:6-27 | rolling back an applied run restores all four tables and the ledger, without a refusal, if and only if nothing was to be created or the run id is not empty, and the run id, table names and keys of the rows to be created fit their columns and the keys are distinct in each table |
| Migration.MadeKey | scripts/legacy-migration/migrate.ts:53-55 | the key a row is recorded under depends on its source row alone |
| Migration.DistinctKeysRollBack | scripts/legacy-migration/migrate.ts:66-149 | a run id of 1 to 80 characters and source keys that fit and are distinct in each table are enough, whatever the database holds |
| Migration.OneIdTwice | scripts/legacy-migration/migrate.ts:66-96 | two user rows with one id and different addresses: the rollback does not restore the database |
| Migration.UnusableRunId | scripts/legacy-migration/rollback.ts:7-9 | one user row under a run id that is empty or over 80 characters: the rollback does not restore the database |
| Migration.UsersDryRunPredicts | scripts/legacy-migration/migrate.ts:75-96 | for users a dry run reports exactly what the applied run will, if it finishes |
| Migration.DramasDryRunMiscounts | scripts/legacy-migration/migrate.ts:118-131 | two source rows with one slug are counted twice by the dry run and once when applied |
| LegacyMigration.FindValue | scripts/legacy-migration/migrate.ts:43-46 | the first of the named fields that is there |
| LegacyMigration.Migrator.Make | scripts/legacy-migration/migrate.ts:66-73 | creates the row, then records it or stops, or only counts it |
| LegacyMigration.Migrator.MigrateUser | scripts/legacy-migration/migrate.ts:80-95 | one turn of the loop: invalid, seen, existing, too wide, or created as active or disabled by its hash |
| LegacyMigration.Migrator.MigratePlan | scripts/legacy-migration/migrate.ts:101-115 | one turn of the loop: invalid, existing, too large, or created |
| LegacyMigration.Migrator.MigrateDrama | scripts/legacy-migration/migrate.ts:121-130 | one turn of the loop: existing, or created under its slug |
| LegacyMigration.Migrator.MigrateSeason | scripts/legacy-migration/migrate.ts:136-148 | one turn of the loop: invalid, no drama, existing, too large, or created under its drama |
| LegacyMigration.Migrator.Run | scripts/legacy-migration/migrate.ts:151-157 | the loops one after the other; after an exception the rest is not reached |
| LegacyMigration.Roller.Pass | scripts/legacy-migration/rollback.ts:12-24 | the inner loop deletes the entity's rows and records in order and counts failures |
| LegacyMigration.Roller.Rollback | scripts/legacy-migration/rollback.ts:7-25 | nothing without a run id; else the four passes in order over the records as first read |
| RateLimit.RateLimiter.IncrementWithExpiry | src/common/redis/redis.service.ts:40-46 | counts on in a live window or opens one, and touches no other key |
| RateLimit.RateLimiter.CanActivate | src/common/security/redis-rate-limit.guard.ts:13-27 | admits exactly up to the limit, and lets everything through uncounted when Redis is unreachable |
| RateLimit.SameOrLater | src/common/redis/redis.service.ts:40-46 | two requests count up in one window, or the later one's window begins when the earlier one's is over |
| RateLimit.WindowBound | src/common/security/redis-rate-limit.guard.ts:20-25 | at most `limit` requests are admitted in each counter window |
| RateLimit.IntervalBound | src/common/security/redis-rate-limit.guard.ts:20-25 | at most twice `limit` requests are admitted in any interval as long as the window |
| RateLimit.RunBound | src/common/security/redis-rate-limit.guard.ts:13-27 | for every run over any keys, a key lets at most twice its limit through in any interval as long as its window, besides the requests that came while Redis was unreachable |
| RateLimit.BoundIsReached | src/common/security/redis-rate-limit.guard.ts:20-25 | the factor two is reached |
| RateLimit.CounterOfKey | src/common/redis/redis.service.ts:40-46 | a key's counter after any run is that of its own reachable requests |
| Subscriptions.HorizonBounds | src/subscriptions/subscriptions.service.ts:19-20 | a new window starts at the latest end of the active ones, or now |
| Subscriptions.ExtendKeepsDisjoint | src/subscriptions/subscriptions.service.ts:28-28 | an extension keeps the windows apart if and only if no other active window of the user overlaps the range of the extended one |
| Subscriptions.LatestMeetsNone | src/subscriptions/subscriptions.service.ts:28-28 | extending the latest-ending active window never meets another |
| Subscriptions.OrderlyRun | src/subscriptions/subscriptions.service.ts:13-29 | active windows stay disjoint under purchases, cancellations, time and extension of the latest-ending one |
| Subscriptions.ArbitraryExtendOverlaps | src/subscriptions/subscriptions.service.ts:28-28 | extending the first of two purchases makes them overlap |
| Subscriptions.PrepaidMeter | src/subscriptions/subscriptions.service.ts:13-30 | without cancellations the service is a prepaid meter: a user is entitled from now on exactly while the balance of bought time lasts, under one window at a time |
| Subscriptions.SubscriptionsService.FindCurrent | src/subscriptions/subscriptions.service.ts:19-19 | the active unexpired subscription that ends last |
| Subscriptions.SubscriptionsService.Subscribe | src/subscriptions/subscriptions.service.ts:13-25 | adds a window at the latest active end or now, or refuses an unknown plan or user |
| Subscriptions.SubscriptionsService.Extend | src/subscriptions/subscriptions.service.ts:28-28 | lengthens that subscription from its end or now, reviving a cancelled one |
| Subscriptions.SubscriptionsService.Cancel | src/subscriptions/subscriptions.service.ts:29-29 | makes that subscription inactive and keeps its dates |
| Subscriptions.SubscriptionsService.Validate | src/subscriptions/subscriptions.service.ts:30-30 | active exactly when some active window of the user covers now |
| SupportChat.StepKeeps | src/support-chat/support-chat.service.ts:57-224 | every call keeps counters, last message and message log in agreement |
| SupportChat.CountersAgree | src/support-chat/support-chat.service.ts:160-224 | in every reachable conversation the staff counter is the number of user messages not seen, the user counter that of staff messages not seen, the last message is the newest, and a user has one conversation |
| SupportChat.OrdinaryUserStaysInside | src/support-chat/support-chat.service.ts:129-231 | an ordinary user's call changes no other user's conversation or message and hides nothing from staff |
| SupportChat.SupportChatService.EnsureConversationForUser | src/support-chat/support-chat.service.ts:57-78 | finds the user's conversation or creates it with its welcome message as the last one |
| SupportChat.SupportChatService.CreateMessage | src/support-chat/support-chat.service.ts:186-224 | rejects an empty message, or appends it and updates counters, status, assignee and last message |
| SupportChat.SupportChatService.SendUserMessage | src/support-chat/support-chat.service.ts:145-150 | ensures the conversation, then sends; the conversation is created even if the message is rejected |
| SupportChat.SupportChatService.SendAdminMessage | src/support-chat/support-chat.service.ts:152-158 | staff only: sends into that conversation and takes it over |
| SupportChat.SupportChatService.MarkSeen | src/support-chat/support-chat.service.ts:160-169 | marks exactly the other side's messages and clears the caller's counter |
| SupportChat.SupportChatService.UpdateStatus | src/support-chat/support-chat.service.ts:171-176 | staff only: sets the status and takes the conversation over, counters untouched |
| SupportChat.SupportChatService.DeleteMessage | src/support-chat/support-chat.service.ts:178-184 | hides the message on the caller's side only |

## Left out

- SqlDump.ParseValue: decimals and integers beyond 2^53 - 1 keep their text, because conversion to a double is not modelled; characters are code points, not UTF-16 units.
- SqlDump.ParseDump: the order in which the table map lists its tables; the header pattern is a matcher written out, not a regular-expression engine.
- SqlDumpTheorem.DumpRoundTrip: the printer writes one space where the header pattern allows any white space.
- HlsGateway.MediaGateway.RewriteHls: URL resolution and the allow-list are one parameter that may fail; one rewrite happens at one instant; entries of failed rewrites stay registered, as they do in the code.
- DASH rewriting and nested manifests: every reference is registered as a segment, and the DASH patterns add nothing to the HLS argument.
- Tokens, hashes and signatures: Argon2, SHA-256, JWT and the locator cipher are opaque, hashes injective, random values fresh.
- PlaybackProtocol.DecideAcceptsOnlyCurrent: subscription, grant and media checks are parameters of the steps; a start is one step, its row, capability and entry together.
- PlaybackSessions.LimitHolds: authorization is one step, its checks and its count together.
- RefreshSessions.CleanupIsInvisible: the list of sessions shown to a user, heartbeats and audit rows are not modelled.
- RefreshSessions.StepKeeps: whether the current password matches is given; roles and permissions are not modelled.
- Trusted devices in `AuthService`: the table and its limit, which re-registration of a revoked device skips; devices appear in `PlaybackProtocol`.
- Lockout.LoginGuard.Login: an attempt is one step; two that interleave can write the same count.
- Uploads.AssembledIsTheFile: the part rules of the multipart store (ETag, ascending numbers, the minimum size, one size for all but the last) are those of Cloudflare R2, which is not part of this model.
- UploadOverlaps.CompletionsMustBeAlone: reading and writing a staged file are single steps; a place that keeps a file and still reports a failure is a forward followed by a crash.
- ContentTree.StepKeeps: a call is one step, although its checks come before its statements and those of a bulk action are separate; names, descriptions and thumbnails are not modelled; lower-casing is ASCII, and what a title search matches is a parameter.
- Migration.RollbackInvertsMigration: nothing is written between the run and its rollback; a crash between a row and its record is not modelled, nor references from tables outside the migration; `Number` of a field and CONFIRM_ROLLBACK are given; lower-casing is ASCII; PostgreSQL stores a run id with only blanks beyond its 80 characters cut short, which the model counts as refused, and which the rollback does not find either.
- RateLimit.IntervalBound: a crash between INCR and EXPIRE, which would leave a counter without an expiry.
- Subscriptions.OrderlyRun: a purchase and an extension are one step each; two of one user that interleave can read the same end.
- Subscriptions.PrepaidMeter: a cancellation is not metered; payments and notes are not modelled.
- SupportChat.CountersAgree: a call is one step, its look-up and its transaction together; soft-deleted conversations, which no code creates; attachments beyond the text they leave.
- Controllers, permissions, audit rows, metrics, notifications, banners, releases, comments, search and dashboards: single-row reads and writes, or plumbing around libraries.
