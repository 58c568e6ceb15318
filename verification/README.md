# StellarVeriphy client and server protocols

This project models the stateful parts of the StellarVeriphy web application and proves what holds of every input,
every step and every run: the auth sessions shared by the tabs of a browser, resumable uploads, access requests and
request dispatch, request deduplication and retries, the certificate ownership ledger, the offline cache, the retryable
loader and the hex and chunk codecs. `dafny verify dfyconfig.toml` checks all of it.

Code that changes state in place is a class, or a method with the program's own loop, proved equal to a function on
values; the theorems are about those functions and about runs of them. Asynchronous code is cut at its awaits, and a run
is any sequence of enabled steps, so requests, replies, losses, timers and storage events interleave freely. Handlers
without a loop (`AuthSessionTab`, `BrowserStorage`, `AccessRequestStore`, `RequestDeduplicator`, `RetryableHook`,
`OwnershipService`) are methods proved equal to the functions of the same meaning beside them; the table below cites what
is proved about those functions.

| file | models |
|---|---|
| `AuthServer`, `AuthClient` | the server's session store; one tab and the storage entry it shares |
| `AuthProtocol`, `AuthTheorems`, `AuthCoherence` | all tabs and the server together; the invariant of the protocol and what follows for every run |
| `AuthRenewal`, `AuthSignOut` | which sessions can still be renewed, `getAccessToken`, and what a sign-out achieves |
| `AuthAnswers`, `AuthStorage` | the server's answers in times; what tabs take from storage and leave there, and how a sign-out reaches all of them |
| `Chunks`, `UploadServer`, `UploadClient` | cutting files, one upload session on the server, the upload loop and series of attempts |
| `UploadActivity`, `UploadCalls` | when each update is accepted and what it counts; a call with its retries |
| `UploadSessions`, `UploadOpening` | all sessions under interleaved requests; opening, finding and completing one |
| `AccessRequests`, `Dispatcher` | access requests and reviews; the route table and the maintenance gate |
| `Deduplicator`, `RetryLoop`, `LatestWins` | shared fetches, bounded retries, overlapping loads |
| `Ownership`, `OfflineCache`, `Codec` | the ownership ledger, the pruned cache, hex text and chunked hashing |

## Where the code falls short of its description

The model follows the code. Each of these is a lemma, with the exact condition beside it where one is known.

- An outage during a refresh strands the session for good if and only if the lost reply carried new tokens
  (`AuthRenewal.OutageStrands`, `StrandedForever`), although the design notes say a transient outage does not sign the user
  out; a request whose client gave up strands it as well, if the session is live when the server handles it
  (`WhenLateRefreshStrands`).
- A DELETE ends its session if and only if its access token is the newest issued for the session and has not expired when
  the server handles it (`AuthSignOut.WhenDeleteRevokes`, `DeleteEndsSession`): a refresh of the same session in this or any
  other tab that the server handles before it undoes the sign-out (`WhenSignOutHolds`).
- A tab shows an active status without tokens if its tokens are taken, by a sign-out, a failed sign-in or an emptied storage,
  during a refresh that then fails retryably (`AuthCoherence.WhenTokensAreTaken`, `AuthRenewal.SignOutInFlightBreaksCoherence`).
- A refused storage write can later take tabs back to used-up tokens (`AuthTheorems.WhenStorageFallsBehind`,
  `WhenTabsGoBack`), and a late refresh reply replaces a session signed in to since (`AuthSignOut.LateReplySwitchesSession`).
- Restarting a dead upload session beside an open one leaves two open sessions for one upload
  (`UploadSessions.RestartBesideOpenSession`); opening does this when the browser remembers a lapsed session
  (`UploadOpening.OpeningPicksUp`).
- An upload completed on the server can look failed to the client (`UploadOpening.WhenCompletionLooksFailed`), and a batch of
  more than 1000 chunks can never be reported (`UploadClient.WhenAnAttemptCanReturn`).
- Overlapping reviews can take a permission away, and equal times let a second pending request in or hide an approval
  (`AccessRequests.OverlappingReview`, `WhenSubmissionSpoils`, `WhenApprovalShows`).
- Two fetches for one key can run at once, both younger than the limit, after a stray timer or a clear
  (`Deduplicator.WhenYoungFetchesFallOut`, `StrayTimerDuplicates`), and a rejection with null or undefined leaves its entry in
  the map (`WhenLeakedEntriesStay`, `LeakedEntryRemains`).
- Every mount empties the offline cache, since the version it compares with is a promise
  (`OfflineCache.EveryMountClearsTheCache`), and pruning would remove the version marker anyway (`WhenTheMarkerSurvives`).

In `frontend/context/AuthSessionContext.tsx`, lines 182 and 197 read `refreshExpiresAt` one level too high, and lines
307-323 build the context value twice; the model reads it as line 149 does and takes the value to be one of the two.

## Model

| member | source | states |
|---|---|---|
| AuthServer.SessionStore.Refresh | frontend/lib/server/auth-sessions.ts:179-204 | The scan over all sessions: the first record the token belongs to decides; a current token of a live session is rotated, a previous one answered SUPERSEDED within the grace window and taken for reuse after it, anything else refused. |
| AuthServer.SessionStore.Login | frontend/lib/server/auth-sessions.ts:160-177 | The loop drops finished sessions and adds one, as the specification of a login says; which are kept, in times, is the next row. |
| AuthAnswers.LoginKeeps | frontend/lib/server/auth-sessions.ts:146-177 | A login keeps exactly the sessions until ten grace windows after their end, unchanged and in order, so every open one; the one it adds has a fresh number and is open for the idle window but not past its lifetime, its access token for its own. |
| AuthAnswers.OpenSessionsStay | frontend/lib/server/auth-sessions.ts:146-153 | Whatever step anyone takes, an open session stays on the server unless the server restarts. |
| AuthAnswers.SessionsStayWhileOpen | frontend/lib/server/auth-sessions.ts:146-153 | So in every run without a restart a session leaves the server only after it has ended. |
| AuthAnswers.StateIsOpen | frontend/lib/server/auth-sessions.ts:97-101 | A session counts as live exactly while it is not revoked and both its windows are open. |
| AuthAnswers.RefreshAnswers | frontend/lib/server/auth-sessions.ts:179-204 | What a refresh is answered, both ways for each code, by the times of the session and the age of the token, and that only a late replay on an open session revokes it. |
| AuthAnswers.UnknownTokenIsInvalid | frontend/lib/server/auth-sessions.ts:179-204 | A token of no session, or of the wrong kind, is invalid and changes nothing. |
| AuthAnswers.GrantLasts | frontend/lib/server/auth-sessions.ts:113-130 | At which moments what a refresh issues is good: the refresh token for the idle window, the access token for its own, neither past the lifetime; and when the client is to come back. |
| AuthServer.SessionStore.Delete | frontend/app/api/v1/auth/session/route.ts:36-39 | Revokes the session of an unexpired access token and nothing else. |
| AuthServer.RefreshStaysWithinLifetime | frontend/lib/server/auth-sessions.ts:121-130 | A granted refresh touches one live record, never moves the absolute expiry, never shortens the idle window, and nests refresh time, access expiry, idle expiry and absolute expiry in this order; for records whose windows are as every run keeps them. |
| AuthTheorems.WindowsAlongRuns | frontend/lib/server/auth-sessions.ts:121-130 | In every run every session's lifetimes nest and no idle window reaches past what a refresh at that moment would give. |
| AuthTheorems.RefreshExtendsAlongRuns | frontend/lib/server/auth-sessions.ts:179-204 | So in every reachable state, whatever token is presented, a granted refresh extends one session within its absolute lifetime and never shortens its idle window. |
| AuthClient.AuthSessionTab.RunRefresh | frontend/context/AuthSessionContext.tsx:211-245 | A refresh not disturbed in its own tab, with other tabs writing to storage until it settles, leaves the tab coherent and no longer refreshing, with the new tokens, a newer tab's, its own, or none. |
| AuthClient.TransitionsKeepCoherence | frontend/context/AuthSessionContext.tsx:163-205 | Every transition but a failed refresh keeps status, tokens and published session in agreement, whatever storage holds and whether or not it works. |
| AuthClient.FailedRefreshCoherence | frontend/context/AuthSessionContext.tsx:235-243 | A failed refresh leaves the tab incoherent if and only if the failure is retryable and the tab has no tokens any more. |
| AuthProtocol.LoginKeepsLedger | frontend/lib/server/auth-sessions.ts:160-177 | A sign-in uses a session number and tokens never issued before; every record still carries the newest tokens issued for it. |
| AuthProtocol.RefreshKeepsLedger | frontend/lib/server/auth-sessions.ts:179-204 | A granted refresh presented the newest generation of its session and issues exactly the next one; refusals leave the ledger of issued tokens in order. |
| AuthProtocol.ReplyIsAhead | frontend/context/AuthSessionContext.tsx:211-221 | What a reply on its way carries is newer than everything any tab has ever taken for that session. |
| AuthProtocol.DeliveryKeepsInv | frontend/context/AuthSessionContext.tsx:163-167 | Taking a reply appends to the delivered history in increasing generation order and keeps custody of tokens. |
| AuthProtocol.StepKeepsInv | frontend/context/AuthSessionContext.tsx:178-292 | Each of eighteen kinds of step (tabs opening, storage events, refreshes, sign-ins and sign-outs, the server's handling, losses, settling, server restarts, and requests that arrive after their client gave up) keeps the protocol's invariant. |
| AuthProtocol.RunKeepsInv | frontend/context/AuthSessionContext.tsx:178-292 | So does every run, for any number of tabs and any interleaving. |
| AuthTheorems.GenerationsAlongRuns | frontend/context/AuthSessionContext.tsx:163-205 | In every run generations written to storage strictly increase per session, no generation reaches two refreshes, and no tab or stored session is ahead of the server. |
| AuthTheorems.HistoriesGrow | frontend/context/AuthSessionContext.tsx:163-167 | The two histories only grow at their ends, so their order is the order of events. |
| AuthTheorems.WhenTabsGoBack | frontend/context/AuthSessionContext.tsx:193-234 | A step takes a tab back to older tokens of its session if and only if storage is behind the tab and the step makes the tab reread it: a storage event or mount that finds an open refresh window, or a superseded refresh that finds other tokens than it presented. |
| AuthTheorems.WhenStorageFallsBehind | frontend/context/AuthSessionContext.tsx:132-142 | From a state where storage is behind no tab, a step leads to one where it is if and only if new tokens arrive and storage, holding older ones of the same session, refuses them. |
| AuthTheorems.NeverBack | frontend/context/AuthSessionContext.tsx:193-234 | A tab that storage is not behind never holds older tokens of that session again, in any run, whatever other sessions come in between. |
| AuthTheorems.TabsNeverGoBack | frontend/context/AuthSessionContext.tsx:193-234 | Between any two moments of a run without such a refused write before the first, no tab goes back. |
| AuthCoherence.CoherenceOfSteps | frontend/context/AuthSessionContext.tsx:211-292 | Over all tabs a step keeps coherence if and only if it is not a retryable refresh failure landing on a tab without tokens. |
| AuthCoherence.WhenTokensAreTaken | frontend/context/AuthSessionContext.tsx:178-292 | A tab loses its tokens while its own refresh is undecided if and only if the step is a sign-out, a failed sign-in, or a storage event or mount effect that finds no usable session. |
| AuthCoherence.InitiallyCoherent | frontend/context/AuthSessionContext.tsx:148-161 | The empty system meets what the theorems on runs ask of their first state. |
| AuthCoherence.CoherenceAlongRuns | frontend/context/AuthSessionContext.tsx:163-292 | In every run without such a step, every tab is coherent throughout. |
| AuthStorage.OpeningReadsStorage | frontend/context/AuthSessionContext.tsx:148-161 | A tab that opens shows the stored session if its refresh window is open, says so if it has lapsed, and is signed out otherwise; text that is no session is removed and reported. |
| AuthStorage.MountedTabFollows | frontend/context/AuthSessionContext.tsx:178-191 | A mounting tab takes up an open stored session, ends a lapsed one for all tabs, and gives up one that is gone. |
| AuthStorage.NotifiedTabFollows | frontend/context/AuthSessionContext.tsx:193-205 | A notified tab takes up the stored session whether or not it had one, and is signed out if there is none to refresh. |
| AuthStorage.DeliveryIsShownAndStored | frontend/context/AuthSessionContext.tsx:163-167 | Tokens that arrive, by refresh or sign-in, are shown, stored if storage can be written, and otherwise the trouble is reported. |
| AuthStorage.DeliveryReachesAllTabs | frontend/context/AuthSessionContext.tsx:193-205 | After that every tab that is notified and every tab opened later has them, as long as they can be refreshed. |
| AuthStorage.RejectedRefreshShows | frontend/context/AuthSessionContext.tsx:235-243 | A rejected refresh, for each error code and retryability: tokens, session and storage are kept and the tab stays active, or all are gone and the status says why. |
| AuthStorage.SupersededWaits | frontend/context/AuthSessionContext.tsx:223-234 | A superseded refresh changes nothing in tab or storage before its settle delay. |
| AuthStorage.SettlingReadsStorage | frontend/context/AuthSessionContext.tsx:223-243 | A superseded refresh takes other tokens it finds in storage, and otherwise ends as any rejected one. |
| AuthStorage.FailedSignInShows | frontend/context/AuthSessionContext.tsx:270-279 | A failed sign-in leaves no tokens in the tab or in storage. |
| AuthStorage.SignInWorks | frontend/context/AuthSessionContext.tsx:262-281 | From any state, a sign-in that is answered ends with the first generation of a new session, shown and stored. |
| AuthStorage.AskingShows | frontend/context/AuthSessionContext.tsx:211-213 | A refresh call shows as refreshing exactly if there is something to refresh and none is under way. |
| AuthStorage.OnlyActorsChange | frontend/context/AuthSessionContext.tsx:163-302 | Over all kinds of step: a tab changes only by its own code, storage only by a tab or from outside, the server only by serving or restarting. |
| AuthStorage.AnswersAreSent | frontend/lib/api/errors.ts:17-22 | What the server makes of a refresh is what the client is sent; of its refusals only SUPERSEDED is retryable. |
| AuthStorage.GivingUp | frontend/context/AuthSessionContext.tsx:235-243 | A call that is given up fails for the client only; the server may still receive its request. |
| AuthStorage.RestartForgets | frontend/lib/server/auth-sessions.ts:82-86 | After a server restart whatever token is presented is invalid. |
| AuthTheorems.StepKeepsSlots | frontend/context/AuthSessionContext.tsx:247-252 | A tab's `inflight` always names its one unfinished refresh. |
| AuthTheorems.OneRefreshPerTab | frontend/context/AuthSessionContext.tsx:247-252 | In every run a tab has at most one refresh outstanding, and a call made meanwhile joins it and changes nothing. |
| AuthRenewal.HolderRenews | frontend/context/AuthSessionContext.tsx:211-221 | A tab with the current token of a live session, if it asks and is answered, ends active with the next generation, stored for the others. |
| AuthRenewal.LostGrantStrands | frontend/lib/server/auth-sessions.ts:184-191 | Losing a reply that carries rotated tokens leaves nobody with the session's current token. |
| AuthRenewal.StepKeepsStranded | frontend/lib/server/auth-sessions.ts:179-204 | A stranded session stays stranded through every step. |
| AuthRenewal.LateGrantStrands | frontend/lib/server/auth-sessions.ts:184-191 | So does a rotation for a request whose client has given up waiting. |
| AuthRenewal.WhenLateRefreshStrands | frontend/lib/server/auth-sessions.ts:184-191 | When the server handles a refresh whose client has given up and still holds the current token, the session is stranded if and only if it is live by then. |
| AuthRenewal.OutageStrands | docs/security/auth-session-refresh.md:63-65 | After a network failure during a refresh the tab stays active with the tokens it has, and their session can no longer be renewed by anyone if and only if the reply that was lost carried new ones. |
| AuthRenewal.StrandedForever | frontend/lib/server/auth-sessions.ts:179-204 | In no run is anything issued for a stranded session again. |
| AuthRenewal.RetryAfterLostRotation | frontend/lib/server/auth-sessions.ts:193-201 | What the client meets that tries again: SUPERSEDED within the grace window, revocation of its own session after it. |
| AuthRenewal.SignInRun | frontend/context/AuthSessionContext.tsx:262-281 | A run from an empty system to one signed-in tab, so that the states above are reached. |
| AuthRenewal.SignOutInFlightBreaksCoherence | frontend/context/AuthSessionContext.tsx:235-243 | Sign out during a refresh that then fails with a network error: the tab shows an active session without tokens. |
| AuthRenewal.RefusedWriteTakesTabBack | frontend/context/AuthSessionContext.tsx:193-205 | After a refused write a storage event takes a tab back to the tokens it has just used up. |
| AuthRenewal.FreshCallIsSound | frontend/context/AuthSessionContext.tsx:294-302 | `getAccessToken` waits for its tab's own refresh or returns the token held now; a token due for renewal is never returned without asking for a refresh first. |
| AuthRenewal.ResumedCallIsSound | frontend/context/AuthSessionContext.tsx:294-302 | After the wait it returns the access token then held, and null only if none is. |
| AuthRenewal.WhatACallDoes | frontend/context/AuthSessionContext.tsx:294-302 | A call joins a refresh under way even when the token is not due, else asks for one exactly if it is due, and resolves at once only if neither holds. |
| AuthSignOut.SignedOutForGood | frontend/context/AuthSessionContext.tsx:283-292 | With no tokens in any tab or storage and no refresh or sign-in awaited, no run without a new sign-in brings a session back, and unless late requests arrive the server issues nothing. |
| AuthStorage.SignOutEmptiesStorage | frontend/context/AuthSessionContext.tsx:283-292 | A sign-out in any state shows at once, empties storage if it can be written, names the session to revoke, and changes no other tab. |
| AuthStorage.NothingToOpen | frontend/context/AuthSessionContext.tsx:148-161 | From empty storage a new tab opens signed out, and storage stays empty. |
| AuthStorage.SignOutIsQuiet | frontend/context/AuthSessionContext.tsx:283-292 | If no other tab has tokens and nothing is awaited, a sign-out leads into the state of the row above. |
| AuthStorage.SignOutReachesEveryTab | frontend/context/AuthSessionContext.tsx:193-205 | However many tabs share the session: once all have been notified of a sign-out, and nothing was awaited, no run without a new sign-in brings it back. |
| AuthSignOut.WhenDeleteRevokes | frontend/lib/server/auth-sessions.ts:207-226 | In every state of the protocol a DELETE ends its session if and only if its access token is the newest issued for the session, no tab having refreshed since, and has not expired. |
| AuthSignOut.RevokedForever | frontend/lib/server/auth-sessions.ts:179-204 | In every run a revoked session stays revoked and nothing is ever issued for it again. |
| AuthSignOut.DeleteEndsSession | frontend/context/AuthSessionContext.tsx:283-292 | So a DELETE handled at any moment ends the session for the rest of any run exactly under that condition. |
| AuthSignOut.RaceStarts | frontend/context/AuthSessionContext.tsx:283-292 | A tab with the current token that calls refresh and then logout leaves both requests on their way and has no tokens meanwhile. |
| AuthSignOut.WhenSignOutHolds | frontend/context/AuthSessionContext.tsx:283-292 | For the tab's own refresh, no other request of the session being handled meanwhile, in either order: the sign-out holds in the tab and on the server if and only if the DELETE is handled first and its access token has not expired; otherwise the tab is active again with the current token of an unrevoked session. |
| AuthSignOut.LateReplySwitchesSession | frontend/context/AuthSessionContext.tsx:215-221 | A refresh reply is taken whatever the tab holds by then: it moves tab and storage to another session exactly when the tab has signed in to one since it asked. |
| Chunks.PieceLength | packages/shared/validation/uploadSession.ts:78-80 | The piece the client cuts for an index is exactly as long as the server counts for it. |
| Chunks.NonEmptyChunks | packages/shared/validation/uploadSession.ts:74-80 | The indexes whose chunk holds bytes are exactly those below the total. |
| Chunks.JoinedIsPrefix | frontend/lib/resumable-upload.ts:127-130 | The first n pieces, in order, are the file up to n chunk sizes, clipped to its length. |
| Chunks.PiecesMakeFile | load-tests/upload-heavy-load.js:135 | All pieces together are the file, and their counted lengths its size, for every file and chunk size. |
| UploadServer.UpdateKeepsOk | frontend/lib/server/upload-sessions.ts:136-236 | Every update keeps the record consistent (ascending in-range chunks, byte count, total), so a completed session has every chunk on record; only a restart drops chunks. |
| UploadServer.Run | frontend/lib/server/upload-sessions.ts:136-236 | So does every sequence of updates at any times. |
| UploadServer.ProgressRecords | frontend/lib/server/upload-sessions.ts:178-201 | A recorded batch adds exactly its chunks and touches nothing else but byte count and expiry. |
| UploadActivity.WhenReported | frontend/lib/server/upload-sessions.ts:178-201 | A report is taken if and only if the session is in progress and not a day silent and its 1 to 1000 indexes are in range; what it is answered otherwise. |
| UploadActivity.WhenResumed | frontend/lib/server/upload-sessions.ts:173-177 | A resume is accepted, gone or a conflict, each exactly when; it counts as an attempt and buys a day. |
| UploadActivity.WhenRestarted | frontend/lib/server/upload-sessions.ts:145-161 | Only a completed session refuses a restart, which discards the progress, counts, and opens it for a day. |
| UploadActivity.WhenAborted | frontend/lib/server/upload-sessions.ts:202-206 | An abort stops a live session and keeps its chunks; after it every valid update but a restart is a conflict. |
| UploadActivity.RefusedChangesNothing | frontend/lib/server/upload-sessions.ts:136-172 | A refused update changes nothing but may note the end of a silent session. |
| UploadActivity.CountersTell | docs/api/upload-sessions.md:99-108 | Over any series of updates the attempt number counts the accepted resumes and restarts, the restart count the latter. |
| UploadActivity.ActivityBuysADay | docs/api/upload-sessions.md:55-56 | A session lapses exactly 24 hours after its last accepted resume, restart or report; no other update moves that. |
| UploadActivity.NewSessionLivesADay | frontend/lib/server/upload-sessions.ts:94-107 | A new session is attempt 1, without progress, and lapses exactly after 24 hours. |
| UploadServer.ProgressCommutes | frontend/lib/server/upload-sessions.ts:190-191 | Reports may be repeated, overlap or arrive in either order: the record comes out the same. |
| UploadServer.AscendingIsCanonical | frontend/lib/server/upload-sessions.ts:190-191 | A set of chunks has one recorded form. |
| UploadServer.BytesTellCompletion | frontend/lib/server/upload-sessions.ts:39-41 | For a non-empty file the byte count equals the size exactly when all chunks are on record. |
| UploadServer.NextChunk | packages/shared/validation/uploadSession.ts:86-91 | The scan returns the first missing chunk, or null exactly when none is missing. |
| UploadServer.NumbersAgree | packages/shared/validation/uploadSession.ts:83-99 | Remaining 0, all chunks recorded, all bytes received, progress 100 % and the server accepting completion are one and the same condition. |
| UploadClient.Backend.Report | frontend/lib/resumable-upload.ts:118 | A progress call with its retries: what is stored and answered is what its tries make of it; a lost report is on record or not, an acknowledged one is. |
| UploadCalls.WhenReportsSucceed | frontend/lib/api.ts:75-147 | On a live session a report in range succeeds if and only if one of its tries arrives and is heard. |
| UploadCalls.WhenRestartsSucceed | frontend/lib/api.ts:75-147 | So does a restart of a session that is not completed, and then it is open without progress. |
| UploadCalls.TriesOfACall | frontend/lib/resumable-upload.ts:18 | A call makes one to four tries, fewer than four only if one is answered by something other than a conflict. |
| UploadClient.Flush | frontend/lib/resumable-upload.ts:116-121 | Reports the pending chunks, if any, and clears them only once acknowledged. |
| UploadClient.UploadMissingChunks | frontend/lib/resumable-upload.ts:109-136 | It returns if and only if no transport failed, no report went unacknowledged and no abort was seen before a missing chunk, with the session last acknowledged or else its input; each of its three throws exactly when; each transport right after a look at the signal, and nothing after a failure. However it ends, it transports the missing chunks from the first on, in order and once each, with the file's own bytes, in full batches and a rest, at most one batch of them off the record. |
| UploadClient.AttemptWork | frontend/lib/resumable-upload.ts:107-136 | The calls of one attempt are what it put on record plus at most one batch if it was interrupted. |
| UploadClient.SeriesWork | frontend/lib/resumable-upload.ts:107-136 | Over any series of attempts cut anywhere and resumed, reports landing late between them or not, calls are at most the chunks plus one batch per interruption, and after one that returned every chunk is on record. |
| UploadClient.SeriesTransports | frontend/lib/resumable-upload.ts:129-131 | If what lands late was sent by the attempts themselves, a chunk put on record during a series was handed to the transport in it. |
| UploadClient.LateReportResumes | frontend/lib/server/upload-sessions.ts:178-201 | A report that lands between two attempts is such a step: it drops no chunk. |
| UploadClient.LogHoldsPieces | frontend/lib/resumable-upload.ts:128-130 | Each transport call got its index's piece of the file. |
| UploadClient.ResumeKeepsProgress | frontend/lib/server/upload-sessions.ts:173-177 | The server's resume keeps exactly the recorded chunks, so a series may go on after it. |
| UploadClient.OversizedBatchesNeverReturn | packages/shared/validation/uploadSession.ts:142-143 | However its reports are cut, an attempt that would have to report more than 1000 chunks at once never returns. |
| UploadClient.WhenAnAttemptCanReturn | packages/shared/validation/uploadSession.ts:142-143 | On a live session an attempt that reports in full batches and a rest, all handled by the server, returns with every chunk on record if and only if the batch size or the number of missing chunks is at most 1000. |
| UploadSessions.StartAgain | frontend/lib/server/upload-sessions.ts:58-107 | A start sent again after a lost reply is handed the same session with the same progress, any number of times. |
| UploadSessions.StartLater | frontend/lib/server/upload-sessions.ts:58-107 | Also later, until the session lapses: rapid starts resume one session and do not open two. |
| UploadSessions.StartFindsTheOpenSession | frontend/lib/server/upload-sessions.ts:72-90 | With at most one open session per upload, a start resumes that one. |
| UploadSessions.WhatAStartDoes | frontend/lib/server/upload-sessions.ts:58-107 | Record by record: the first session in progress, not lapsed and of the same creator, content and cut is resumed, lapsed ones of the file before it are ended, all else stays; if there is none a new one for the whole file is added. |
| UploadSessions.ProceedKeepsGood | frontend/lib/server/upload-sessions.ts:75-107 | Each locked piece of a start, other requests having run in between, keeps one open session per upload. |
| UploadSessions.PatchKeepsGood | frontend/lib/server/upload-sessions.ts:136-236 | An update keeps it if and only if it is not a restart of a dead session beside an open one or behind the back of a start in flight. |
| UploadSessions.StepKeepsOneLive | frontend/lib/server/upload-sessions.ts:58-236 | The same, both ways, for every step of the interleaved system. |
| UploadSessions.OneLiveAlongRuns | frontend/lib/server/upload-sessions.ts:58-236 | In every run without such a restart, no two open sessions are for the same creator, file and chunk size. |
| UploadSessions.RestartBesideOpenSession | frontend/lib/server/upload-sessions.ts:145-161 | A run that ends with two: start, abort, start, restart the first. |
| UploadOpening.SessionStore.StartOrResume | frontend/lib/server/upload-sessions.ts:68-107 | The loop over candidates resumes the first session that fits, expires the lapsed ones before it, touches no other, and adds a new one exactly when none fits. |
| UploadOpening.Client.FindResumableSession | frontend/lib/resumable-upload.ts:51-62 | Returns the remembered session if it is in progress or expired, and otherwise forgets that file's id alone, unless the call failed. |
| UploadOpening.Client.StartUploadSession | frontend/lib/resumable-upload.ts:85-88 | A start with its retries: it is answered if and only if a try is heard, with the session that fits and the progress it had before the first try. |
| UploadOpening.Client.RestartSession | frontend/lib/resumable-upload.ts:80-81 | A restart with its retries: unless the session is completed it succeeds if and only if a try is heard, and leaves it open without progress; no other record changes. |
| UploadOpening.Client.UpdateSession | frontend/lib/api.ts:75-147 | Any update with its retries stores and answers what its tries make of it, stopping at the first answer that is not a conflict, after four at most. |
| UploadOpening.Client.StartSession | frontend/lib/resumable-upload.ts:85-92 | Starting and, if asked, discarding the progress succeeds if and only if each of its calls is heard. |
| UploadOpening.Client.OpenUploadSession | frontend/lib/resumable-upload.ts:74-94 | It succeeds if and only if each of its calls is heard in some try. What is handed out is open, remembered, and the lapsed or restarted session by its id or else the server's pick, with that session's progress or, when restarted, none; other files' ids stay. |
| UploadOpening.WhatOpeningHandsOut | frontend/lib/resumable-upload.ts:74-94 | Which session and which progress that is, by the status and age of the one remembered. |
| UploadOpening.Client.CompleteUploadSession | frontend/lib/resumable-upload.ts:139-143 | The id is forgotten exactly when the server has agreed, which it does only with every chunk on record. |
| UploadOpening.OpeningPicksUp | frontend/lib/server/upload-sessions.ts:58-59 | With one open session for the file, opening continues it with all progress if and only if this browser does not remember a lapsed one; otherwise that one is restarted beside it. |
| UploadOpening.LostCompletionIsRefused | frontend/lib/server/upload-sessions.ts:168-170 | A completion accepted with its reply lost is refused on every retry, at any time and naming any upload, though there is nothing left to resume. |
| UploadOpening.WhenCompletionIsAccepted | frontend/lib/server/upload-sessions.ts:208-234 | A try is accepted exactly if the session is in progress and has not lapsed, every chunk is on record and the named upload, if any, matches; nothing else completes a session. |
| UploadOpening.WhenCompletionLooksFailed | frontend/lib/resumable-upload.ts:139-143 | Over all its tries and whatever anyone else does to the session between them, it is completed and the client told otherwise if and only if the update that completed it was not a try whose answer came back. |
| UploadOpening.WhenCompletionLooksFailedAlone | frontend/lib/resumable-upload.ts:139-143 | If nobody else acts: if and only if the first try to reach the server is accepted and its answer is lost. |
| AccessRequests.SortSpec | backend/src/server.ts:139-145 | Sorting keeps every record and orders by time, newest first. |
| AccessRequests.CurrentSpec | backend/src/server.ts:139-145 | The current request is the earliest of the newest of its user and permission; there is none only if there are none. |
| AccessRequests.CurrentAfterAppend | backend/src/server.ts:139-145 | A new request becomes current only if strictly newer than the current one. |
| AccessRequests.CurrentIsLast | backend/src/server.ts:139-145 | The last request of a group is the current one if and only if it is strictly newer than all before it: why increasing times are needed. |
| AccessRequests.GrantedIffApproved | backend/src/server.ts:139-145 | A permission is granted exactly when some request for it is approved. |
| AccessRequests.StepKeepsGood | backend/src/server.ts:294-369 | Each handler step keeps, per user and permission, denied requests followed by at most one other, and takes no granted permission away. |
| AccessRequests.AccessAlongRuns | backend/src/server.ts:294-369 | So in every run in which times increase within each user and permission and no review begins while another of its request is under way: shape, granted iff approved, granted for good. |
| AccessRequests.OverlappingReview | backend/src/server.ts:348-360 | A review that ends late spoils the shape exactly when it approves a request that is no longer its group's last, and revokes a permission exactly when it denies one approved meanwhile. |
| AccessRequests.ReviewAlone | backend/src/server.ts:345-369 | A review nobody else interferes with decides a pending request, once, and as it says: approved for approve, denied for deny; a second review of it is refused at its check. |
| AccessRequests.WhatASubmissionDoes | backend/src/server.ts:294-324 | What a submission is answered, by the requests on file: granted already, a duplicate of the one pending, or a new pending request, and only then is one added. |
| AccessRequests.WhatAReviewDecides | backend/src/server.ts:345-369 | A review of a pending request with a valid decision answers with that request decided, and afterwards the permission is granted if and only if the decision was approve. |
| AccessRequests.WhenApprovalShows | backend/src/server.ts:139-145 | Whatever the times, an approved request grants its permission if and only if every earlier one of its group is strictly older. |
| AccessRequests.WhenSubmissionSpoils | backend/src/server.ts:306-321 | An accepted submission spoils the shape if and only if some request of its group that is not denied is preceded by one that is not older: the sort then shows the wrong one. |
| AccessRequests.TieLetsTwoPendingIn | backend/src/server.ts:139-145 | For instance two requests in one millisecond: the denied one hides the pending one and a second pending one is let in. |
| Dispatcher.MatchesMeansResolved | backend/src/server.ts:148-603 | A route matches if and only if a decision by verb, length and words of the path leads to it. |
| Dispatcher.AtMostOneRoute | backend/src/server.ts:148-603 | For every method and path at most one route matches. |
| Dispatcher.FindMeansMatch | backend/src/server.ts:609 | The scan finds a route if and only if it is in the table and matches. |
| Dispatcher.OrderDoesNotMatter | backend/src/server.ts:609 | Two tables with the same routes dispatch alike. |
| Dispatcher.FindIsResolve | backend/src/server.ts:148-609 | The table and its scan find exactly what that decision leads to. |
| Dispatcher.WhenHandled | backend/src/server.ts:605-631 | A handler runs exactly when its route matches, an admin route is asked for by an administrator, and during maintenance the method only reads or the route is an admin one. |
| Dispatcher.WhatIsAnswered | backend/src/server.ts:605-631 | Every request's answer, from method, path, tokens and maintenance alone: not found, admin disabled, unauthorized, under maintenance, or the handler. |
| Dispatcher.TokensGuardAdminPaths | backend/src/server.ts:90-101 | No handler of a path that begins with admin or api/admin runs unless a token is configured and shown as a bearer; on all other paths tokens play no part. |
| Dispatcher.MaintenanceStopsWrites | backend/src/server.ts:617-625 | During maintenance no handler runs for a request that is neither an administrator's nor GET, HEAD or OPTIONS. |
| Deduplicator.RunKeepsInv | frontend/services/requestDeduplicator.ts:110-167 | In every run each entry names the newest fetch of its key at its start time, and that fetch is not yet cleaned up. |
| Deduplicator.QuiescentMap | frontend/services/requestDeduplicator.ts:127-139 | When all fetches have settled and all timers have fired, what is left are the entries of fetches rejected with null or undefined, whose handler throws before setting the timer: the map is empty if and only if there are none. |
| Deduplicator.WhenLeakedEntriesStay | frontend/services/requestDeduplicator.ts:127-139 | A step leaves such an entry in the map if and only if it is not a clear, a call for the key after the limit, or the timer of another fetch of the key. |
| Deduplicator.LeakedEntriesStay | frontend/services/requestDeduplicator.ts:127-139 | So in every run without such a step it is never cleaned up. |
| Deduplicator.LeakedEntryRemains | frontend/services/requestDeduplicator.ts:134-137 | One call rejected with undefined: nothing unsettled, no timer pending, and the entry is there. |
| Deduplicator.CallersShareRecentFetches | frontend/services/requestDeduplicator.ts:110-147 | A caller gets a fetch for its own key, started less than the limit ago exactly when there is a reusable entry, and otherwise a new one. |
| Deduplicator.WhenFetchesDropOut | frontend/services/requestDeduplicator.ts:110-167 | Every fetch in use stays in the map if and only if the step is not a call that finds an expired entry of a fetch in use, or a clear that hits one. |
| Deduplicator.TimelyDropsNothing | frontend/services/requestDeduplicator.ts:110-147 | In particular if fetches end and are cleaned up within the limit and nothing is cleared. |
| Deduplicator.OneFetchPerKey | frontend/services/requestDeduplicator.ts:110-147 | In every run without such a step no key ever has two fetches in use. |
| Deduplicator.WhenAFetchIsCleaned | frontend/services/requestDeduplicator.ts:127-139 | A fetch that resolves, or rejects with an error, gets its timer, which takes the entry of its key and no other; one that rejects with null or undefined never does. |
| Deduplicator.FailedStartLeavesNothing | frontend/services/requestDeduplicator.ts:110-127 | If the fetch function throws, the caller gets nothing unless there is a reusable entry, and only an outdated entry goes. |
| Deduplicator.FetchesAdvance | frontend/services/requestDeduplicator.ts:127-139 | Every fetch keeps its key and start, and settles and is cleaned up at most once. |
| Deduplicator.WhenYoungFetchesFallOut | frontend/services/requestDeduplicator.ts:110-167 | A fetch in use and younger than the limit falls out of the map if and only if the step is a stray timer or a clear on its entry, or a longer limit that makes one outside the map young again. |
| Deduplicator.OneYoungFetchPerKey | frontend/services/requestDeduplicator.ts:110-147 | In every run without such a step no key ever has two young fetches in use, however late fetches end. |
| Deduplicator.WhenCallsDuplicate | frontend/services/requestDeduplicator.ts:110-147 | A call starts a second young fetch of a key exactly if one is young and the entry for it cannot be used. |
| Deduplicator.StrayTimer | frontend/services/requestDeduplicator.ts:131-137 | A timer removes another fetch's entry exactly when a newer fetch of the key has taken it. |
| Deduplicator.StrayTimerDuplicates | frontend/services/requestDeduplicator.ts:131-137 | A run in which such a timer lets two fetches for one key run at once. |
| RetryLoop.Request | frontend/lib/api.ts:64-148 | Between one and the allowed number of fetches, all but the last transient failures, one wait after each of those, and the outcome of the last, by its status and body: data, an unreadable body, or an error with that status and wait; none at all when no attempt is allowed. |
| RetryLoop.WhenTransient | frontend/lib/api.ts:54-56 | Tried again are no reply at all, five statuses, and every status from 500 on. |
| RetryLoop.WhenAWaitIsAsked | frontend/lib/api.ts:91-92 | A positive Retry-After is taken from the header, and from the body only without a header. |
| RetryLoop.StopsOnce | frontend/lib/api.ts:75-147 | Replies and limit alone decide where the loop stops. |
| RetryLoop.WaitsHonourRetryAfter | frontend/lib/api.ts:91-128 | A wait is never shorter than a positive Retry-After or the backoff, never longer than both, and without Retry-After never longer than the cap. |
| RetryLoop.BackoffBounds | frontend/lib/api.ts:58-62 | Each backoff lies between three quarters of the capped exponential, rounded, and the cap. |
| RetryLoop.ExponentialDoubles | frontend/lib/api.ts:58-62 | The exponential starts at the base and doubles until it meets the cap. |
| RetryLoop.JitterIsCentred | frontend/lib/api.ts:58-62 | The middle random number leaves it as it is, and a larger one never waits less. |
| RetryLoop.BackoffGrows | frontend/lib/api.ts:58-62 | With the same random number a later attempt never waits less. |
| RetryLoop.TotalBackoffBounds | frontend/lib/api.ts:58-62 | In sum the backoffs stay below the cap per wait and below 1.25 of the geometric series plus half a millisecond each. |
| RetryLoop.TotalWait | frontend/lib/api.ts:126-128 | Both bounds hold of the waits of a whole request without Retry-After. |
| Ownership.WhenTransferred | frontend/services/certificateOwnershipService.ts:49-60 | A transfer goes through exactly if the recorded (or, without a record, the assumed) owner asks for it, to another address of the right letters, and it is saved; each refusal exactly when; then only that certificate's owner changes, otherwise nothing. |
| Ownership.ReplayIsLast | frontend/services/certificateOwnershipService.ts:32-40 | Replaying a log gives each certificate the recipient of its last transfer. |
| Ownership.TransferKeepsConsistent | frontend/services/certificateOwnershipService.ts:42-78 | Every attempt keeps index and log in agreement and every certificate's log a chain of custody. |
| Ownership.LedgerAlongRuns | frontend/services/certificateOwnershipService.ts:32-78 | After any sequence of attempts from an empty store: chain, index equal to the replay, and the owner shown is the newest history entry's recipient. |
| LatestWins.StepKeepsInv | frontend/hooks/useRetryable.ts:25-50 | Each step applies at most one result, and then the newest run's, after all earlier ones. |
| LatestWins.LatestLoadWins | frontend/hooks/useRetryable.ts:25-41 | For any order of finishing: applied ids increase, loading holds exactly while the newest load runs, and once it is over its result is what is shown. |
| LatestWins.FinishOrderDoesNotMatter | frontend/hooks/useRetryable.ts:25-41 | Two runs without reset whose newest loads ended alike show the same error and, on success, the same data. |
| LatestWins.FailuresKeepData | frontend/hooks/useRetryable.ts:25-41 | In every run the data shown is that of the last success applied: failures, even the newest load's, take none away. |
| LatestWins.WhatStepsShow | frontend/hooks/useRetryable.ts:25-48 | Starting a load, or the end of an older one, leaves data and error as they are; the end of the newest shows its result; a reset takes the error alone. |
| OfflineCache.LocalStorage.PruneStaleEntries | frontend/hooks/useOfflineCache.ts:127-147 | The two loops remove exactly the keys found stale, leaving the rest in order. |
| OfflineCache.LocalStorage.ClearPersistedEntries | frontend/hooks/useOfflineCache.ts:153-168 | Removes every unprotected cache key and nothing else. |
| OfflineCache.LocalStorage.RemoveAll | frontend/hooks/useOfflineCache.ts:143-146 | Removing keys one by one is removing the set of them. |
| OfflineCache.LocalStorage.SyncCacheVersion | frontend/hooks/useOfflineCache.ts:177-191 | A version other than the stored one clears the cache and leaves a marker. |
| OfflineCache.LocalStorage.Hydrate | frontend/hooks/useOfflineCache.ts:224-241 | The loop loads one entry per current item, in order. |
| OfflineCache.PruneIsExact | frontend/hooks/useOfflineCache.ts:127-147 | What is left is exactly what was there and is not a prefixed, unprotected item that is unreadable or older than the cutoff. |
| OfflineCache.WhichItemsStay | frontend/hooks/useOfflineCache.ts:127-147 | An item stays exactly if it lacks the prefix, or holds an entry that is not older than the maximal age or has no date. |
| OfflineCache.OrderIsKept | frontend/hooks/useOfflineCache.ts:127-147 | What stays keeps its order. |
| OfflineCache.WhatTheVersionCheckDoes | frontend/hooks/useOfflineCache.ts:177-191 | If the marker holds exactly the current version nothing changes; otherwise every prefixed item goes, nothing else does, and the marker is set. |
| OfflineCache.ProtectedItemsSurvive | frontend/hooks/useOfflineCache.ts:127-168 | Unprefixed and protected items survive version check and pruning. |
| OfflineCache.LoadsAreSurvivors | frontend/hooks/useOfflineCache.ts:218-241 | After pruning, hydration loads exactly the surviving entries whose key holds JSON. |
| OfflineCache.MountMembers | frontend/hooks/useOfflineCache.ts:177-241 | A mount leaves what the version check left and pruning spared; after an invalidation at most the marker is left of the cache. |
| OfflineCache.EveryMountClearsTheCache | frontend/lib/pwa.ts:184 | `getCacheVersion` is async and is not awaited, so the stored version never equals it: every mount clears the cache and loads nothing. |
| OfflineCache.WhenTheMarkerSurvives | frontend/hooks/useOfflineCache.ts:38-45 | With a version text as intended, the next mount keeps the cache exactly when that text itself parses as a value without an old date, because the marker shares the cache's prefix. |
| Codec.EncodeAt | frontend/components/ContentHashCalculator.tsx:87-91 | Printed hex has two lower-case digits for each byte, high half first. |
| Codec.ToBytes | frontend/services/teeAttestationService.ts:181-188 | The loop fills an array of half the stripped length, every element read by `parseInt` from its pair. |
| Codec.RoundTrip | frontend/services/teeAttestationService.ts:181-188 | Decoding what the other file prints gives the bytes back. |
| Codec.DecodeEncode | frontend/services/teeAttestationService.ts:181-188 | Also when the printed hex was broken up by white space in any way. |
| Codec.SpacesDoNotMatter | frontend/services/teeAttestationService.ts:182 | White space inserted anywhere, even inside a pair, changes nothing. |
| Codec.EncodeDecode | frontend/services/teeAttestationService.ts:181-188 | Encoding again gives the lower-case text without white space if and only if that text has an even number of units, all hex digits (RFC 4648, section 8). |
| Codec.NotHexStillDecodes | frontend/services/teeAttestationService.ts:184-186 | Other text is not refused: a minus sign, foreign letters and a lone last digit decode to something. |
| Codec.SameHashSameBytes | frontend/services/teeAttestationService.ts:109-112 | For hex texts, equal normal forms means equal bytes. |
| Codec.ApprovalComparesBytes | frontend/services/teeAttestationService.ts:97-122 | An enclave image is approved exactly when its PCR0 has the bytes of some approved hash, and the result prints those bytes. |
| Codec.MergeChunks | frontend/components/ContentHashCalculator.tsx:93-101 | The merged buffer is the chunks in order, then zeros; `set` throws exactly when they hold more than the total. |
| Codec.CalculateHash | frontend/components/ContentHashCalculator.tsx:45-85 | What the SHA-512 path hashes is the file itself, for every size; progress rises by one chunk at a time and ends at the whole file. |

## Left out

- React rendering, effects' scheduling and state batching: a setter takes effect at once; the proactive refresh timer is a
  refresh call, which the model allows at any time.
- Real clocks and timers: time is a number that steps advance, a timer a step that may happen once it is due or later.
- `fetch`, `localStorage`, Cache Storage, the JSON files and MongoDB themselves: requests and replies are steps that may be
  lost, stores are maps and lists. JSON is a trusted codec and plain objects are maps without prototype keys.
- Hash functions, signatures, certificate chains and random tokens: SHA-512 is a parameter, tokens come from a counter and
  never collide.
- Subjects, roles and credentials of auth sessions, which are constant per session.
- `If-Match` checks of upload updates, file names and MIME types, and the normalisation of creators (`trim`, upper case);
  a creator stands for its normal form.
- UploadSessions.Started: a deleted data directory is not modelled; records are never removed.
- AuthSignOut.WhenSignOutHolds: the two requests and the reply are handled one after the other at one moment; the statement
  without that restriction is `AuthSignOut.DeleteEndsSession`.
- UploadClient.SeriesWork: a report of an earlier attempt that lands while a later attempt runs is not modelled, only one that
  lands between two.
- UploadClient.UploadMissingChunks: progress callbacks are left out; what a transport or a look at the abort signal comes to is
  chosen freely and recorded.
- UploadOpening.Client.OpenUploadSession: one instant serves all calls of an opening, and storage that refuses the remembered
  id is not modelled.
- UploadOpening.SessionStore.StartOrResume: stated for a start without interruption; its pieces interleaved with other
  requests are `UploadSessions.StepKeepsOneLive`.
- Dispatcher.WhenHandled: paths are lists of segments and admin tokens are compared as whole strings; query strings and the
  health handlers' own checks are not modelled.
- Reason and note texts of access requests are checked for type and length but not stored; handlers for jobs, webhooks,
  maintenance, verification progress and metrics, and `readJson`, are not modelled.
- RetryLoop.Request: milliseconds are exact reals, an abort signal and `onRetry` callbacks are left out, and error messages
  are reduced to status and Retry-After.
- `createDedupFunction`, which only computes a key, and the statistics and logging of the deduplicator.
- OfflineCache.MountMembers: the mount effect is taken to happen at one instant, storage exceptions and the subscription that
  writes entries are left out, and the index order of storage is taken to be stable under reading.
- Codec.ApprovalComparesBytes: `toLowerCase` is modelled on ASCII letters; no other character has a hex digit for its lower
  case. The other stages of attestation, and the SHA-256 path of the hash calculator, are left out.
- `frontend/services/attestationPipelineService.ts`: combining six verdicts of other services into one decision.
- `frontend/lib/tracked-jobs.ts` and `frontend/lib/verificationHistory.ts`: lists in storage that keep the newest entries up
  to a limit; `frontend/lib/analytics.ts`: sending usage events at most so often.
- `frontend/services/certificateVerificationService.ts` and `frontend/services/emailNotificationService.ts`: stand-ins that
  return canned answers.
- `frontend/public/sw.js`: its size limit does not hold across interleavings, because the write is not awaited.
