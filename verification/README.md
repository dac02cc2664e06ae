# A verified model of the sync server's stateful cores

This project models the parts of the server in which state, interleaving or
encoding make correctness hard to see, and proves what each of them is for:

- the leased background-job queue and its single-flight workers,
- the multipart upload of blobs, with its completion lease,
- sessions and credentials: refresh-token rotation, credential epochs, and the
  one-time exchange of pairings and device codes,
- Base32 secrets on a wrapping 32-bit register,
- the signed canonical JSON of backups, its printer and parser, and the
  manifest reader,
- the inventory of backup runs, effective entitlements, audit pagination,
  administrator roles and registration invitations.

## How it is modelled

One database transaction is one atomic step. A service is a class whose fields
are the rows it updates; every method is proved to do exactly what a
specification function of the same transaction says (`Jobs`, `AuthRows`, `Blobs`,
`Inventory.Step`, `Invitations.Step`, `AdminRoles.Refusal` and `Effect`). The
protocol modules (`JobProtocol`, `AuthProtocol` with `AuthSafety`,
`BlobProtocol`, and the run sections of `Inventory`, `Invitations` and
`AdminRoles`) take these functions as the steps of a transition system in which
any number of callers interleave, stall and crash between their transactions, and
prove properties of every state of every run. `IsRun(states, events)` says that
each state follows from the one before by an enabled event. Fields called history
(`log`, `moves`, `paid`, `issued`, `owner`, `root`) only record what happened.

Time is an integer. In the runs of jobs, authentication, invitations, roles and
inventory every step may find the clock at any time, so several clocks, skew and
stalls between reading a clock and using it are covered. The runs of blobs have one
clock that never goes back, and a claim may write a reading of any age. Random
tokens and new ids are fresh values; hashes, signatures and authenticated
encryption are injective constructors. What the code reads from outside (clock, draws, the content of
uploaded parts, whether a row is locked elsewhere, whether a handler throws) is a
parameter. Absent or null columns are `Option`, thrown errors are error values.

Properties that fail for some inputs are stated with their exact condition and
with an input or run on which they fail: audit pages (`AuditPages`), ready blobs
and stale releases (`BlobProtocol`), sign-ins without an expected epoch
(`AuthSafety`), the inventory comparison for manifests that repeat a path
(`Inventory`), and the order of grants whose limits bear inherited names
(`Entitlements`).

Where the code and its comments disagree, the code is followed: the import of a
verified manifest is documented to accept only an empty, preparing or identical
ready run, but takes a run in any state whose generation matches
(`Inventory.ImportTakesAnyState`, `Inventory.CancelledRunIsImported`).

## Modules

| module | content |
|---|---|
| `Common` | options, results, sums over finite maps |
| `Jobs`, `JobProtocol`, `JobWorker` | job rows and service, runs of many workers, the worker |
| `AuthRows`, `AuthProtocol`, `AuthSafety`, `AuthServices` | rows and transactions, interleavings, what holds in every run, the services |
| `BlobParts`, `Blobs`, `BlobProtocol` | part arithmetic, rows and service, runs of many clients |
| `Base32` | the bit-string reference and the two register loops |
| `JsonText`, `JsonValues`, `CanonicalJson`, `Manifest` | strings and numbers, printer and parser, canonical form, manifest reader |
| `Inventory` | runs, artifacts, comparison with a manifest |
| `Entitlements` | merging subscription and grants |
| `AuditPages` | keyset pagination |
| `AdminRoles`, `Invitations` | role changes, invitations |

## Model

| member | source | states |
|---|---|---|
| JobProtocol.ReportsAreFenced | apps/server/src/jobs/service.ts:106-133 | In every interleaving of single-flight workers a report is accepted exactly when its worker holds the latest, still running attempt; otherwise no row changes. |
| JobProtocol.OneLatestHolder | apps/server/src/jobs/service.ts:81-103 | At most one worker at a time can still change a given job. |
| JobProtocol.RetryBudget | apps/server/src/jobs/service.ts:74-103 | A job is handed out at most `maxAttempts` times over the whole run, its attempt counts the hand-outs, and a pending job has attempts left. |
| JobProtocol.SuccessIsFinal | apps/server/src/jobs/service.ts:106-112 | After an accepted success the job is succeeded for ever and no later report on it is accepted. |
| JobProtocol.AttemptsOnlyGrow | apps/server/src/jobs/service.ts:81-103 | Attempt numbers never decrease and terminal states are never left. |
| JobProtocol.NoJobIsLost | apps/server/src/jobs/service.ts:36-104 | A job that was enqueued keeps its row and its work; unfinished, it is from some time on either claimable by every worker of its type, version and generation, or due to be dead-lettered with its budget spent. |
| JobProtocol.MovesConsumeWeight | apps/server/src/jobs/service.ts:74-133 | Every claim, failure, success, dead letter and re-claim strictly lowers one measure over the whole queue. |
| JobProtocol.RetriesTerminate | apps/server/src/jobs/service.ts:74-133 | Over a run the queue makes at most as many transitions as the budgets of its jobs allow. |
| JobProtocol.ClaimSpecification | apps/server/src/jobs/service.ts:63-104 | A claim dead-letters exactly the spent non-live unfinished jobs and hands out an eligible job with least schedule time whenever there is one, of listed type, own generation and no newer handler version; other rows stay. |
| JobProtocol.RunInv | apps/server/src/jobs/service.ts:36-133 | Every reachable queue satisfies the row, fencing and log invariants. |
| Jobs.BackgroundJobService.Enqueue | apps/server/src/jobs/service.ts:36-61 | Same type and key return the existing job when the request hash agrees and a conflict when it does not; invalid contracts change nothing. |
| Jobs.BackgroundJobService.Claim | apps/server/src/jobs/service.ts:63-104 | Both statements of a claim, as the specification of terminalise and lease says. |
| Jobs.BackgroundJobService.Succeed | apps/server/src/jobs/service.ts:106-112 | Accepted exactly for the locked, running row; then that row is succeeded and nothing else changes. |
| Jobs.BackgroundJobService.Fail | apps/server/src/jobs/service.ts:114-124 | Accepted exactly for the locked, running row, which becomes pending after the delay or dead with its budget spent. |
| Jobs.BackgroundJobService.DeadLetterJob | apps/server/src/jobs/service.ts:126-133 | Accepted exactly for the locked, running row, which becomes a dead letter. |
| JobWorker.RetryDelaySeconds | apps/server/src/jobs/worker.ts:112-115 | The delay lies between the capped exponential base and a quarter above it. |
| JobWorker.BackOffGrows | apps/server/src/jobs/worker.ts:112-115 | Later attempts never wait less, and from the ninth on the base is an hour. |
| JobWorker.BackgroundJobWorker.Begin | apps/server/src/jobs/worker.ts:74-86 | A second call while one is pending is turned away without touching the queue. |
| JobWorker.BackgroundJobWorker.Finish | apps/server/src/jobs/worker.ts:88-108 | The handler's result becomes success, retry or dead letter of the held job, and the guard opens. |
| AuthSafety.OneLiveTokenPerDevice | apps/server/src/auth/service.ts:161-206 | In every reachable state a device has at most one refresh token neither rotated nor revoked, and every token belongs to its device's account. |
| AuthSafety.OneSessionPerTicket | apps/server/src/auth/device-authorization-service.ts:121-186 | Each device code and pairing gives at most one session over the run, is held by at most one exchange, and while it is open for exchange nobody holds it and it gave none. |
| AuthSafety.PasswordChangeIsFinal | apps/server/src/auth/service.ts:373-433 | After a committed password change no access token, refresh token, pairing, approved code or epoch-bound sign-in issued before is honoured at any later point of the run. |
| AuthSafety.SignInsThatOutliveAChange | apps/server/src/auth/service.ts:590-598 | Of the sign-ins in progress for an account right after a password change, one that reaches its last transaction at any later point of the run gets a session if and only if it carries no expected epoch and its account and device are active then. |
| AuthSafety.SignInsRightAfterAChange | apps/server/src/auth/service.ts:373-433 | In the step after the change that is the case exactly for sign-ins without an expected epoch after a change from a device, with account and device active before it; a change on the web admits none. |
| AuthSafety.ReissueAfterLaterChange | apps/server/src/auth/service.ts:373-405 | Of two password changes on a device the first still re-issues its session after the second. |
| AuthSafety.ReissueRun | apps/server/src/auth/service.ts:373-405 | A complete run from the empty database on which that happens. |
| AuthSafety.ReplayOrReuse | apps/server/src/auth/service.ts:251-343 | While a rotated token is still accepted at all, repeating it with its recorded request returns the very session first issued and changes nothing; every other repetition, and every one when no request was recorded, revokes the device and all its tokens. |
| AuthSafety.LockedUntilSignIn | apps/server/src/auth/service.ts:289-301 | A device locked by reuse gets no session by refreshing, in any later state, until it signs in again. |
| AuthSafety.ClosedTicketsNeverPay | apps/server/src/auth/device-authorization-service.ts:101-119 | A denied or cancelled code, or a removed pairing, that no exchange holds gives no session at any later point of the run. |
| AuthSafety.CancellingCloses | apps/server/src/auth/device-pairing-service.ts:69-78 | Cancelling an open pairing, or denying or cancelling an open code, closes it in that sense. |
| AuthSafety.RunInv | apps/server/src/auth/service.ts:161-433 | Every reachable state satisfies the token, ticket and issue invariants. |
| AuthProtocol.TokenStep | apps/server/src/auth/service.ts:251-350 | A step never removes a token row, never un-revokes or re-rotates one, and a recorded rotation keeps answering for its own row. |
| AuthServices.AuthService.CreateDeviceSession | apps/server/src/auth/service.ts:161-206 | The device is created or reclaimed by its own account, previous tokens of the device are revoked, and a session under the current epoch is issued; a refusal changes nothing. |
| AuthServices.AuthService.RefreshToken | apps/server/src/auth/service.ts:251-343 | Rotation, crash-recovery replay and reuse revocation, with the revocation committed before the error. |
| AuthServices.AuthService.IsDeviceActive | apps/server/src/auth/service.ts:352-371 | An access token is accepted exactly for an active account, an unrevoked own device, the current epoch and an accepted instance epoch. |
| AuthServices.AuthService.CommitPassword | apps/server/src/auth/service.ts:391-404 | Epoch moved, all tokens revoked, open pairings dropped; rolled back when the device is no longer active. |
| AuthServices.AuthService.CommitWebPassword | apps/server/src/auth/service.ts:407-433 | Epoch moved, devices and tokens revoked, open pairings dropped. |
| AuthServices.AuthService.RevokeOwnDevice | apps/server/src/auth/service.ts:521-532 | The own device and all its tokens are revoked. |
| AuthServices.DevicePairingService.Exchange | apps/server/src/auth/device-pairing-service.ts:80-117 | Consume, act, compensate: a failed sign-in gives the pairing back, a pairing of another epoch is removed. |
| AuthServices.DeviceAuthorizationService.Approve | apps/server/src/auth/device-authorization-service.ts:61-99 | A pending code is bound to the approving account and its current epoch; repeating the approval is harmless. |
| AuthServices.DeviceAuthorizationService.Exchange | apps/server/src/auth/device-authorization-service.ts:121-186 | Consume, act, compensate for an approved code, with the error of its state otherwise. |
| BlobParts.PartsTile | apps/server/src/blobs/service.ts:408-413 | Exactly the numbers 1 to the part count name parts; each is positive and full but for the last, and ends where the next begins. |
| BlobParts.EveryByteInOnePart | apps/server/src/blobs/service.ts:408-413 | Every offset of the blob lies in exactly one part. |
| BlobParts.TilingSum | apps/server/src/blobs/service.ts:408-413 | The part sizes add up to the blob. |
| BlobParts.PartLimit | apps/server/src/config.ts:311-313 | An upload needs at most 10000 parts exactly when its size is at most 10000 full parts. |
| BlobParts.PartsTestImpliesSumTest | apps/server/src/blobs/service.ts:243-252 | The per-part test at completion implies the separate sum test. |
| BlobParts.TestMeansComplete | apps/server/src/blobs/service.ts:243-252 | Both tests together accept exactly the uploads that hold every part at its size. |
| BlobParts.ReceivedBounds | apps/server/src/blobs/service.ts:182-196 | What is received never exceeds the blob and reaches its size exactly when every part is there. |
| Blobs.BlobService.CreateUpload | apps/server/src/blobs/service.ts:26-145 | Refused, already there, resumed, or a new upload in place of a stale one; never breaks a sound blob. |
| Blobs.BlobService.WritePart | apps/server/src/blobs/service.ts:151-198 | Succeeds exactly for an active upload and a part of the right size; the received size is the sum of the parts. |
| Blobs.BlobService.VerifyContent | apps/server/src/blobs/service.ts:243-275 | Accepts only complete uploads whose stored content has the recorded hash; a mismatch discards rows and content. |
| Blobs.BlobService.Complete | apps/server/src/blobs/service.ts:200-295 | Success means a ready, sound blob, also when repeated; a failure after the claim gives the claim back. |
| BlobProtocol.OneLeaseHolder | apps/server/src/blobs/service.ts:213-226 | In every run, however long claims stall behind their clock readings, at most one completer of an upload holds a lease that still runs. |
| BlobProtocol.RunningLeaseIsNotCleared | apps/server/src/blobs/service.ts:289-294 | While a completer's lease runs, no release of another completer changes any row. |
| BlobProtocol.ClaimsAreALeaseApart | apps/server/src/blobs/service.ts:213-225 | Over a run, successive claims of one upload are more than a lease apart unless a release gave the claim back in between. |
| BlobProtocol.PromptClaimTimesDiffer | apps/server/src/blobs/service.ts:213-226 | As long as no claim runs more than a lease after its clock reading, no two completers of an upload have the same claim time. |
| BlobProtocol.PromptReleaseIsHarmless | apps/server/src/blobs/service.ts:289-294 | Then no release clears the claim of another completer, running or not. |
| BlobProtocol.ReleasesAreSafeIffClaimsPrompt | apps/server/src/blobs/service.ts:213-294 | For every bound on that delay: releases never clear another completer's claim in any run within the bound if and only if the bound is at most a lease. |
| BlobProtocol.LateClaimIsCleared | apps/server/src/blobs/service.ts:289-294 | For every configuration and size of one part: a run of eleven steps on which a claim one millisecond later than that is cleared by a stale release. |
| BlobProtocol.LeaseExpires | apps/server/src/blobs/service.ts:216-225 | A crashed completer blocks nobody for longer than its lease. |
| BlobProtocol.ReceivedInEveryRun | apps/server/src/blobs/service.ts:167-196 | In every run of part uploads and re-uploads the received size is the sum, bounded by the blob, full exactly with all parts, and within the part limit; a completed upload is whole. |
| BlobProtocol.CommitsSafeIffInsertsHarmless | apps/server/src/blobs/service.ts:99-111 | At every point of a run all completers that have verified may commit soundly if and only if no creating transaction replaced the hash of a row under a completer between its verification and its commit. |
| BlobProtocol.ReadyIsSound | apps/server/src/blobs/service.ts:213-294 | With any number of completers, takeovers and re-created uploads a ready blob has its content under its hash as long as creating transactions are harmless in that sense. |
| BlobProtocol.LateInsertBreaksReady | apps/server/src/blobs/service.ts:99-111 | For every configuration, size and content of one part: a run of eleven steps on which a late insert makes a ready blob unsound. |
| Base32.DecodeEncode | apps/server/src/auth/totp-service.ts:55-86 | Decoding what was encoded gives back every byte sequence, whatever upper-casing does to characters outside the alphabet. |
| Base32.EncodedBits | apps/server/src/auth/totp-service.ts:55-69 | The letters carry exactly the bits of the bytes and fewer than five zero bits behind them. |
| Base32.EncodeBase32 | apps/server/src/auth/totp-service.ts:55-69 | The loop on the unmasked wrapping register writes the reference encoding. |
| Base32.DecodeBase32 | apps/server/src/auth/totp-service.ts:71-86 | The loop on the unmasked wrapping register computes the reference decoding of the upper-cased text, for any upper-casing, and refuses exactly the texts with a foreign character. |
| Base32.ShiftInAppends | apps/server/src/auth/totp-service.ts:60 | Shifting left and or-ing new bits in, wrap-around or not, appends them to the low bits. |
| JsonText.StringReadsBack | apps/server/src/backup/verification.ts:175 | Every string is read back unit by unit through its escapes, unpaired surrogates included. |
| JsonText.NumberReadsBack | apps/server/src/backup/verification.ts:175 | Every integer is read back in front of any separator. |
| JsonText.DecimalIsDigits | apps/server/src/backup/verification.ts:203 | An accepted decimal text is what its number prints to. |
| JsonValues.ParsePrint | apps/server/src/backup/verification.ts:174-179 | Parsing a printed value, with white space behind it or not, gives back the value. |
| CanonicalJson.CanonicalIffSame | apps/server/src/backup/verification.ts:174-179 | Two values have one canonical text if and only if they are equal up to the order of properties at every depth. |
| CanonicalJson.CanonicalReadsBack | apps/server/src/backup/verification.ts:174-179 | Reading a canonical text gives the same value, whose canonical text is the text read. |
| Manifest.ParseManifest | apps/server/src/backup/verification.ts:104-136 | The loop over the artifacts with its set of paths computes the reader's result, first error first. |
| Manifest.ReaderRebuildsSignedRecord | apps/server/src/backup/filesystem-writer.ts:90-105 | From the text the writer stores the reader rebuilds exactly the record that was signed. |
| Manifest.AnyPropertyOrder | apps/server/src/backup/verification.ts:104-136 | A file with the same properties in any order is read as the same record. |
| Manifest.SignedTextDeterminesRecord | apps/server/src/backup/verification.ts:84 | Valid manifests have equal signed texts if and only if they are equal. |
| Manifest.OnlyValidAccepted | apps/server/src/backup/verification.ts:104-136 | The reader accepts only valid records, in particular no path twice. |
| Manifest.VerifyArtifacts | apps/server/src/backup/verification.ts:86-96 | Accepts exactly the packages in which every artifact is a regular file of its size and digest, names the first that is not, and sums the sizes. |
| Manifest.WrittenPackageVerifies | apps/server/src/backup/filesystem-writer.ts:70-105 | A backup as written verifies: the reader rebuilds the signed record, every artifact matches the file copied for it, and the sizes add up to the bytes copied. |
| Inventory.AcceptsExactlyEqual | apps/server/src/backup/inventory-service.ts:179-191 | For manifests without repeated paths the comparison accepts exactly when stored and manifest artifacts are equal as finite maps; an accepted manifest equals the inventory if and only if it repeats no path. |
| Inventory.RepeatedPathSlipsThrough | apps/server/src/backup/inventory-service.ts:179-191 | A repeated artifact can stand in for a missing one. |
| Inventory.AssertSameInventory | apps/server/src/backup/inventory-service.ts:179-191 | The loop decides that comparison, sizes compared as decimal texts. |
| Inventory.ReadyIsFrozen | apps/server/src/backup/inventory-service.ts:21-143 | Once ready, a run keeps status, generation, manifest reference, summary and artifacts through every later operation. |
| Inventory.ReadyRunsAreComplete | apps/server/src/backup/inventory-service.ts:32-57 | In every run from an empty inventory artifacts are well formed and a ready run has artifacts and a manifest reference. |
| Inventory.ManifestGate | apps/server/src/backup/inventory-service.ts:147-163 | The gate opens exactly for the ready run with this reference and exactly these artifacts. |
| Inventory.ImportedManifestMatchesForever | apps/server/src/backup/inventory-service.ts:87-143 | An imported manifest passes the gate in every later state. |
| Inventory.ImportTakesAnyState | apps/server/src/backup/inventory-service.ts:80-143 | Into a run that is not ready, whatever its state, a valid import succeeds exactly when the generation agrees and no other artifacts are recorded. |
| Inventory.CancelledRunIsImported | apps/server/src/backup/inventory-service.ts:73-143 | A run begun and then cancelled becomes ready by an import. |
| Inventory.BackupInventoryService.ImportVerifiedManifest | apps/server/src/backup/inventory-service.ts:87-143 | The import step by step, with every error rolled back. |
| Inventory.BackupInventoryService.AssertManifestMatches | apps/server/src/backup/inventory-service.ts:147-163 | Decides the manifest gate. |
| Entitlements.GetEffective | apps/server/src/billing/service.ts:58-86 | The fold over subscription and grants; an unreadable document, or a limit that is compared with an inherited function, fails the call. |
| Entitlements.LimitMeaning | apps/server/src/billing/service.ts:187-198 | A limit is stated when some source states it; it is unlimited when one says so, else the greatest value stated, numbers and texts mixed. |
| Entitlements.FeatureMeaning | apps/server/src/billing/service.ts:187-190 | A feature is listed when some source lists it and on when some source turns it on. |
| Entitlements.ValidityMeaning | apps/server/src/billing/service.ts:200-204 | The validity is the latest end among the sources, or none when one has none. |
| Entitlements.OrderIrrelevant | apps/server/src/billing/service.ts:58-86 | Any two orders of the same grants that succeed give the same features, limits, schema version, source and validity. |
| Entitlements.EveryOrderSucceedsIffNoTrap | apps/server/src/billing/service.ts:187-198 | Readable grants merge in every order if and only if none sets a number under an inherited name that the subscription leaves open. |
| Entitlements.OrderCanMatter | apps/server/src/billing/service.ts:195-198 | Under an inherited name null before a number merges, and the number first raises an error. |
| Entitlements.OneMoreGrant | apps/server/src/billing/service.ts:70-76 | One more grant fails exactly when it is unreadable or sets a number under an inherited name no source has stated. |
| Entitlements.GrantsOnlyWiden | apps/server/src/billing/service.ts:70-76 | A grant that merges turns no feature off, lowers no stated limit, and shortens no validity of an entitled account. |
| AuditPages.PagesAreTheList | apps/server/src/admin/service.ts:775-821 | For each page size the pages put together are the whole ordered list if and only if every page end can be told from the row behind it. |
| AuditPages.EveryPageSizeIffToldApart | apps/server/src/admin/service.ts:908-924 | Every page size is complete if and only if all neighbouring rows differ in their millisecond, or the later one is a whole millisecond with a smaller id. |
| AuditPages.WholeMillisecondsSuffice | apps/server/src/admin/service.ts:775-821 | With whole milliseconds nothing is lost or repeated at any page size. |
| AuditPages.MicrosecondsLoseRows | apps/server/src/admin/service.ts:908-910 | Two entries within one millisecond: the second is on no page. |
| AdminRoles.AlwaysAnAdministrator | apps/server/src/admin/service.ts:613-663 | From installation onward every run of batch suspend and resume, promote, demote and deletion keeps an active administrator. |
| AdminRoles.RefusalsAreExact | apps/server/src/admin/service.ts:849-889 | An otherwise acceptable operation is refused for the last administrator exactly when it would leave none. |
| AdminRoles.AccountService.BatchSetAccountsSuspended | apps/server/src/admin/service.ts:613-663 | All accounts of the batch change together or none does, with the error of the first failing check. |
| AdminRoles.AccountService.SetAccountAdmin | apps/server/src/admin/service.ts:840-889 | Promotion and demotion, guarded by another active administrator. |
| AdminRoles.AccountService.RequestAccountDeletion | apps/server/src/auth/service.ts:491-511 | Deletion is refused exactly for an administrator without another active one. |
| AdminRoles.AccountService.constructor | apps/server/src/installation/service.ts:121-146 | Installation leaves one account, its active administrator. |
| Invitations.UsesAreAccounts | apps/server/src/invitations/service.ts:86-122 | In every run the use count is the number of accounts created through the invitation, at most its limit; rolled-back attempts count nothing. |
| Invitations.OneLivePerChain | apps/server/src/invitations/service.ts:160-200 | Along a chain of replacements at most one invitation is live. |
| Invitations.OneAccountPerBoundChain | apps/server/src/invitations/service.ts:160-200 | The uses along the chain of a bound address sum to at most one. |
| Invitations.ReplacementsShareRoot | apps/server/src/invitations/service.ts:173-178 | A replacement belongs to the chain of what it replaces and keeps its address. |
| Invitations.InvitationService.Accept | apps/server/src/invitations/service.ts:86-122 | Counts a use and creates an account, or changes nothing, also when the account fails after the count. |
| Invitations.InvitationService.ReplaceAndSend | apps/server/src/invitations/service.ts:160-200 | Revokes the live bound invitation and inserts its successor in one step. |

## Left out

- AuthSafety.PasswordChangeIsFinal: sign-ins that carry no expected epoch (registration, and the session re-issued after a password change) are not covered, because the code lets them through; AuthSafety.SignInsThatOutliveAChange says exactly when.
- BlobProtocol.ReadyIsSound: holds under its proviso on creating transactions, because the commit re-checks neither lease nor hash; BlobProtocol.CommitsSafeIffInsertsHarmless shows that the proviso is exact. Assembling, digesting and deleting on a mismatch are one step.
- JobProtocol.ReportsAreFenced: workers run without a maintenance coordinator, whose await opens the single-flight guard.
- JsonText.NumberReadsBack: agrees with JavaScript for integers up to 2^53 - 1 in absolute value; larger ones, which JavaScript rounds and from 1e21 on prints with an exponent, are digit strings here, and fractions and exponents are refused by the model's parser.
- CanonicalJson.CanonicalIffSame: numbers are integers, with the same limit on what JavaScript can hold.
- Manifest.ReaderRebuildsSignedRecord: which texts `Date.parse` accepts is a parameter; reading files, size limits and the verification of signatures are not modelled.
- The six-digit truncation and the time window of second-factor codes, and the encryption of their secrets.
- Jobs: categories, payloads and actors of jobs, and cancellation by a restore.
- Concurrent part uploads at read-committed isolation: one transaction is one step, so two sums cannot overwrite each other.
- Blob abort, maintenance clean-up of expired uploads, usage reservations, storage capacity, sync epochs and range reads.
- Device names, keys and platforms, second factors, risk checks and usage limits: an operation may be refused at any of its steps instead.
- Reading the columns of a cached refresh session back from text; the cached value itself is checked as in the source.
- Web sessions, password reset by e-mail, compliance deletion and the restore command line.
- Errors reported by the database after a commit took effect.
- Rows and columns of the inventory that nothing decides on: artifact kinds, source references, checkpoints and error codes.
- The query that selects live grants, documents whose limits are arrays that print like numbers, and limits or features named `__proto__`.
- Search filters and offsets of the audit list: pages are taken from the list of matching rows, which does not change meanwhile.
- Mail delivery, audit entries, e-mail normalisation and password hashing around invitations.
- The synchronisation, storage, workspace, usage, risk and maintenance services are not part of this model.
