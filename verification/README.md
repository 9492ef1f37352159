# CertMon: verified model

CertMon renews TLS certificates and delivers them to devices. This project models
the parts of it whose correctness spans many steps, and proves what they promise
for all inputs, all orders of calls and all points at which a process can die.

| module | models | main results |
|---|---|---|
| `SisReply`, `SisReader` | the recogniser of a device's acknowledgement and the loop that reads it | the recogniser accepts exactly a small language; however a reply arrives, the reader keeps it whole |
| `Activation` | delivery of one certificate to one device and the ledger of staged files | the ledger covers every file left behind; verified means everything that it should |
| `DirectBatch`, `DirectHistory` | batches, restart after a crash, whole histories | however a batch ends, nothing private moved before all its devices were probed ready, nor after a stop; nothing is imported twice; every import shows a result after a restart |
| `Rotation` | master-key rotation over the secrets table | any crashes, resumptions and writes in between: every secret still opens, unless a process rotates again after failing at the first write of a rotation |
| `Jobs`, `Identifiers`, `AcmeLog`, `AcmeSteps`, `AcmeStops`, `AcmeOutcomes`, `AcmeOrders` | renewal jobs, identifiers and staging proofs, the ACME orchestrator, whose process may die in any call | stale clients never fork a job; states are entered only right after the cleanup answer that they need; where each call leaves its job; exactly when a production order may be placed |
| `Chain` | chain ordering and the import verdict | order of supply is irrelevant; accepted means that the supplied certificates can be put into a path that passes section 6.1.4 of RFC 5280 and the other conditions, no more and no less; when each code is reported and each trust status given |
| `Accounts` | users, administrators, sessions | an administrator stays; no two users share a name; sessions match the roles and password they started with |
| `UploadList`, `UploadQueue` | the list of devices to upload to and the recording of results | the list is the one its description determines; completed means audited |
| `Backup` | issuances, deletions and backups at once | a backup is closed under reference, and a row without all its files tells who removed them |

A process that can die or meet an error is modelled by a budget of durable writes
(`Rotation`, `UploadQueue`), by the steps at which it dies or a write raises
(`Activation.World`), by a step of the environment (`Backup`), or by the states in
which a call can stop (`AcmeStops`). Answers of devices, certificate authorities, DNS
providers and HTTPS checks are parameters. Reads of the database are taken to
succeed. Encryption is a term that only its key and purpose open, signatures are an
arbitrary relation, and the digest of an identifier list is taken as injective.

## What the proofs found

- **A secret can be lost.** If the very first write of a rotation (the pending key
  file) raises and the process lives on, the new key exists in memory only; a second
  rotation in that process encrypts rows under it, and a crash before the master
  file is replaced leaves those rows under a key that no file holds
  (`Rotation.FirstFailureLosesSecret`; certmon/vault.py:158-169).
  `Rotation.RotateSecrets` says for every run, from every state that runs and live
  failures lead to, exactly when a new process can still read the table;
  `Rotation.RunHistory` shows that nothing is lost in any history in which no process
  rotates again after failing at that first write.
- **Issued without a certificate.** A Cloudflare job parked by an error branch saves no
  cleanup target, and the next clean retry issues it although the authority delivered
  nothing (`AcmeSteps.IssuedWithoutCertificate`; certmon/renewals.py:284-286, 318-330).
  A retry does this exactly when the provider reports nothing and the job has no
  certificate and no saved target of cancelled (`AcmeSteps.RetryIssuesEmptyIff`), and a
  job is issued without a certificate exactly when such a retry issued it
  (`AcmeSteps.IssuedEmptyIff`, and with deaths in between `AcmeStops.RunIssuedEmptyIff`).
- **Staging that leaves no proof.** Only a clean end of issuing stores the proof that
  opens production. A staging job whose cleanup reported errors is issued by the retry,
  with its certificate and without a proof, and production for the same names stays
  refused (`AcmeOutcomes.StagedYetRefused`; certmon/renewals.py:277-293, 388-403).
  `AcmeOutcomes.StagingRequiredIff` says exactly when production is refused.
- **A stale rename keeps a session.** A rename that read the user before another
  administrator changed the roles writes the old roles back and does not revoke
  (`Accounts.StaleRenameKeepsSession`; certmon/auth.py:125-137).
  `Accounts.AccountStore.UpdateUser` says exactly when sessions stay honest.
- **A committed certificate can lose its files.** Completing a job can raise after
  its transaction committed; the compensation then removes the files of a stored
  certificate, and a backup holds the row without them
  (`Backup.CommittedWithoutFiles`; certmon/db.py:642, certmon/external_ca.py:181-192).
  A backed-up row is complete exactly when nothing had touched its files since they
  were made (`Backup.BackedUpComplete`), and otherwise a deletion begun for that
  certificate or its own issuance's raise after the commit is to blame
  (`Backup.WhoRemoved`). Where both were under way, either may have done it
  (`Backup.RaisedYetAsked`).
- **A stop can come too late.** While the results of a batch are audited its status is
  already settled, but it can still be asked to stop: a complete batch may show the
  request (`DirectBatch.ExecuteBatch`; certmon/direct_extron.py:302-310, 365-384).
- The agreement of the path-length rules needs fewer assumptions than one might
  expect: it holds for every chain that `_order_chain` can produce
  (`Chain.PathRulesAgree`).

## Model

| member | source | states |
|---|---|---|
| `SisReply.ExactAckIffReply` | certmon/direct_extron.py:783-801 | the recogniser accepts a byte string if and only if it is CertI1, CertI2, CertX1 or CertX2, as operation and interface demand, alone or after the exact echo of the command (each escape raw, or each as `^[`) with one separator CR, CRLF or CRCRLF, and followed by a non-empty run of CR and LF, for every command without line ends in its body |
| `SisReply.AcceptedIsReply` | certmon/direct_extron.py:791-801 | nothing else is accepted |
| `SisReply.ReplyIsAccepted` | certmon/direct_extron.py:791-801 | all of the language is accepted |
| `SisReply.LinesParse` | certmon/direct_extron.py:784-788 | how the reply's lines determine its text: replacing CRCRLF and CRLF and splitting cuts at one CR, CRLF or CRCRLF |
| `SisReader.ReadResponse` | certmon/direct_extron.py:199-214 | what is read is a prefix of what arrives, within the limit, ended by a final line, the limit or the end, and at most one chunk after the first final line |
| `SisReader.NeverStopsInsideEcho` | certmon/direct_extron.py:211-213 | no buffer that ends before the acknowledgement is complete counts as final |
| `SisReader.ReadKeepsAcknowledgement` | certmon/direct_extron.py:199-214 | however an accepted reply that fits the limit is cut into pieces, what is read is still accepted |
| `SisReader.SisCommandIsCommand` | certmon/direct_extron.py:803-805 | the import command meets the assumption of the two rows above for every staged name without line ends |
| `SisReader.SisCommandText` | certmon/direct_extron.py:803-805 | the import command, written out as text for either interface and any name |
| `SisReader.CompleteIffFinalLine` | certmon/direct_extron.py:211-213 | the read stops if and only if an acknowledgement of its kind, an error code or the brace that ends a view has arrived as a whole line |
| `SisReader.AcknowledgementIsFinal` | certmon/direct_extron.py:199-214 | the end of every acknowledgement that the recogniser accepts, echoed or not, stops the read |
| `SisReader.CompleteStays` | certmon/direct_extron.py:211-213 | a buffer with a final line keeps it as more arrives |
| `Activation.WithCredentials` | certmon/direct_extron.py:707-716 | the first reply that is not a refused login decides, and every pair is tried before giving up |
| `Activation.Direct.PutRecord` | certmon/direct_extron.py:724-738 | one durable write of the ledger; a record marked deleted is only written for a file that is gone |
| `Activation.Direct.ProbeDevice` | certmon/direct_extron.py:325-330 | a probe is noted with its answer and with what the ledger says of the device then |
| `Activation.ClearIff` | certmon/direct_extron.py:326-329 | when the ledger counts an interface as clear |
| `Activation.Direct.Stage` | certmon/direct_extron.py:504-505 | a file is staged only under a name with an undeleted record, in a batch only in a turn of its device, and each staging is noted |
| `Activation.Direct.Ingest` | certmon/direct_extron.py:510-511 | an import goes out once per name, in a batch only with saved progress showing the upload and no other undeleted file on the interface |
| `Activation.Direct.Remove` | certmon/direct_extron.py:533-535 | a file counts as gone only when the deletion returned |
| `Activation.Direct.SetStaged` | certmon/direct_extron.py:740-761 | only the status and the known completion of the record change |
| `Activation.Direct.GiveUp` | certmon/direct_extron.py:512-518 | the error branches keep the record undeleted and report what the error calls for |
| `Activation.Direct.ReadReply` | certmon/direct_extron.py:519-540 | what a reply leads to, and that a completion is recorded as known only after an exact acknowledgement |
| `Activation.Direct.DeleteSeen` | certmon/direct_extron.py:533-540 | verified only if the deletion returned, and the record that each answer leaves |
| `Activation.Direct.Conclude` | certmon/direct_extron.py:529-540 | verified only after the certificate was seen and the file deleted, with a record that says so |
| `Activation.Direct.ImportStaged` | certmon/direct_extron.py:510-540 | at most one import, and verified only on an exact acknowledgement with nothing received beforehand |
| `Activation.Direct.Transfer` | certmon/direct_extron.py:502-540 | the same from staging on, with every finished outcome a result |
| `Activation.Direct.ActivateOne` | certmon/direct_extron.py:493-540 | the whole activation: nothing changes unless the target is known and trusted and the certificate there; the ledger invariant at every end, the outcome determined by the answers when no fault comes from inside, the record that each result leaves, verified only on all conditions and with the import sent and the file gone |
| `Activation.AcknowledgedIff` | certmon/direct_extron.py:519-528 | an import counts as acknowledged if and only if nothing was received beforehand, all of it was sent, and the reply is in the language of acknowledgements |
| `Activation.ResultsIff` | certmon/direct_extron.py:493-540 | when each result other than verified is reported |
| `Activation.RaisedIff` | certmon/direct_extron.py:493-540 | and when none is |
| `Activation.ReachesIff` | certmon/direct_extron.py:510-518 | when a command counts as having reached the device |
| `Activation.Direct.CleanupOne` | certmon/direct_extron.py:619-648 | in every world nothing changes without trust and confirmation; a file goes only when trusted, confirmed, known complete or past its grace period, and deleted by the device; an untrusted device is reported as such; the ledger after each reply |
| `Activation.CleanupIff` | certmon/direct_extron.py:619-648 | when a cleanup ends in each way |
| `Activation.CleanupLeaves` | certmon/direct_extron.py:619-648 | the one record it may change, and to what |
| `DirectBatch.Persist` | certmon/direct_extron.py:250-261 | progress is saved as a whole or not at all |
| `DirectBatch.StopBatch` | certmon/direct_extron.py:302-310 | a stop sets the flag of a running batch, is noted, and changes no other run |
| `DirectBatch.ProbeOne` | certmon/direct_extron.py:318-339 | one device's probe, noted, and its status, cleanup pending when a file of an earlier attempt is undeleted |
| `DirectBatch.ProbeShows` | certmon/direct_extron.py:324-338 | when a device shows ready, cleanup pending, credentials required, connection failed or another probe result |
| `DirectBatch.ProbeAll` | certmon/direct_extron.py:315-340 | which devices were probed and what each shows, up to the first stop; ready if and only if all of these are; nothing staged or imported |
| `DirectBatch.ActivateSaved` | certmon/direct_extron.py:349-353 | every error counts as unconfirmed, and every import of the run is on a device that will show a result |
| `DirectBatch.RecordedShows` | certmon/direct_extron.py:349-355 | a batch records an activation's own result, and unconfirmed for one that raised or died |
| `DirectBatch.BeginTurn` | certmon/direct_extron.py:343-348 | an upload turn is taken only when every device was probed ready, every earlier one verified and no stop requested, and is saved before anything moves |
| `DirectBatch.UploadOne` | certmon/direct_extron.py:343-356 | uploading is saved before the activation and its result after it; no private PEM moves but to this device |
| `DirectBatch.UploadAll` | certmon/direct_extron.py:341-359 | a verified prefix with all that this vouches for, then a stop or one other result, then untouched devices; however it ends, nothing moved to a device after a stop before its turn |
| `DirectBatch.Tidy` | certmon/direct_extron.py:361-363 | devices never reached, or never uploaded to, become skipped, and no other changes |
| `DirectBatch.TidyShows` | certmon/direct_extron.py:361-363 | which devices show as skipped at the end |
| `DirectBatch.UploadStarts` | certmon/direct_extron.py:341-341 | the upload phase starts if and only if every device was probed ready and no stop came; nothing of an earlier attempt is then left for any target |
| `DirectBatch.Preflight` | certmon/direct_extron.py:315-341 | nothing private moves in it; if it ends, what it found of every device it reached is noted |
| `DirectBatch.Work` | certmon/direct_extron.py:314-369 | however it ends, either nothing was staged or imported, or every device was probed ready, with nothing left of an earlier attempt and no stop before; a run that went through has its shape and final status |
| `DirectBatch.Audit` | certmon/direct_extron.py:370-381 | stops requested around the audit set the flag and nothing else; an audit that raises shows |
| `DirectBatch.Finish` | certmon/direct_extron.py:370-392 | an audit or save error turns the run to failed, stops requested meanwhile keep the settled status, and the lock is freed |
| `DirectBatch.EndBatch` | certmon/direct_extron.py:370-392 | a run that went through keeps its shape and settled status to the end, with every late stop kept |
| `DirectBatch.ExecuteBatch` | certmon/direct_extron.py:312-392 | whether it completes, fails or dies, no private PEM moves unless every device was probed ready in this run with no stop before, nor to a device after a stop before its turn; a run that does not fail has a verified prefix, at most one other result, then skipped devices; stopped if and only if a stop came before the status was settled, otherwise complete if and only if every device succeeded; the stop flag shows if and only if a stop came then or later |
| `DirectBatch.CheckTargets` | certmon/direct_extron.py:271-277 | a request passes if and only if every target has a known interface 1 or 2 and a stored certificate |
| `DirectBatch.StartBatch` | certmon/direct_extron.py:268-295 | refused if and only if empty, invalid or locked; accepted with progress saved; an error frees the lock |
| `DirectHistory.RecoverRun` | certmon/direct_extron.py:238-246 | an interrupted run's uploads come back unconfirmed, tests interrupted, the rest skipped, results as recorded |
| `DirectHistory.RecoveredShows` | certmon/direct_extron.py:238-246 | which statuses each recovered one comes from |
| `DirectHistory.RecoveryShowsResults` | certmon/direct_extron.py:235-248 | whatever was saved when the process died, every device that was sent an import comes back with its recorded result or unconfirmed |
| `DirectHistory.Restart` | certmon/direct_extron.py:225-248 | a restart sends nothing, leaves no run running and shows a result for every import |
| `DirectHistory.RunBatch` | certmon/direct_extron.py:268-392 | a batch from request to end, in any state between commands, with the same conditions on what moves however it ends |
| `DirectHistory.ActivateSingle` | certmon/direct_extron.py:484-491 | an individual activation takes the lock, frees it, and reports verified only when it is |
| `DirectHistory.CompleteVouches` | certmon/direct_extron.py:360-365 | complete in upload mode means every device verified, with all that verified vouches for |
| `DirectHistory.Serve` | certmon/direct_extron.py:225-392 | what each command makes of the service, and what it leaves when nothing goes wrong inside |
| `DirectHistory.RunHistory` | certmon/direct_extron.py:225-392 | the states that any history of batches, activations, cleanups, deaths and restarts leads through; in each, undeleted records cover all files left behind, no name is imported twice, no batch imports to an interface with another undeleted file, private PEMs of batches moved only in turns that might be taken, and every import shows |
| `DirectHistory.StagingPrepared` | certmon/direct_extron.py:312-348 | at any time in any history, a private PEM that a batch moved followed a ready probe of every device of that batch, a verified result of every earlier one, and no stop before its turn |
| `DirectHistory.ImportsPrepared` | certmon/direct_extron.py:312-359 | and so did every import |
| `DirectHistory.RestartAfterHistory` | certmon/direct_extron.py:235-248 | after any history, a new process shows a result on every device that the history sent an import, and sends nothing |
| `Rotation.DecryptedIff` | certmon/vault.py:146-156 | a blob opens if and only if the key of its identifier sealed it for that purpose, the master key tried before the pending one, and is unknown if and only if neither is its key |
| `Rotation.Vault.Load` | certmon/vault.py:243-254 | a new process holds what the key files hold |
| `Rotation.Vault.PutSecret` | certmon/vault.py:138-144 | a stored secret reads back, under a key the process backs |
| `Rotation.Vault.BeginRotation` | certmon/vault.py:158-169 | resumes a pending rotation, or generates a key and writes it; if that write raises the key is in memory only |
| `Rotation.Vault.ActivatePendingKey` | certmon/vault.py:182-190 | the two file writes that end a rotation, and what is left if one does not happen |
| `Rotation.ConversionKeepsContents` | certmon/db.py:775-797 | re-encrypting any of the rows changes no plaintext and no purpose |
| `Rotation.HeldWhileConverting` | certmon/db.py:775-797 | a partly converted table is readable by a fresh process if and only if no row was turned or a file holds the target key |
| `Rotation.ConvertRows` | certmon/db.py:765-797 | which rows are converted, one durable write each, and that the loop ends |
| `Rotation.HeldIff` | certmon/vault.py:158-169 | a new process can read the table if and only if the pending key is backed by its file, is the master key on file, or has no row under it |
| `Rotation.ConvertedServes` | certmon/db.py:775-797 | wherever conversion stops, the process can read on, and a new one if and only if the target key is in a file or nothing was turned |
| `Rotation.ActivatedServes` | certmon/vault.py:182-190 | wherever activation stops, the process can read on, and a new one can once the master file is written |
| `Rotation.ConvertAndActivate` | certmon/db.py:773-802 | the two together, from a pending key in a file or in memory only |
| `Rotation.RotateSecrets` | certmon/db.py:763-802 | completes if and only if the writes suffice; contents never change; wherever it stops, exactly when a new process can read the table and when the pending key is backed; complete means all rows under the new key and no pending file |
| `Rotation.RunHistory` | certmon/db.py:763-802 | after any crashes, live failures, resumptions, writes and deletions, every stored secret opens in a new process to what was stored, unless a process rotated again after failing at the first write of a rotation |
| `Rotation.NotHeldLoses` | certmon/vault.py:146-156 | otherwise some secret is under a key unknown to a new process |
| `Rotation.FirstFailureLosesSecret` | certmon/vault.py:158-169 | such a process can lose a secret |
| `Jobs.EnteredFrom` | certmon/models.py:22-68 | from which states each state is entered |
| `Jobs.PathSpendsRank` | certmon/models.py:22-68 | every path through the table spends rank with each step |
| `Jobs.SevenStepsReached` | certmon/models.py:22-68 | the bound of seven steps is reached |
| `Jobs.JobTable.CreateJob` | certmon/db.py:405-443 | a new draft at version 0, unless the identifier exists |
| `Jobs.JobTable.TransitionJob` | certmon/db.py:480-518 | succeeds if and only if state and version are current, and then writes row and event together |
| `Jobs.JobTable.CompareAndSetPending` | certmon/db.py:445-478 | the same for the one self-loop, which leaves no event |
| `Jobs.JobTable.CompleteJobWithCertificate` | certmon/db.py:600-642 | certificate, row and event together, or nothing |
| `Jobs.ServeAll` | certmon/db.py:445-518 | for any interleaving of stale clients: events form a path of at most seven steps from draft to the state, the version counts events and rewrites, no version is won twice, and the tables are those of the sequential replay |
| `Jobs.MarkVerified` | certmon/deployment.py:182-200 | one or two allowed steps to deployed, for a job that holds the certificate |
| `Jobs.UpdateJob` | certmon/deployment.py:202-221 | the first failure leaves an event, a repeated one only a version |
| `Jobs.RecoversIffAllowed` | certmon/acme_service.py:238-255 | recovery of a job goes through if and only if it is validating with an order ready, processing, valid or invalid, or issuing with an invalid one |
| `Jobs.RecoveryComes` | certmon/renewals.py:162-180 | where recovery leaves a job, by the status of its order |
| `Jobs.RecoverInterruptedJobs` | certmon/renewals.py:162-180 | moves only ACME jobs in validating or issuing; completes if and only if each goes through, and otherwise has changed exactly the earlier ones |
| `Identifiers.ReadIff` | certmon/renewals.py:40-71 | how one value reads: blank, address, wildcard, refused and encoded |
| `Identifiers.NormalizeIdentifiers` | certmon/renewals.py:36-74 | refused if and only if some value is; otherwise each name once, in order of first occurrence |
| `Identifiers.LeqIff` | certmon/renewals.py:513-516 | the order of names, by the first character in which they differ |
| `Identifiers.SortSorts` | certmon/renewals.py:513-516 | sorting sorts and permutes |
| `Identifiers.SortedUnique` | certmon/renewals.py:513-516 | one sorted order per collection of names |
| `Identifiers.KeyIffSameNames` | certmon/renewals.py:513-516 | on lists without duplicates, equal keys if and only if equal sets of names |
| `AcmeLog.OrderBacked` | certmon/renewals.py:204-207 | a production order whose key has a stored proof follows an issued staging job for the same names |
| `AcmeOrders.Orchestrator.Enter` | certmon/renewals.py:112-121 | a notable state is entered, and noted with the records and the target stored then |
| `AcmeOrders.ServeAll` | certmon/renewals.py:200-404 | every sequence of calls on the job table takes only allowed and current transitions, and leaves the state of which the rows below speak |
| `AcmeOutcomes.StartComes` | certmon/renewals.py:200-224 | where starting leaves a job: refused for want of staging, still a draft, waiting for DNS, or for each answer of authority and provider issued, failed, parked or stuck, with its certificate, records, saved target and the proofs |
| `AcmeOutcomes.ContinueComes` | certmon/renewals.py:226-252 | the same for a manual challenge, expired, invisible, unreadable or visible |
| `AcmeOutcomes.CancelComes` | certmon/renewals.py:254-275 | where cancelling leaves a job in each state, for each answer of the provider |
| `AcmeOutcomes.RetryComes` | certmon/renewals.py:277-293 | a clean retry goes to the saved target, or to issued without one, any other changes nothing |
| `AcmeOutcomes.OthersCome` | certmon/renewals.py:81-180 | the other calls, and which calls are refused and change nothing |
| `AcmeOutcomes.OrdersAreNoted` | certmon/renewals.py:209-215 | every order asked for is in the log of which soundness speaks |
| `AcmeOutcomes.StartNotes` | certmon/renewals.py:200-404 | which order, which cleanup with which records and report, and which state a start notes |
| `AcmeOutcomes.ContinueNotes` | certmon/renewals.py:226-404 | the same for a continued manual challenge |
| `AcmeOutcomes.RetryNotes` | certmon/renewals.py:277-293 | the cleanup of all stored records, and the state a clean retry enters |
| `AcmeOutcomes.CancelNotes` | certmon/renewals.py:254-275 | the cleanup of all stored records, if any, and the state entered |
| `AcmeOutcomes.StagingRequiredIff` | certmon/renewals.py:200-207 | after any calls, a production draft is refused if and only if no staging job for the same names was issued other than by a retried cleanup |
| `AcmeOutcomes.StagingOpensProduction` | certmon/renewals.py:388-404 | a staging job that ends clean opens production for a draft with the same names |
| `AcmeOutcomes.StagedYetRefused` | certmon/renewals.py:277-293 | calls after which staging has its certificate and production is still refused |
| `AcmeSteps.FinishesKeeps` | certmon/renewals.py:314-404 | whatever the authority and the provider answer, the end of validation and issuing keeps the log sound and every job accounted for |
| `AcmeSteps.StartsKeeps` | certmon/renewals.py:200-224 | so does starting, with a production order only when a staging proof for the same names is stored |
| `AcmeSteps.ContinuesKeeps` | certmon/renewals.py:226-252 | so does continuing a manual challenge, expired, invisible or visible |
| `AcmeSteps.CancelsKeeps` | certmon/renewals.py:254-275 | so does a cancellation, in every state and for every issuer |
| `AcmeSteps.RetriesKeeps` | certmon/renewals.py:277-293 | so does a retried cleanup |
| `AcmeSteps.AllCallsInOrder` | certmon/renewals.py:200-404 | what every call keeps: the log is sound, proofs and orders are backed, and every job stands where the log says |
| `AcmeSteps.CallsSound` | certmon/renewals.py:254-404 | over every sequence of calls and answers: a job enters issued or cancelled only with nothing stored or right after the provider, in the same call, cleaned all stored records without errors, and cleanup required only right after it reported errors on them; every production order follows an issued staging job for the same names |
| `AcmeSteps.IssuedEmptyIff` | certmon/renewals.py:277-293 | after any calls, an issued job has no certificate if and only if a clean retry issued it without one, no target of cancelled being saved |
| `AcmeSteps.RetryIssuesEmptyIff` | certmon/renewals.py:277-293 | in every state that calls and deaths lead to, a retry issues without a certificate if and only if the provider reports nothing, the job has none and no target of cancelled is saved |
| `AcmeSteps.ParkedWithoutTarget` | certmon/renewals.py:314-387 | a Cloudflare job with records, started and parked after cleanup errors, has a saved target if and only if the authority delivered |
| `AcmeSteps.ParkedThenRetried` | certmon/renewals.py:277-293 | the next clean retry then issues the job with a certificate if and only if the authority delivered one |
| `AcmeSteps.IssuedWithoutCertificate` | certmon/renewals.py:277-293 | three calls from an empty store that issue a Cloudflare job without a certificate |
| `AcmeStops.StopsKeeps` | certmon/renewals.py:200-404 | after any write of any call, all that whole calls keep still holds: the log is sound and accounts for every job |
| `AcmeStops.RunSound` | certmon/renewals.py:254-404 | the soundness over all calls, with the process dying after any write of any call |
| `AcmeStops.RunIssuedEmptyIff` | certmon/renewals.py:277-293 | and so the exact condition for a job issued without a certificate |
| `Chain.OrderChain` | certmon/certificates.py:220-233 | the loop places exactly the issuers of the recursive description |
| `Chain.OrderIrrelevant` | certmon/certificates.py:220-233 | permutations with distinct subjects give the same chain |
| `Chain.OrderedLinked` | certmon/certificates.py:220-233 | every adjacent pair is linked by issuer and subject |
| `Chain.OrderedSupplied` | certmon/certificates.py:220-233 | issuers come from the supplied list, none more often than supplied |
| `Chain.PathRecovered` | certmon/certificates.py:220-233 | an upward path, supplied in any order, is recovered in full |
| `Chain.CompleteChainRecovered` | certmon/certificates.py:220-233 | so is a complete chain to a self-issued root |
| `Chain.CheckChain` | certmon/certificates.py:106-135 | the loop reports the codes of the recursive description |
| `Chain.ValidateImport` | certmon/certificates.py:68-164 | the order, the codes, the verdict and the trust of an import |
| `Chain.ReportedIff` | certmon/certificates.py:68-135 | exactly when each code is reported: of the leaf, of a chain not all used, of a link that does not verify, and of an issuer all of whose links below verify |
| `Chain.TrustIff` | certmon/certificates.py:137-157 | the trust status of a path supplied in any order, decided by its last certificate alone: system, then enterprise, then private, and untrusted for a lone leaf |
| `Chain.SameRootSameTrust` | certmon/certificates.py:137-157 | complete paths to one root have one status |
| `Chain.CounterIsLengths` | certmon/certificates.py:116-129 | the counter of section 6.1.4 (l)-(m) of RFC 5280, run from the root, amounts to a bound on each issuer's height |
| `Chain.PerIssuerIsLengths` | certmon/certificates.py:116-129 | so does the count per issuer |
| `Chain.PathRulesAgree` | certmon/certificates.py:106-135 | on every ordered chain the count per issuer and the counter reject the same chains |
| `Chain.ValidIffAcceptable` | certmon/certificates.py:68-164 | an import is accepted if and only if leaf, key, time and identifiers fit, every supplied certificate is used, every link verifies, and the path passes the counter |
| `Chain.AcceptedIffGoodPath` | certmon/certificates.py:68-164 | with no two supplied certificates for one subject, an import is accepted if and only if the leaf is good and the supplied certificates can be put in some order that is linked upward from the leaf, self-issued only at the end, signed, valid and within the counter |
| `Chain.MismatchUnreachable` | certmon/certificates.py:106-110 | the issuer-mismatch code is never reported |
| `Accounts.RewriteHonest` | certmon/db.py:159-234 | rewriting a user keeps sessions honest if and only if they were revoked, there were none, or nothing they rest on changed |
| `Accounts.AnotherAdmin` | certmon/db.py:174-181 | with another enabled administrator, rewriting one leaves one |
| `Accounts.LastAdminIff` | certmon/db.py:174-181 | the count that guards the last administrator amounts to there being no other |
| `Accounts.VerdictIff` | certmon/db.py:159-196 | an edit is refused for an unknown user, the last administrator's role or a name that another user has, in this order, and otherwise made |
| `Accounts.NameStaysUnique` | certmon/db.py:182-187 | a name that no other user has, case aside, keeps names unique |
| `Accounts.AccountStore.InsertUser` | certmon/db.py:134-147 | inserted unless the identifier or the name, case aside, is taken |
| `Accounts.AccountStore.UpdateIdentityAndRoles` | certmon/db.py:159-196 | the verdict of an edit, its effect, the administrator kept, names kept unique, and a duplicate exactly when another user has the name |
| `Accounts.AccountStore.SetDisabled` | certmon/db.py:198-223 | the same for disabling |
| `Accounts.AccountStore.SetPasswordHash` | certmon/db.py:225-234 | a new password ends the user's sessions |
| `Accounts.AccountStore.CreateFirstAdmin` | certmon/auth.py:87-104 | only on an empty table, and then there is an administrator |
| `Accounts.AccountStore.CreateUser` | certmon/auth.py:109-123 | with acceptable roles, each once, and a free name |
| `Accounts.AccountStore.UpdateUser` | certmon/auth.py:125-146 | the effect of an edit based on any record read before, and exactly when sessions stay honest |
| `Accounts.AccountStore.SetUserEnabled` | certmon/auth.py:148-161 | never disables the last administrator, and ends sessions when disabling |
| `Accounts.AccountStore.Login` | certmon/auth.py:202-218 | a session only for an enabled user with the right password |
| `Accounts.AccountStore.UserForToken` | certmon/auth.py:220-235 | a live token yields the user with the roles and password of the login, any other is dropped |
| `Accounts.ValidatedRoles` | certmon/auth.py:190-200 | refused if empty or unsupported, otherwise each role once |
| `Accounts.PerformAll` | certmon/auth.py:87-239 | every sequence of operations leaves the tables that its description determines, sessions stay honest, no two users share a name, case aside, and from the first administrator on, at the latest once one is asked for before any other user, one is enabled |
| `Accounts.StaleRenameKeepsSession` | certmon/auth.py:125-137 | two concurrent edits can leave a session that does not match |
| `UploadList.ListDevices` | certmon/toolbelt.py:82-131 | one row per device, owned by its newest local-CA leaf, omitted if and only if that certificate is completed, sorted |
| `UploadList.ListingUnique` | certmon/toolbelt.py:82-131 | that description determines the list |
| `UploadList.ListingReads` | certmon/toolbelt.py:82-131 | the columns of each row, whose it is, and the order of the rows |
| `UploadList.SelectorIff` | certmon/toolbelt.py:479-487 | the name of a device: its first address, else its first identifier, else the certificate |
| `UploadList.FirstAddressIff` | certmon/toolbelt.py:480-486 | which address is the first |
| `UploadQueue.Queue.Record` | certmon/upload_queue.py:22-42 | what is written when the call stops at any write, completed always within the audited successes |
| `UploadQueue.FinishWrites` | certmon/upload_queue.py:22-42 | what a call stopped at any write leaves: the results audited in order, then exactly the successes completed if the list is cleared, then the run recorded |
| `UploadQueue.FinishStaysHonest` | certmon/upload_queue.py:22-42 | at whatever write a call stops, each completed certificate has an audited success |
| `UploadQueue.RetryCompletes` | certmon/upload_queue.py:22-42 | a call repeated after a stop ends as one undisturbed call does |
| `UploadQueue.FinishedLeavesList` | certmon/upload_queue.py:38-42 | what a clearing run delivered is listed no more, and no older certificate takes its place |
| `UploadQueue.Queue.DeleteHistory` | certmon/db.py:378-391 | deleting history removes audit entries and nothing else |
| `UploadQueue.RunHistory` | certmon/upload_queue.py:22-42 | any calls and repetitions, stopped anywhere, with history deleted in between, leave the books that they determine, honest and with each run recorded once |
| `Backup.CreateKeeps` | certmon/artifacts.py:37-70 | a set of files appears whole, and not while a backup runs |
| `Backup.InsertKeeps` | certmon/local_ca.py:160-168 | the row follows its files without the lock, or the files are undone |
| `Backup.RemoveKeeps` | certmon/artifacts.py:75-80 | files go one by one under the lock |
| `Backup.CopyKeeps` | certmon/backup.py:40-45 | copying file by file under the lock sees what the copied rows refer to |
| `Backup.BackupsClosed` | certmon/backup.py:33-57 | over every interleaving, failure and death, all backups are closed |
| `Backup.BackedUpComplete` | certmon/backup.py:33-57 | a row in a backup has all the files it was made with if and only if nothing had touched them when the lock was taken |
| `Backup.WhoRemoved` | certmon/external_ca.py:181-192 | otherwise a deletion begun for this certificate removed them, or the undoing of its own issuance, which had raised after its commit; with only one of the two, that one |
| `Backup.RaisedYetAsked` | certmon/external_ca.py:181-192 | with both, the deletion may have done it |
| `Backup.CommittedWithoutFiles` | certmon/external_ca.py:181-192 | an issuance that raises after its commit leaves a row without files in a backup, with no deletion asked for |
| `Backup.IssuanceComes` | certmon/local_ca.py:160-168 | an issuance that nothing disturbs stores its files and its row |
| `Backup.FailedIssuanceComes` | certmon/local_ca.py:160-168 | one whose row cannot be inserted leaves neither |
| `Backup.DeletionComes` | certmon/artifacts.py:75-80 | a deletion removes the files and the row |
| `Backup.BackupComes` | certmon/backup.py:33-57 | a backup copies every row and every directory as they are |

## Left out

- SisReader.ReadResponse: time is left out; the list of arrivals ends where the deadline passes, and a turn without data is one idle arrival.
- Activation.Direct.PutRecord: host, grace deadline, verification and diagnostics fields of a record are not modelled; the clock enters a cleanup as whether the grace period is over.
- Activation.Direct.SetStaged: the verification and response fields that the same write stores are not modelled, because no later decision reads them.
- Activation.Direct.ActivateOne: the transfer diagnostics are always written, as the shipped transport makes them; the approval of host keys and the store of approvals are one answer.
- DirectBatch.StartBatch: selectors are taken as already normalised, as the device list makes them; the start time and current device of a run are not modelled.
- DirectBatch.StopBatch: requests and cleanups of other threads take effect in the gaps in which the batch lock is free, those around the audit included; a stop requested during an activation takes effect in the gap after it, and cleanups do not run during one; each read and rewrite of a setting is one step.
- DirectBatch.Finish: what the audit of a batch writes is modelled in `UploadQueue`, here only that it may raise or the process may die in it.
- DirectHistory.RunHistory: commands whose identifiers or file names were used before are not made, because these are random.
- Rotation.RunHistory: nothing writes to the table while the conversion loop runs, certificate files are not part of a rotation, and a history ends with the first restart that finds a secret out of reach.
- Jobs.JobTable.TransitionJob: error codes, messages, device addresses and profiles of a job are not modelled.
- Jobs.RecoverInterruptedJobs: an order without a status counts as pending; the authority's answers are fixed beforehand.
- AcmeOrders.ServeAll: calls run one at a time and whole, and writes of settings do not fail; calls cut short are the subject of `AcmeStops`, concurrent writers of one job that of `Jobs.ServeAll`.
- AcmeSteps.CallsSound: job identifiers are never used twice, because they are random; an error between a cleanup and the transition after it counts as the cleanup raising; which records Cloudflare could not delete is one answer.
- AcmeOutcomes.StagingRequiredIff: speaks of whole calls; a process that dies between issuing a staging job and storing the proof leaves none.
- Identifiers.NormalizeIdentifiers: IDNA, trimming and the recognition of IP addresses are parameters.
- Chain.ValidateImport: parsing of certificates and keys, and the private key's passphrase; two certificates with equal fields are the same certificate.
- Accounts.PerformAll: each service call reads and writes with nothing in between; the concurrent case is `Accounts.AccountStore.UpdateUser` with any record read before. Password rules and hashing, and the trimming of names, are not modelled.
- UploadList.ListDevices: status, credential and network columns of a row, and the selection, are not modelled.
- Backup.BackedUpComplete: the copy of the database is one step, files of pending requests (which have no certificate row) are not modelled, and nor are the manifest, its signature and the restore.
- Backup.WhoRemoved: says nothing of an identifier that was issued twice, because these are random.
- Removing a certificate from a device, approving host keys, and reading certificate information back.
- Toolbelt runs and their status map, the uploader's windows, network scanning, reports, routes and pages.
- Local-CA backup packages, server backup archives and the migration of old data.
