# A verified model of the document classifier

This Dafny project models the backend of the document classifier and proves what its parts promise
together. Scanned TIFF files arrive on an SFTP server, an ingest process stores and queues them,
workers classify them, and an API lets people with roles review the predictions.

To verify the whole project: `dafny verify dfyconfig.toml`.

## How the model is built

| module | what it holds |
|---|---|
| `Prelude`, `Uuid`, `Paths` | results, the parser and printer of UUID texts, paths, object keys and file validation |
| `Database`, `Services` | the tables, the repositories' operations, the services and request handlers as functions on the tables; a transaction commits or rolls back as a whole, a run is any sequence of transactions |
| `Repositories`, `Api` | the same operations in the code's own form, as objects that change a session in place, each method proved against its function; the table below names one or two methods of each class |
| `Verdicts` | which transactions are accepted and as what others are refused, by literal roles and ids |
| `AdminRules`, `Tables`, `AuditReplay`, `ConfidenceGate`, `LastWriter` | what holds over all runs of transactions |
| `Protocol` | the pipeline as one step machine: ingest, queue, workers, requests, faults, crashes, re-deliveries |
| `PipelineSafety`, `FileConservation`, `Provenance`, `SharedKeys` | what holds in every state the pipeline can reach: nothing is lost, files and blobs are conserved, predictions and overlays come from files with their ids, and whose bytes a shared key holds |
| `Redelivery` | delivering a job again in the middle of other traffic |
| `Processes`, `Ingest`, `Workers` | the two long-running processes as their loops run them, over the step machine; a script fixes how each remote call ends and what others do before it comes back |
| `EndToEnd` | a poll followed by a worker's way through the queue |
| `Caching` | reads through the cache with a time-to-live |
| `Listing`, `Percentile`, `Walk`, `UserStore` | the stable sort with filters and pages, interpolated percentiles, the directory walk, the in-memory user repository |

A remote call succeeds, fails without effect, or fails after its effect. A crash between two calls is
the event that ends a file's turn (`GiveUp`) or a job (`Fail`, `Requeue`). The queue may deliver a job
again at any time. There is one ingest process; an SFTP rename fails when the target exists (section
6.5 of draft-ietf-secsh-filexfer-02); a file does not change while it lies in the drop folder; new
files may be dropped at any time under free paths. Requests and worker writes are serialised.

Image decoding and the predictor are a deterministic part of a file's content: what opening the image
does, and a non-empty ranking by falling confidence. Ids from `uuid4()`, clocks and latencies are
parameters.

## What was found

- **The last administrator can be lost.** `toggle_role` compares the target's text with the actor's
  printed id, while the repository parses the text; a sole administrator who names themselves in
  another spelling, such as the id in braces, demotes themselves. `AdminRules.AdminStep` says exactly
  when a transaction does this, and with canonical targets it never happens.
- **The "only admin account" refusal of `delete_user` is reached in exactly one case**: a sole
  administrator names themselves in a text that is not canonical. Even without it nobody could delete
  themselves, because the audit entry would name a missing actor.
- **Two files may share a blob key**, for example `d` and `d.tif` in one directory, so the bytes
  stored for a processed file may be those of another file with the same ids. They are its own if and
  only if the last upload under the key carried them (`SharedKeys.OwnBytesExactlyWhen`), and for any
  two different contents there is a run that ends otherwise
  (`SharedKeys.ProcessedFileMayLoseItsBytes`).
- **Delivering a job again may undo a relabelling.** The row keeps the label that it would have without
  the extra deliveries if and only if each of them has been followed by an accepted relabelling, or that
  label is the model's (`Redelivery.LabelKeptExactlyWhen`); a delivery right after a relabelling to
  another label always loses it (`Redelivery.NextDeliveryLosesReview`). Everything else that reviewers
  and other jobs do in between stays (`Redelivery.RedeliveryInTraffic`).
- **ARCH.md line 103 promises that the read after a role change misses the cache.** It may not: the
  clear happens before the commit, may do nothing, and a reader may fill the cache after it
  (`Caching.LateFillShowsFormer`). A read is answered from a newer
  reading of the database if and only if no fill with an older one is still live
  (`Caching.FreshExactlyWhen`); in any case staleness is bounded.
- **A batch called "list" would share the key of the batch list**; no UUID is called that, so it only
  makes an already refused query fail differently (`Caching.KeysCollide`, `Caching.HitDecodes`).
- **docs/blob_layout.md line 11 names overlay keys with the bucket name in front**; the code cuts it off
  on both sides (`Paths.OverlayPutTarget`, `Paths.OverlayLookupAgrees`). The model follows the code.

## Model

| member | source | states |
|---|---|---|
| `Uuid.ParsePrint` | backend/app/repositories/_mapping.py:22-23 | parsing the printed form of an id gives the id back (section 4 of RFC 9562) |
| `Uuid.BracedText` | backend/app/repositories/_mapping.py:22-23 | the parser is not injective: the text in braces names the same id and is not canonical |
| `Uuid.UpperCaseText` | backend/app/repositories/_mapping.py:22-23 | the digits in upper case name the same id |
| `Uuid.BareText` | backend/app/repositories/_mapping.py:22-23 | so do the 32 digits without hyphens |
| `Uuid.UrnText` | backend/app/repositories/_mapping.py:22-23 | so does the URN of section 4 of RFC 9562 |
| `Uuid.DigitsExactly` | backend/sftp_ingest/validation.py:57-61 | as digits are read exactly the texts of hex digits of either case with single underscores between them |
| `Uuid.PrintLayout` | backend/app/repositories/_mapping.py:22-23 | a printed id has 36 characters, hyphens at 8, 13, 18 and 23 and lower-case digits elsewhere |
| `Uuid.TextIsPathSafe` | backend/sftp_ingest/validation.py:57-61 | an accepted id text has no slash and no dot and at least 32 characters, so it is one path component |
| `Paths.VerdictExactly` | backend/sftp_ingest/validation.py:26-54 | a file is accepted if and only if it is a TIFF, neither empty nor over the limit, whose path has three parts or more and whose parent name and stem are UUID texts; these are its ids and make its key; it raises if and only if its size is allowed and opening it ends in another error than "unidentified"; every other file is rejected |
| `Paths.PartsAre` | backend/sftp_ingest/validation.py:27-31 | the parts of a path, component by component from its end: empty components and single dots are none, a leading slash is one |
| `Paths.StemIs` | backend/sftp_ingest/validation.py:32 | the stem is what precedes the last dot, unless that is the first or the last character |
| `Paths.BasenameIs` | backend/app/infra/sftp.py:82-90 | the basename is what follows the last slash |
| `Paths.JoinIs` | backend/app/infra/sftp.py:65-67 | joining puts a slash between directory and name where there is none, and the name is the basename of the result |
| `Paths.ParseOfRemotePath` | backend/sftp_ingest/validation.py:26-35 | for all UUID texts, `incoming/{b}/{d}.tif` parses to (b, d) |
| `Paths.ParseOfBlobKey` | backend/sftp_ingest/validation.py:38-54 | the blob key of every accepted document parses to that document's own ids |
| `Paths.BlobKeyInjective` | backend/sftp_ingest/validation.py:38-54 | different id texts never share a blob key |
| `Paths.PathsMayShareAKey` | backend/sftp_ingest/validation.py:26-54 | two different paths may carry the same ids and so the same blob key |
| `Paths.OverlayPutTarget` | backend/app/infra/worker_blob.py:43-50 | the overlay goes into the overlays bucket under `{batch}/{document}.png` |
| `Paths.OverlayLookupAgrees` | backend/app/api/routers/predictions.py:128-130 | the reader's stripping gives the writer's object name exactly when the key has a slash or is empty |
| `Paths.OverlayInjective` | backend/app/infra/worker_blob.py:43-50 | different (batch, document) texts never share an overlay object |
| `Tables.FirstBatchWins` | backend/app/repositories/document_repo.py:34-46 | after any run, ingest is refused for its batch exactly when the first ingest that named the document, with UUIDs, named another batch |
| `Tables.TablesAlways` | backend/app/repositories/document_repo.py:15-50 | over all runs: each counter equals its batch's number of documents and is at least 1, ids and (batch, document) keys are unique, and each top-1 confidence is that of the first label |
| `Tables.HttpKeepsRows` | backend/app/services/prediction_service.py:105-201 | no request changes batches, documents or anything of a prediction but label, comment, colour and name |
| `Verdicts.IngestVerdict` | backend/app/repositories/document_repo.py:15-50 | ingest is refused exactly for texts that are no UUIDs and documents of another batch; else the row has its batch and key, and a new document is counted once |
| `Verdicts.WriteVerdict` | backend/app/repositories/prediction_repo.py:22-56 | a worker's record is refused exactly for texts that are no UUIDs, a missing document or batch, or an id in use under another key |
| `Tables.UpsertTwice` | backend/app/repositories/prediction_repo.py:28-53 | upserting a second record under a key equals upserting the first with the second's latency |
| `Tables.RedeliveryIdempotent` | backend/app/infra/worker_prediction_service.py:23-29 | delivering a job k >= 1 times in a row leaves the tables of one delivery with the last latency, and k batch_state entries |
| `Redelivery.RedeliveryInTraffic` | backend/app/repositories/prediction_repo.py:28-53 | the same with any other transactions in between, relabellings of the row included, but no other results for it: leaving out all deliveries after the first changes only the row's latency, which is the last one's, its label, the former labels logged for it, and the job's log entries, one for each delivery |
| `Redelivery.LabelKeptExactlyWhen` | backend/app/repositories/prediction_repo.py:41-51 | over such traffic the row has the label that it would have without the further deliveries if and only if each of these has been followed by an accepted relabelling of the row, or that label is the model's; otherwise it has the model's |
| `Redelivery.NextDeliveryLosesReview` | backend/app/repositories/prediction_repo.py:41-51 | an accepted relabelling to another label than the model's is lost by the next delivery |
| `LastWriter.RowIsExplained` | backend/app/repositories/prediction_repo.py:28-53 | after every run each row holds the result of the last accepted write under its key, and the label of the last accepted write or relabelling |
| `LastWriter.RowsFromFirstWrites` | backend/app/repositories/prediction_repo.py:28-40 | after every run each row has the moment and the id of the first accepted write under its key, and the rows come in the order of these writes |
| `LastWriter.LatestPredictionFirst` | backend/app/repositories/prediction_repo.py:58-62 | so when results are written at increasing moments, the newest-first list is the first writes in reverse order |
| `Tables.WriteKeepsReview` | backend/app/repositories/prediction_repo.py:41-51 | a worker's write keeps id, keys, creation time, comment, colour and name of every row |
| `Services.AcceptedIs` | backend/app/api/deps.py:62-69 | an accepted transaction commits exactly the stated tables |
| `AuditReplay.RefusedErased` | backend/app/api/deps.py:62-69 | leaving the refused transactions out of a run changes neither its tables nor its journal, and has no other one refused |
| `AuditReplay.ActionLogged` | backend/app/services/prediction_service.py:105-201 | an accepted transaction appends exactly its own action to the log, or nothing |
| `AuditReplay.ActorsReplay` | backend/app/repositories/audit_repo.py:18-34 | after every run each entry was logged by one accepted transaction and names the user in whose name that was made, a worker's entry nobody, unless the user was deleted later |
| `AuditReplay.ActorsAreUsers` | backend/app/repositories/audit_repo.py:18-34 | after every run each actor that the log names is a user |
| `AuditReplay.NotesReplay` | backend/app/services/prediction_service.py:105-165 | folding the log gives the current comment, colour and name of every prediction, whatever workers write |
| `AuditReplay.NamesChainAlways` | backend/app/services/prediction_service.py:132-165 | in every rename entry `from` is the previous `to` of that text |
| `Verdicts.RenameStores` | backend/app/services/prediction_service.py:132-165 | an accepted rename stores and logs the text without the white space around it, or no name when there is none or nothing else; no other row and nothing else of the row changes |
| `Verdicts.BareNameStored` | backend/app/services/prediction_service.py:140-142 | a name without white space at its ends is stored as it is |
| `AuditReplay.RolesReplay` | backend/app/services/user_service.py:77-131 | folding role changes and deletions over the registrations gives the current role of every user, and the log holds exactly these entries |
| `AuditReplay.RolesChainAlways` | backend/app/services/user_service.py:77-104 | each logged role change starts from the role that the journal before it gives |
| `AdminRules.AdminStep` | backend/app/services/user_service.py:77-121 | a transaction keeps "a populated table has an administrator" if and only if it is not a sole administrator's demotion of themselves by a text other than their printed id |
| `AdminRules.AdminAlways` | backend/app/services/user_service.py:82-92 | with canonical targets every run keeps an administrator |
| `AdminRules.AdminCanBeLost` | backend/app/services/user_service.py:82-92 | without canonical targets some run loses the last administrator |
| `AdminRules.PromotedOnce` | backend/app/api/routers/auth.py:38-41 | with canonical targets only the first accepted registration of a run is promoted |
| `AdminRules.OnlyAdminRefusalReached` | backend/app/services/user_service.py:113-119 | the only-admin refusal is reached exactly when a sole administrator names themselves in a text that is not canonical |
| `Verdicts.PatchRoleVerdict` | backend/app/services/user_service.py:77-92 | a role change is refused to anybody who is not a user or not an administrator, for a text that is no UUID or names no user, and as a conflict exactly when the only administrator gives the role up under their printed id; otherwise it is accepted |
| `Verdicts.DeleteVerdict` | backend/app/services/user_service.py:106-131 | the same for deletions, with the exact refusal of each text that names the actor |
| `Verdicts.RegisterVerdict` | backend/app/api/routers/auth.py:33-41 | a registration is refused for an address in use, and makes an administrator exactly when there is none |
| `Verdicts.EmailsUniqueAlways` | backend/app/api/routers/auth.py:33-41 | in every run no two users share an address |
| `AdminRules.NobodyDeletesThemselves` | backend/app/services/user_service.py:106-131 | no text lets a user delete their own account |
| `ConfidenceGate.Gate` | backend/app/services/prediction_service.py:167-201 | over all runs: a prediction with confidence of 0.7 or more whose label is not the model's was last relabelled, since its last worker write, by an actor who was administrator then |
| `ConfidenceGate.ConfidentNeedsAdmin` | backend/app/services/prediction_service.py:167-180 | relabelling a confident prediction is accepted only from an administrator |
| `Verdicts.PolicyIs` | backend/app/infra/casbin/policy.csv:1-16 | a role may do something exactly when the policy file has the pair |
| `Verdicts.CommentVerdict` | backend/app/services/prediction_service.py:105-130 | a comment is accepted exactly from an administrator or a reviewer and for a text that names a prediction, and which refusal it is otherwise |
| `Verdicts.NameVerdict` | backend/app/services/prediction_service.py:132-165 | the same for a name |
| `Verdicts.LabelVerdict` | backend/app/services/prediction_service.py:167-180 | the same for a label, which a reviewer may not give at a confidence of 0.7 or more |
| `Repositories.DocumentRepository.EnsureForIngest` | backend/app/repositories/document_repo.py:15-50 | the session ends as the specification says, or the same refusal is raised |
| `Repositories.PredictionRepository.CreateIdempotent` | backend/app/repositories/prediction_repo.py:22-56 | the same for the upsert, with its foreign keys and constraints |
| `Repositories.UserRepository.Delete` | backend/app/repositories/user_repo.py:57-61 | the row goes and the user's audit entries lose their actor |
| `Repositories.AuditRepository.Insert` | backend/app/repositories/audit_repo.py:18-34 | one entry is appended, unless the actor is no longer a user |
| `Api.PredictionService.Relabel` | backend/app/services/prediction_service.py:167-201 | the confidence gate, the new label and its log entry, or the refusal of the specification |
| `Api.UserService.DeleteUser` | backend/app/services/user_service.py:106-131 | both guards, the deletion and its log entry, or a refusal |
| `Api.RequireRole` | backend/app/api/deps.py:184-209 | the actor's role when the policy allows the action, else unauthorised or forbidden |
| `Api.HistoryGoverns` | backend/app/api/deps.py:62-69 | after any history of transactions the tables are in order, an administrator exists if the role targets were canonical, and roles, notes and labels are those that log and history give |
| `Api.HandleRequest` | backend/app/api/deps.py:47-69 | a request commits exactly the specified tables or rolls back to the former ones, and hands on a state that its whole history governs |
| `Api.RecordResult` | backend/app/infra/worker_prediction_service.py:23-29 | a worker's record is committed whole or not at all |
| `Api.EnsureDocumentRow` | backend/sftp_ingest/processor.py:110-121 | a batch row added before a refusal is never committed |
| `Protocol.TablesOfRun` | backend/sftp_ingest/processor.py:63-139 | the tables of every pipeline run are those of a run of transactions, so all results on runs apply |
| `Protocol.FailedCall` | backend/sftp_ingest/processor.py:94-139 | a call of the ingest process that fails without effect changes nothing; one that fails after its effect has done what a success does, and the process still stands before it |
| `Protocol.FailedWork` | backend/worker/handler.py:118-157 | the same for a worker's call |
| `Protocol.WorkRecords` | backend/worker/handler.py:142-157 | the record that a worker commits has the job's ids, the ranking of the bytes fetched, the model version, and its own id, latency and moment |
| `PipelineSafety.StepKeeps` | backend/sftp_ingest/processor.py:63-91 | each step of ingest, worker, queue or request, with any fault, keeps the invariant of the pipeline |
| `PipelineSafety.Always` | backend/worker/handler.py:111-166 | every reachable state satisfies the invariant |
| `PipelineSafety.NoDocumentLost` | backend/sftp_ingest/processor.py:82-85 | under every schedule each processed file has its blob stored, its row committed in its batch, and a job that is queued, running or failed, or a committed prediction |
| `PipelineSafety.FilesAreSorted` | backend/sftp_ingest/processor.py:63-91 | in every reachable state a processed file is a TIFF of an allowed size whose path names its ids, a quarantined one is not and did not raise, and each lies under its basename |
| `PipelineSafety.JobsAreGrounded` | backend/sftp_ingest/processor.py:82-85 | every job finds its blob in the bucket and a committed row of its own batch |
| `PipelineSafety.FailureIsInjected` | backend/worker/handler.py:111-157 | with a fresh id, a step of a running job fails exactly when a fault was injected |
| `PipelineSafety.OnePredictionPerDocument` | backend/app/repositories/prediction_repo.py:22-56 | at most one prediction per document, in the batch of the document's row, although the upsert never compares batches |
| `PipelineSafety.BatchesCounted` | backend/app/repositories/document_repo.py:24-46 | counters are right and at least 1 through retries, late failures and refused batches |
| `FileConservation.FilesConserved` | backend/app/infra/sftp.py:82-90 | in every reachable state each file ever dropped lies in exactly one place |
| `FileConservation.FilesNeverLost` | backend/app/infra/sftp.py:82-90 | along every run a file stays where it is or goes once from the drop folder to a target folder, unchanged |
| `FileConservation.BlobsAlwaysHonest` | backend/sftp_ingest/processor.py:94-101 | every stored blob holds the bytes of some file whose ids make its key |
| `SharedKeys.StoredIsLastUpload` | backend/sftp_ingest/processor.py:94-101 | in every reachable state a key is stored exactly when something was uploaded under it, and holds the bytes of the last effective upload |
| `SharedKeys.OwnBytesExactlyWhen` | backend/sftp_ingest/processor.py:82-85 | a processed file's blob holds its own bytes if and only if the last effective upload under its key carried them |
| `SharedKeys.OwnBytesWithoutTwin` | backend/sftp_ingest/processor.py:82-85 | so it is when no other file on the server was accepted under the key |
| `SharedKeys.ProcessedFileMayLoseItsBytes` | backend/sftp_ingest/validation.py:38-54 | for any ids and two different valid contents there is a fault-free run after which the file `{document}.tif` is processed and its blob holds the bytes of the file `{document}` |
| `Provenance.PredictionsFromFiles` | backend/worker/handler.py:118-157 | in every reachable state each prediction holds the predictor's ranking for a file on the server that was accepted under the prediction's own ids |
| `Provenance.OverlaysFromFiles` | backend/worker/handler.py:133-138 | in every reachable state each overlay was drawn on a file accepted under the ids in its name |
| `Provenance.PredictionsHaveTheirOverlay` | backend/app/api/routers/predictions.py:128-132 | in every reachable state the API finds for each prediction its own overlay: the address is made of texts that name the prediction's ids, and the object there was drawn on a file accepted under these texts |
| `Provenance.DocumentsHaveTheirBlob` | backend/sftp_ingest/processor.py:82-83 | in every reachable state the key in each document's row is stored in the bucket, and is the blob key of texts that name the row's own id and batch |
| `Processes.Plant.Await` | backend/sftp_ingest/processor.py:42-60 | whatever others do during a remote call, the process finds its own files, rows and job as they were |
| `Ingest.UploadWithRetry` | backend/sftp_ingest/processor.py:94-101 | returns normally exactly when one of the next three calls succeeds, makes no call after the first that does, makes three when none does, and touches no file and no row |
| `Ingest.EnsureDocumentRow` | backend/sftp_ingest/processor.py:104-121 | the same for the row, which is written on success; a batch mismatch always fails, after exactly three calls |
| `Ingest.EnqueueWithRetry` | backend/sftp_ingest/processor.py:124-139 | the same for the queue |
| `Ingest.MoveFile` | backend/app/infra/sftp.py:82-90 | succeeds exactly when the call does and the target name is free, and then moves just this file |
| `Ingest.ProcessRemoteFile` | backend/sftp_ingest/processor.py:63-91 | after a normal return the file is settled: quarantined, or processed with its row; when its own calls meet no fault and the names are free it returns normally exactly when the file is not stuck |
| `Ingest.SettledExactly` | backend/sftp_ingest/processor.py:63-91 | what settled and stuck mean by kind, size, path and rows: a file is stuck if and only if it raises or is acceptable and filed under another batch, and then lies in the drop folder; any other lies in quarantine if it is not acceptable, and in the processed folder if it is |
| `Ingest.PollOnce` | backend/sftp_ingest/processor.py:42-60 | files in target folders stay; each listed file with a basename of its own whose own turn meets no fault ends settled, whatever the order, the faults of other files and the other processes |
| `Ingest.DrainOnce` | backend/sftp_ingest/processor.py:42-60 | a fault-free poll of all that is there leaves in the drop folder only files refused for their batch, files raising an image error, and new ones |
| `Workers.SurvivesFewFaults` | backend/worker/handler.py:112-117 | a job with n attempts gets through when fewer than n of its next 3n calls fail and all of these are tried again, wherever they strike |
| `Workers.RetryCostsOneAttempt` | backend/worker/handler.py:112-117 | a failing call with a retryable error: the job gets through if and only if it does from the next call on with one attempt less |
| `Workers.FinalErrorEnds` | backend/worker/handler.py:112-117 | a failing call with any other error: the job does not get through, however many attempts it has |
| `Workers.FreshIdsExist` | backend/worker/handler.py:147 | in every world and whatever the endings, there are scripts with fresh ids as long as there are ids above those in use |
| `Workers.JobCanHaveFreshIds` | backend/worker/handler.py:147 | in particular for all nine calls of a job just taken from the queue |
| `Workers.AttemptJob` | backend/worker/handler.py:118-157 | an attempt makes its three calls or stops at the first failing one, whose error alone decides whether it is tried again; with fresh ids it completes exactly when its last call succeeds; a completed one leaves a row with the result for bytes stored meanwhile under the job's key and the latency of the call, and the overlay |
| `Workers.ClassifyJob` | backend/worker/handler.py:71-168 | the job is finished or failed after at most three attempts, each but the last broken off by a retryable error; with fresh ids for its nine calls it is finished if and only if one of three attempts has all its calls succeeding and every earlier one ended in a failing, retryable call, so always when at most two of the nine calls fail and these are retryable, whatever others do |
| `Workers.ServeQueue` | backend/worker/handler.py:71-168 | with fresh ids, every job that is found finished, or found waiting and let through, has its prediction in the table after a worker's way through the queue |
| `EndToEnd.DeliverAll` | backend/sftp_ingest/processor.py:63-91 | poll, then serve the queue: each valid, unrefused file whose own turn meets no fault has a job, and once that is served it has a prediction made from a file with its ids, and the API finds its own overlay, whatever becomes of other files and jobs |
| `Caching.KeysCollide` | backend/app/services/batch_service.py:65-77 | two queries share a cache key exactly when they are the same or are the batch list and a batch called "list" |
| `Caching.HitDecodes` | backend/app/services/batch_service.py:65-77 | a stored text has the shape that the query expects exactly when the query is not the batch called "list" |
| `Caching.BoundedStaleness` | backend/app/services/prediction_service.py:79-89 | for any interleaving of writes, evictions, faults and ineffective clears, a hit shows what the database held less than a time-to-live ago, plus the longest delay between a read and its fill |
| `Caching.AnswersForItsTime` | backend/app/services/user_service.py:28-48 | an answer stored at once and left alone is shown for 60 seconds for a user, 15 for the recent predictions, 30 for batches, and no longer |
| `Caching.AnswersAre` | backend/app/services/batch_service.py:45-77 | after any run the database answers with the user's current address and role, the fifty newest predictions, or batches with the numbers of their documents, and refuses texts that name nothing |
| `Caching.HitHasLiveFill` | backend/app/services/user_service.py:28-48 | the cache answers exactly while some fill of the key is neither evicted nor replaced nor expired, and with what that fill stored |
| `Caching.MissAfterClear` | backend/app/services/user_service.py:102-104 | once a key is cleared, a read misses if and only if no fill since then is still live |
| `Caching.FreshExactlyWhen` | backend/app/services/user_service.py:65-104 | a read after an event misses, or is answered from a reading of the database at the event or later, if and only if no fill with an older reading is still live; if one is, the read shows what the database answered before |
| `Caching.LateFillShowsFormer` | backend/app/services/user_service.py:65-72 | after any run, a read before a write that fills the cache after it leaves the former answer to be shown, although the key was cleared in between |
| `Caching.RoleChangeMayStayUnseen` | backend/app/services/user_service.py:77-104 | so the read after a role change may show the former role |
| `Caching.ReadSide.Read` | backend/app/services/user_service.py:65-72 | the cached reads of the services return an answer of bounded age or the database's refusal, and fill the cache unless that fails |
| `Listing.SortSorts` | backend/tests/fakes/prediction_repo.py:62 | the sort gives a newest-first rearrangement |
| `Listing.SortIsStable` | backend/tests/fakes/prediction_repo.py:62 | rows of one moment keep their order |
| `Listing.StableOrderIsUnique` | backend/tests/fakes/prediction_repo.py:62 | there is only one stable newest-first order |
| `Listing.QueryOrderIsUnique` | backend/app/repositories/prediction_repo.py:71 | without ties every answer that ORDER BY allows is the sorted list |
| `Listing.FilterCommutes` | backend/tests/fakes/prediction_repo.py:62-66 | sorting and then filtering is filtering and then sorting |
| `Listing.FakeRefinesQuery` | backend/app/repositories/prediction_repo.py:64-78 | the fake's pages are those of the query's order of operations |
| `Listing.PagesArePrefix` | backend/tests/fakes/prediction_repo.py:67-68 | the first n pages are the first n * limit rows, nothing repeated or missed |
| `Listing.PagesAreAll` | backend/tests/fakes/prediction_repo.py:55-68 | enough pages of any positive size are the whole filtered, newest-first list |
| `Listing.RecentIsFirstPage` | backend/tests/fakes/prediction_repo.py:45-47 | the recent predictions are the first page without filters |
| `Listing.OrderUnchanged` | backend/app/repositories/prediction_repo.py:41-51 | delivering a recorded job again, and every request, leaves the newest-first order of ids as it was |
| `Listing.FetchInferenceLatencies` | backend/scripts/benchmark_latency.py:69-81 | terminates with the latencies of the first pages of a hundred rows, of no page more than it takes, and of all rows or at least as many as asked for |
| `Listing.LatenciesAre` | backend/scripts/benchmark_latency.py:77 | these are the latencies of just the rows that have one, in their order |
| `Percentile.PercentileBounds` | backend/scripts/benchmark_latency.py:27-33 | between minimum and maximum, reached at 0 and 100; the samples up to position (n - 1) * p / 100 of the sorted list are no larger, the others no smaller; 0 without samples |
| `Percentile.StraightLine` | backend/scripts/benchmark_latency.py:27-33 | the interpolation is linear: samples that lie evenly spaced on a line, in any order, give its point at (n - 1) * p / 100 |
| `Percentile.MonotoneInP` | backend/scripts/benchmark_latency.py:27-33 | a higher percentile is never a lower value, across segment boundaries |
| `Percentile.OrderDoesNotMatter` | backend/scripts/benchmark_latency.py:30 | samples in another order give the same percentile |
| `Percentile.MonotoneInSamples` | backend/scripts/benchmark_latency.py:27-33 | when no sample shrinks, no percentile does |
| `Walk.YieldsFilesOnce` | backend/app/infra/sftp.py:65-71 | each yielded path opens a file, and no path is yielded twice |
| `Walk.YieldsEveryFile` | backend/app/infra/sftp.py:65-71 | every path under which a file can be opened is yielded |
| `Walk.WalkIsExact` | backend/app/infra/sftp.py:57-71 | a path is yielded exactly when it is the path of a file |
| `UserStore.CreateDelete` | backend/tests/fakes/user_repo.py:38-81 | deleting a user just created restores all three dictionaries |
| `UserStore.DeleteLeavesNoTrace` | backend/tests/fakes/user_repo.py:77-81 | nothing of a deleted user is left, and nothing of any other is touched |
| `UserStore.FakeUserRepo.CreateUser` | backend/tests/fakes/user_repo.py:38-53 | refused exactly when some user has the address; the first user is an administrator; the user, the address and the given hash are stored, and the three dictionaries stay consistent |
| `UserStore.FakeUserRepo.GetByEmail` | backend/tests/fakes/user_repo.py:61-63 | finds the one user with the address, and only when there is one |
| `UserStore.FakeUserRepo.CountAdmins` | backend/tests/fakes/user_repo.py:74-75 | the loop counts the administrators of the store |
| `UserStore.FakeUserRepo.Delete` | backend/tests/fakes/user_repo.py:77-81 | removes the user from all three dictionaries or refuses without change |
| `UserStore.RegisterAgrees` | backend/app/api/routers/auth.py:33-41 | registering over the fake is registering over the database |
| `UserStore.UpdateRoleAgrees` | backend/app/repositories/user_repo.py:43-49 | for canonical texts the fake changes roles as the database does |
| `UserStore.DeleteAgrees` | backend/app/repositories/user_repo.py:57-61 | for canonical texts the fake deletes as the database does |
| `UserStore.LookupAgrees` | backend/tests/fakes/user_repo.py:55-59 | fake and database find the same user for a text exactly when it is canonical or the database finds none |

## Left out

- Ingest.PollOnce: the listing is a parameter, because the drop folder may change between the listing and the moves; a failing `list_incoming` ends the process and is not modelled.
- Processes.Plant.Await: a crash of the process in the middle of a call is an event of the protocol only; the imperative methods run until they return.
- Redelivery.RedeliveryInTraffic: leaves out other results for the job's own row between the deliveries: their confidence decides which relabellings the gate accepts, so the traffic would no longer be the same; what the row holds then is said by `LastWriter.RowIsExplained`.
- EndToEnd.DeliverAll: a job that another worker holds or has failed at its turn is left to that worker.
- Caching.ReadSide.Read: stands for the four cached reads, which run the same code on different keys; JSON encoding and the order of the batch list are not modelled.
- Listing.QueryOrderIsUnique: the order that the database gives to rows of the same moment is open, as in SQL.
- Percentile.PercentileBounds: over exact reals; floating-point rounding and percentiles outside 0 to 100 are not modelled.
- UserStore.FakeUserRepo.CreateUser: the fresh id is a parameter that is not yet in the store; the order of `list_users` is not modelled.
- Services.AcceptedIs: database errors other than keys, foreign keys and the confidence check, such as column widths, are the same as an injected failure of the whole transaction.
- Non-ASCII digits and spaces in UUID texts, which Python also accepts.
- Login, tokens, password hashing, Vault, CORS, middleware, request ids and logging.
- Torch inference, image decoding and overlay drawing: part of a file's content, see above.
- Loss of the queue itself, and concurrent requests: requests are serialised, as the code takes no locks.
- Waiting times between retries; only the number of attempts is kept.
- Batch status and creation time, the scan endpoints, presigned addresses, audit listing and user listing.
- `FakePredictionRepo.create_idempotent` and its updates: the fake upserts on the id, unlike the repository.
- `scripts/enqueue_local.py` and `demo_pipeline.py`, which put jobs into the queue past the ingest process.
- The React front end, migrations and deployment.
