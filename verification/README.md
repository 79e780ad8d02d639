# Verified model of the chunked upload service

This project models the upload protocol of rag-file-uploader in Dafny and proves what the protocol keeps over whole runs:
initiate, process chunk, abort and complete, running over Redis (session hashes, expiry notes, chunk bytes, the rate
counter, the fingerprint hash, dead letters), S3 multipart uploads and an event publisher. Every external call may raise,
keys expire, clients retry and race.

Check it with `dafny verify dfyconfig.toml` (Dafny 4.11).

## How it is built

The values that the stores hold are one datatype, `World`: Redis maps with deadlines, S3 objects and open multipart
uploads, publish calls and deliveries. On it there are four models.

1. **The sequential model.** `UseCases`, `Redis`, `Storage` and `UploadSession` are classes whose methods change the
   stores call by call, as the program does. Each method is proved equal to a function in `Protocol` (or beside the
   class). A set `failing` names the external calls that raise; a call that raises has no effect, so a crash is the case
   in which all later calls raise. `Actions.Run` applies any sequence of operations with any failures and any waiting in
   between, starting from empty stores; the only assumption is that a session id is drawn once. SHA-256 is an arbitrary
   function to digests: no result needs it to be free of collisions.
2. **The interleaved limiter.** `LimiterInterleaving` splits the rate limiter at each HGET, HINCRBY and HSET, with any
   number of callers and any order.
3. **The interleaved writers.** `WriterInterleaving` splits the requests on one session at each HGETALL, SET, TTL, HSET,
   GET, DEL, HINCRBY, HEAD, upload and publish. Stale records, lost updates, expiry between two commands and racing
   completions are all in it. `WriterRaces` and `CompletionRaces` show what does break there, and exactly when.

4. **The interleaved duplicate check.** `DedupInterleaving` splits the completions of different sessions with one content
   at duplicate check, publish and registration.

Around them stand the manifest check and its sort (`Manifest`), multipart assembly (`Storage`), the retrying publisher
with its dead letters (`RetryPublisher`), the key texts of the flat Redis keyspace (`KeySpace`), and the session hash and
fingerprint metadata as text (`Decimal`, `Json`, `SessionCodec`).

| file | what it holds |
|---|---|
| `Types`, `Events`, `World` | values, the completion event and its guards, the stores and single commands on them |
| `UploadSession`, `Redis`, `Storage`, `UseCases` | the program's classes, proved against functions |
| `Protocol` | the four operations as functions on the world |
| `Sessions`, `Publication`, `Shapes` | the invariants, and why each operation keeps them |
| `Answers` | every answer and every state left behind by the four operations, case by case |
| `Actions`, `Safety`, `Lifecycle`, `Slots`, `RoundTrip`, `DedupOnce` | results about whole runs |
| `LimiterInterleaving`, `WriterInterleaving` | results about every interleaving |
| `UndisturbedRuns` | without interleaving, aborts and completions are those of the sequential model |
| `WriterRaces`, `CompletionRaces` | what racing requests on one session break, by example and by exact condition |
| `DedupInterleaving` | how often a content is announced when its completions race |
| `Manifest`, `RetryPublisher`, `KeySpace`, `Decimal`, `Json`, `SessionCodec` | the supporting components |

## What the proofs say about the code

Where the code and its comments or documents disagree, the model follows the code. These are the places.

- "At most one event per content as long as registration works" is false: if the write of COMPLETE raises after the event
  is out, registration is not even tried (complete_upload.py:325-326, 445-460) and the next upload of the same file is
  announced again (`DedupOnce.RegistrationAloneIsNotEnough`). The exact condition is `DedupOnce.StepRepeats` for a step
  and `DedupOnce.RepeatedExactly` for a run: a content is announced twice if and only if some completion delivers its
  event while that content was delivered before and has no fingerprint. `DedupOnce.UnregisteredIsRepeated` shows that
  no such gap is harmless, whichever of the two calls raised and whatever run came before. If neither call ever raises
  there is no gap (`DedupOnce.StepRegisters`, `DedupOnce.AnnouncedOnce`).
- A completion that ends in FAILED keeps its upload slot for good (complete_upload.py:265-273, 320-322, 423-428).
  `Answers.FailsExactly` says when a record becomes FAILED; `Slots.SlotConservation` counts this among the leaks.
- An abort whose delete raises leaves the record ABORTED, and its slot taken (abort_upload.py:189-194);
  `Answers.CancelAnswersExactly` shows that this is the only trace an unanswered abort leaves.
- A multipart upload stays open not only when its abort raises but also when the create response has no upload id
  (storage_client.py:438-456); `Storage.AssembleExits` gives the exact condition in terms of the calls that raise.
- `update_session` is called atomic, but two racing chunk requests can lose an update: the persisted offset then moves
  backwards (`WriterRaces.OffsetCanMoveBack`). From one stored record to the next it does so exactly when a request writes
  back a record with fewer chunks (`WriterRaces.OffsetFallsExactly`). It never falls in a run in which nobody writes back
  an older record or one that has been deleted (`WriterRaces.OffsetsRise`).
- The terminal-status check of an abort is said to prevent a double decrement (abort_upload.py:174-177), but the slot of
  one session can be freed more than once: by two racing aborts (`WriterRaces.TwoAbortsFreeTwice`), by an abort and a
  completion (`CompletionRaces.AbortAndCompleteFreeTwice`), and by any number of racing completions
  (`CompletionRaces.RacingCompletionsFree`). The slots freed are one for each write of ABORTED or COMPLETE, less the ones
  lost or still on their way (`WriterRaces.FreedAsWritten`, `WriterRaces.FreedTwiceExactly`);
  `WriterRaces.AnotherSlotExactly` says when another one can still be freed.
- An HSET that comes after a delete brings the session back, live and without a TTL (`WriterRaces.AbortCanBeUndone`).
  A deleted record stays deleted if and only if no request is past its TTL command (`WriterRaces.GoneForGoodExactly`);
  one that came back never expires (`WriterRaces.NeverExpires`).
- Racing completions can publish the event of one session any number of times, because the existence check and the upload
  are apart (`CompletionRaces.PublishBoundIsReached`). With at most k completions between the two at any time there are
  at most k calls (`CompletionRaces.PublishBound`). Once the object is there, the calls still to come are at most, and can
  be as many as, the completions past their check (`CompletionRaces.MorePublishesExactly`); so the event is published at
  most once for good if and only if at most one call is made or ahead (`CompletionRaces.PublishedOnceExactly`).
- Completions of different sessions with the same content that race between the duplicate check and the registration are
  all announced (`DedupInterleaving.EventsBoundIsReached`). `DedupInterleaving.EventsBound` bounds the events by the
  completions in that stretch, and `DedupInterleaving.AnnouncedOnceExactly` says when there is at most one for good.
- Through all of this nothing stored becomes wrong as long as all clients cut the file at the same places
  (`WriterInterleaving.EveryInterleaving`), and that condition is needed (`WriterRaces.CutsMustAgree`).
- The note about an expired session lives seven days from the creation of the session, not from its expiry
  (session_store.py:185); `Lifecycle.LookupByAge` has the resulting ages.
- A media type such as `Application/PDF` passes the request check and is refused by the entity after the slot is taken;
  the slot is then given back. `Protocol.InitiateUpload` follows this order.
- A duplicate leaves its assembled object on S3 (complete_upload.py:235, 256-273), and a chunk that would overshoot the
  file is stored before it is refused (process_chunk.py:232-249).

## Model

| member | source | states |
|---|---|---|
| Safety.CompletionSafety | src/application/use_cases/complete_upload.py:191-326 | Under any failures and in any run: once a session is COMPLETE, then there and in every later state all bytes were received, its event was delivered, and the object exists with the session's size and digest |
| Safety.PublishedAtMostOnce | src/application/use_cases/complete_upload.py:235-326 | However often completion is retried after failures, publish is called at most once for each session; the object it announces was there at the call and stays, unchanged and not corrupt; only what was called is delivered |
| Safety.FingerprintsAreSound | src/application/use_cases/complete_upload.py:252-380 | Every fingerprint of a workspace points to a published file of that workspace whose object has that digest and size, then and ever after |
| Safety.AppendInvariant | src/application/use_cases/process_chunk.py:219-256 | In every reachable state a live session lists indices 0..n-1 in order, sizes adding up to the offset and not beyond the size, entries matching the stored bytes; chunks outlive the session; at most one stray chunk, at index n |
| Safety.NoChunkIsMissing | src/application/use_cases/complete_upload.py:191-223 | For a stored session, completion passes its checks and the retrieval exactly when the session is IN_PROGRESS, all bytes are received and no read raises; a missing chunk is never the reason for a refusal |
| Safety.RunGrows | src/infrastructure/s3/storage_client.py:219-318 | Over a run no finished object is removed or changed, and no publish call or delivery is forgotten |
| RoundTrip.UploadedIsTheFile | src/application/use_cases/complete_upload.py:204-240 | End-to-end round trip: in any run, mixed with stale, repeated, oversized, damaged and failing PATCHes, where the undamaged PATCHes that fit into the file carry its bytes, a completion that answers leaves an object equal to the file, and it stays so |
| RoundTrip.StartSucceedsExactly | src/application/use_cases/initiate_upload.py:96-221 | An upload starts if and only if the request is acceptable, the workspace is below its limit and no needed call raises; it then has a record, a note and one more slot, and otherwise no record |
| RoundTrip.CancelSucceedsExactly | src/application/use_cases/abort_upload.py:88-206 | An abort is answered if and only if the session is live and no needed call raises; record and note are then gone and the slot is given back as the decrement says; otherwise all three stay |
| RoundTrip.SendSucceedsExactly | src/application/use_cases/process_chunk.py:178-259 | A PATCH is accepted if and only if the session is live, the offset is the session's, the size is within both bounds, the checksum fits and no needed call raises; otherwise the record is unchanged |
| RoundTrip.FinishSucceedsExactly | src/application/use_cases/complete_upload.py:163-415 | A completion is answered if and only if the session can be completed (no object, no fingerprint, digest fits, at most 10,000 chunks) and none of the calls that matter raises; the object is the stored chunks joined in order |
| RoundTrip.ResumeReachesEnd | src/application/use_cases/process_chunk.py:202-259 | From any live session the resume loop, which decreases size minus offset, reaches the end of the file, one manifest entry for each piece |
| RoundTrip.ResumedUploadCompletes | src/application/use_cases/complete_upload.py:204-240 | An interrupted upload resumed from its offset and then completed succeeds and leaves the file |
| RoundTrip.HeadThenResume | src/infrastructure/redis/session_store.py:346-370 | A client that takes the offset from HEAD, resumes there and completes leaves the file |
| Answers.StartAnswersExactly | src/application/use_cases/initiate_upload.py:157-221 | Every answer of an initiate from the fields of the request, the counter and the calls that raise, with the state left: rate limit refused if and only if the request passes, the counter is read and is at the limit; the new record and note field by field; the compensated counter |
| Answers.SendAnswersExactly | src/application/use_cases/process_chunk.py:178-259 | Every answer of a PATCH in the order of the checks, the offset mismatch with stored and sent offset, and the state left: a stray chunk on overshoot or when the record cannot be written, else nothing on errors, else one entry more |
| Answers.CancelAnswersExactly | src/application/use_cases/abort_upload.py:163-206 | Every answer of an abort and the state left: an abort that is not answered leaves ABORTED if and only if the session is live, was read and marked, and the delete raises; otherwise it changes nothing |
| Answers.AssembleAnswersExactly | src/infrastructure/s3/storage_client.py:141-361 | Every answer of the assembly from the chunks, the objects and the calls that raise, the path and size of a success, and the object left |
| Answers.FinishAnswersExactly | src/application/use_cases/complete_upload.py:163-460 | Every answer of a completion and the world it leaves, from the record, the stores and the calls that raise: which error, whether the record is FAILED, COMPLETE or untouched, path and size of a success, counter, fingerprint, remaining chunks, object, open uploads, publish call and delivery |
| Answers.FailsExactly | src/application/use_cases/complete_upload.py:256-460 | A live session ends FAILED if and only if it was read with all bytes received, the completion does not succeed, and one of the writes of FAILED on its way works; it ends COMPLETE if and only if the completion succeeds |
| WriterInterleaving.EveryInterleaving | src/application/use_cases/process_chunk.py:184-256 | Under every interleaving of Redis commands each stored chunk i is chunk i of the file, apart from a stray one after the last, and each stored record has the offset at the boundary of its manifest length, with the sizes and digests of the first chunks |
| WriterInterleaving.ObjectIsAlwaysTheFile | src/application/use_cases/complete_upload.py:222-326 | However completions race with writers and each other, only the file itself is put on S3 and it is never taken away, publish is only called when it is there, and COMPLETE is only stored when it is there and an event was delivered |
| WriterRaces.OffsetCanMoveBack | src/infrastructure/redis/session_store.py:471-493 | A lost update: for every file of two or more chunks some interleaving of honest requests makes the persisted offset fall back |
| WriterRaces.TwoAbortsFreeTwice | src/application/use_cases/abort_upload.py:176-206 | Two aborts that read the same live record decrement the counter twice |
| WriterRaces.AbortCanBeUndone | src/infrastructure/redis/session_store.py:471-493 | A chunk request between TTL and HSET recreates the session that an abort has just deleted, live and without a TTL, although its slot was given back |
| WriterRaces.OffsetFallsExactly | src/infrastructure/redis/session_store.py:471-493 | One command lowers the persisted offset if and only if it writes back a record that lists fewer chunks than the stored one |
| WriterRaces.OffsetsRise | src/infrastructure/redis/session_store.py:471-493 | In a run in which no older or deleted record is written back the persisted offset never falls, however the commands interleave |
| WriterRaces.FreedAsWritten | src/application/use_cases/complete_upload.py:324-351 | Conservation under every interleaving, from any state on: slots given back, on their way and lost grow by exactly one for each write of ABORTED or COMPLETE |
| WriterRaces.FreedTwiceExactly | src/application/use_cases/abort_upload.py:174-206 | A session gives back more than one slot only if ABORTED and COMPLETE together were written more than once, and exactly then when no request is under way after such a write or raised there |
| WriterRaces.AnotherSlotExactly | src/application/use_cases/abort_upload.py:174-206 | In every reachable state, without a further abort reading the record and a further completion passing HEAD: another slot can be freed if and only if a request is on its way to free one, or one that heads for ABORTED or COMPLETE is past its TTL command or can still pass it |
| WriterRaces.RecreatedExactly | src/infrastructure/redis/session_store.py:471-493 | A missing record comes back exactly by the HSET of a request past its TTL command, and then has no TTL |
| WriterRaces.GoneForGoodExactly | src/infrastructure/redis/session_store.py:471-493 | A missing record stays missing whatever happens if and only if no request is past its TTL command |
| WriterRaces.NeverExpires | src/infrastructure/redis/session_store.py:481-490 | A record without a TTL never expires and never gets one: only a delete takes it away |
| CompletionRaces.PublishBound | src/infrastructure/s3/storage_client.py:219-262 | Under every interleaving, with at most k completions between HEAD and upload at any time, publish is called at most k times |
| CompletionRaces.PublishBoundIsReached | src/infrastructure/s3/storage_client.py:219-262 | For every k and every file of one chunk, some interleaving with at most k completions in that stretch publishes and delivers k times |
| CompletionRaces.MorePublishesExactly | src/infrastructure/s3/storage_client.py:415-429 | Once the object is there, of all that can follow the most publish calls are those made and one for each completion past HEAD, and so many can be made |
| CompletionRaces.PublishedOnceExactly | src/application/use_cases/complete_upload.py:235-326 | In every reachable state with the object there: the event is published at most once for good if and only if at most one call is made or ahead, and another call is possible if and only if a completion is past HEAD |
| CompletionRaces.AbortAndCompleteFreeTwice | src/application/use_cases/complete_upload.py:324-351 | One abort and one completion that read the same record both give its slot back |
| CompletionRaces.RacingCompletionsFree | src/application/use_cases/complete_upload.py:324-351 | For every k, k racing completions give the slot of one session back k times without any abort |
| DedupInterleaving.EventsBound | src/application/use_cases/complete_upload.py:252-370 | Under every interleaving, with at most k completions of one content between check and registration at any time, the workspace hears of it at most k times, and once more for each completion that raised between its delivery and the first registration |
| DedupInterleaving.EventsBoundIsReached | src/application/use_cases/complete_upload.py:252-370 | For every k, k completions that all check before one registers announce the content k times, with no call raising |
| DedupInterleaving.AnnouncedOnceExactly | src/application/use_cases/complete_upload.py:252-370 | From any state, the workspace hears of the content at most once in all if and only if the fingerprint is registered and at most one event is delivered or still to come |
| DedupInterleaving.Alone | src/application/use_cases/complete_upload.py:252-370 | A completion whose commands run undisturbed announces the content exactly when it has no fingerprint |
| WriterRaces.CutsMustAgree | src/application/use_cases/process_chunk.py:219-256 | With two different cuts of the same bytes a record can list a size that is not the size of the stored chunk |
| WriterInterleaving.AloneIsSequential | src/application/use_cases/process_chunk.py:178-259 | A chunk request whose commands run undisturbed has exactly the effect of the sequential model, whether refused, overshooting or accepted |
| UndisturbedRuns.AbortAloneIsSequential | src/application/use_cases/abort_upload.py:163-206 | An abort whose commands run undisturbed has exactly the effect of the sequential model and frees a slot exactly when it is answered |
| UndisturbedRuns.FinishAloneIsSequential | src/application/use_cases/complete_upload.py:163-345 | A completion whose commands run undisturbed changes record, object, publish calls, deliveries and freed slots exactly as the sequential model does |
| UndisturbedRuns.RaisingAlone | src/application/use_cases/complete_upload.py:417-460 | Wherever a completion stands when a call of it raises or it meets a duplicate, undisturbed it writes FAILED and ends without another effect |
| UndisturbedRuns.UnpublishedAlone | src/application/use_cases/complete_upload.py:309-428 | A completion whose publish raises writes FAILED twice, once in each of the two handlers |
| UndisturbedRuns.MissingChunkAlone | src/application/use_cases/complete_upload.py:524-540 | A completion that finds a listed chunk missing ends and writes nothing |
| WriterInterleaving.ExecKeeps | src/application/use_cases/process_chunk.py:219-256 | Each single command keeps records, chunks, object and every paused request consistent with the file |
| WriterInterleaving.VerifiedIsNext | src/application/use_cases/process_chunk.py:202-217 | The strict offset check alone makes a verified request carry exactly the next chunk of the record it read, if there is a next one |
| LimiterInterleaving.Ceiling | src/application/services/rate_limiter.py:144-192 | Under every interleaving with checks, increments, decrements, queries, resets and failures: with at most k callers between check and increment, the counter plus those callers is at most limit - 1 + k |
| LimiterInterleaving.CeilingIsReached | src/application/services/rate_limiter.py:144-146 | The bound is attained for every limit and every k; k = 2 gives the documented limit + 1 |
| LimiterInterleaving.Floor | src/application/services/rate_limiter.py:243-267 | Under every interleaving the counter is at least minus the decrements between their two commands and those that raised there; so it is not negative when there are none |
| LimiterInterleaving.FloorIsReached | src/application/services/rate_limiter.py:254-267 | n decrements that raise between HINCRBY and HSET leave the counter at -n |
| LimiterInterleaving.Undisturbed | src/application/services/rate_limiter.py:162-267 | A caller that runs both its commands undisturbed does what the sequential take and free say, and is refused with the rate limit error exactly when its check does not pass |
| LimiterInterleaving.UndisturbedQuery | src/application/services/rate_limiter.py:288-393 | An undisturbed query leaves the counter, or 0 in place of a negative one; a reset leaves 0 |
| Slots.SlotConservation | src/application/use_cases/initiate_upload.py:166-221 | Without administrative resets, counter = live sessions + leaks so far; by call names, leaks grow exactly on a FAILED that can be written, the expiry of a live session, an abort whose delete raises, or a lost decrement; so live sessions never exceed the limit |
| Slots.NegativeCounterUnreachable | src/application/services/rate_limiter.py:257-267 | For a live session the decrement never meets a negative counter: it subtracts one or raises at its first command |
| Slots.ClampUnreachable | src/application/services/rate_limiter.py:257-321 | After any run without administrative resets no operation reaches the command that resets a negative counter, the compensation of a failed start included; the counter of every workspace is not negative, so no query does |
| Slots.StepSlots | src/application/use_cases/abort_upload.py:176-206 | One operation changes the leaks of a workspace by exactly its own leak and keeps the counter within the limit |
| Lifecycle.RecordsOnlyAdvance | src/domain/entities/upload_session.py:223-292 | Between any two points of a run a stored record keeps its constants and deadline, its offset and manifest only grow, its status only advances, and a finished record does not change |
| Lifecycle.StepAdvances | src/application/use_cases/process_chunk.py:194-253 | One operation moves the status by at most one step of PENDING, IN_PROGRESS, end or PENDING, ABORTED |
| Lifecycle.LookupByAge | src/infrastructure/redis/session_store.py:344-427 | At age a since creation, whatever happened: exactly the stored record for a < 86400, only the expiry note for 86400 <= a < 604800, neither afterwards or after a successful abort |
| Lifecycle.HeadAfterSend | src/infrastructure/redis/session_store.py:346-370 | After a PATCH was answered with an offset and until the next accepted one, in any run, a HEAD that finds the session reports that offset |
| Lifecycle.ChunksAreTemporary | src/application/use_cases/process_chunk.py:230-232 | In every reachable state each chunk, stray ones included, was stored less than a day ago |
| DedupOnce.StepRegisters | src/application/use_cases/complete_upload.py:292-380 | While every delivered event has a fingerprint, a step keeps it so if and only if it does not deliver an event whose write of COMPLETE or registration raises; and it delivers no content twice |
| DedupOnce.AnnouncedOnce | src/application/use_cases/complete_upload.py:252-380 | If neither of these two calls raises in any completion of the run, each content is announced at most once to its workspace |
| DedupOnce.StepRepeats | src/application/use_cases/complete_upload.py:252-326 | The exact condition for a step: it announces a content twice if and only if it is a completion that delivers its event although the content was announced before and has no fingerprint |
| DedupOnce.RepeatedExactly | src/application/use_cases/complete_upload.py:252-380 | The exact condition for runs: a content is announced twice if and only if some step of the run was such a completion |
| DedupOnce.UnregisteredIsRepeated | src/application/use_cases/complete_upload.py:252-380 | After any run, whichever call raised in it: a delivered content without a fingerprint is announced again by uploading it once more |
| DedupOnce.RegistrationAloneIsNotEnough | src/application/use_cases/complete_upload.py:325-380 | A run in which registration never fails but a content is announced twice, for every file of one chunk |
| DedupOnce.FinishDelivery | src/application/use_cases/complete_upload.py:252-326 | Which completions deliver an event, and what exactly that does to the fingerprints |
| Actions.RunKeepsInv | src/application/use_cases/complete_upload.py:163-460 | Every world that a run can reach satisfies the session and publication invariants, and only started ids leave a trace |
| Sessions.ProcessChunkKeeps | src/application/use_cases/process_chunk.py:178-256 | Whichever call raises, a chunk request keeps session records in step with the stored chunks |
| Sessions.AbortKeeps | src/application/use_cases/abort_upload.py:150-206 | Whichever call raises, an abort keeps session records in step with the stored chunks |
| Sessions.TickKeeps | src/infrastructure/redis/session_store.py:139-180 | Expiry never takes a chunk of a session that is still there |
| Sessions.CheckCompleteOutcome | src/application/use_cases/complete_upload.py:163-223 | What the checks and the retrieval of a completion find in a consistent store |
| Sessions.RetrieveExactly | src/application/use_cases/complete_upload.py:504-542 | In any state the retrieval gives the listed chunks in list order, or the error of the first entry whose read raises or whose chunk is missing |
| Publication.CompleteKeeps | src/application/use_cases/complete_upload.py:163-460 | Completion keeps both invariants, whichever of its calls raise |
| Shapes.CompleteShape | src/application/use_cases/complete_upload.py:417-460 | All outcomes of a completion: nothing, FAILED with the slot kept, or COMPLETE with the slot freed; objects and calls only added |
| Shapes.AbortShape | src/application/use_cases/abort_upload.py:150-206 | All outcomes of an abort: nothing, ABORTED left behind, or record and note gone and the slot freed |
| Manifest.AcceptsExactlyPermutations | src/application/use_cases/complete_upload.py:462-502 | The manifest check accepts precisely the non-empty permutations of 0..n-1 whose sizes add up to the session size |
| Manifest.SortPlacesEveryChunk | src/application/use_cases/complete_upload.py:522-522 | Sorting an accepted manifest by index puts chunk i at position i |
| Manifest.SortIsStable | src/application/use_cases/complete_upload.py:522-522 | The sort returns the same entries in ascending order and keeps entries of equal index in their order |
| Manifest.Pigeonhole | src/application/use_cases/complete_upload.py:480-494 | A list has as many different values as entries exactly when no value repeats |
| Storage.AssembleExits | src/infrastructure/s3/storage_client.py:219-361 | Every exit: an answer leaves the joined chunks with the expected digest at a key that was free; a raise leaves the key as it was, or a corrupt object when the delete after a mismatch raised; an upload stays open if and only if it was created and either no id came back, or a part or the completion raised and then the abort |
| Storage.S3StorageClient.AssembleFile | src/infrastructure/s3/storage_client.py:141-361 | The call-by-call assembly, with parts finishing in any order, has exactly the effect and answer of the assembly function |
| Storage.S3StorageClient.MultipartUpload | src/infrastructure/s3/storage_client.py:222-361 | From the create call on: parts, join, digest check, delete and abort have exactly the effect and answer of the assembly function |
| Storage.S3StorageClient.UploadParts | src/infrastructure/s3/storage_client.py:242-254 | Whatever the order in which the parts finish, all are there under their numbers unless one raised |
| Storage.S3StorageClient.JoinParts | src/infrastructure/s3/storage_client.py:256-262 | Completing the parts in list order is concatenation |
| Storage.S3StorageClient.DigestAndSize | src/infrastructure/s3/storage_client.py:187-193 | The one-pass loop computes the digest and size of the concatenation |
| UseCases.InitiateUploadUseCase.Execute | src/application/use_cases/initiate_upload.py:96-221 | The steps with their compensation give exactly the state and answer of the initiate function, which `Answers.StartAnswersExactly` spells out |
| UseCases.ProcessChunkUseCase.Execute | src/application/use_cases/process_chunk.py:101-259 | The steps on the in-memory entity and the stores give exactly the state and answer of the chunk function, which `Answers.SendAnswersExactly` spells out |
| UseCases.AbortUploadUseCase.Execute | src/application/use_cases/abort_upload.py:88-206 | Status, delete, decrement in this order give exactly the state and answer of the abort function, which `Answers.CancelAnswersExactly` spells out |
| UseCases.CompleteUploadUseCase.Execute | src/application/use_cases/complete_upload.py:134-460 | The twelve steps and the except ladder give exactly the world and answer of the completion function, which `Answers.FinishAnswersExactly` spells out |
| UseCases.CompleteUploadUseCase.AssembleAndPublish | src/application/use_cases/complete_upload.py:233-322 | Assembly, and FAILED when it raises, else the announcement; `Answers.ReadyEnds` gives every outcome |
| UseCases.CompleteUploadUseCase.CheckAndPublish | src/application/use_cases/complete_upload.py:251-322 | Duplicate check, event guards and one publish, with their except branches; `Answers.AnnounceEnds` gives every outcome |
| UseCases.CompleteUploadUseCase.Finish | src/application/use_cases/complete_upload.py:324-460 | COMPLETE only after the publish, and FAILED when it cannot be written; `Answers.CommitEnds` gives every outcome |
| UseCases.CompleteUploadUseCase.RetrieveChunks | src/application/use_cases/complete_upload.py:504-542 | The loop returns the chunks in index order or the first error met |
| UseCases.CompleteUploadUseCase.CleanupChunks | src/application/use_cases/complete_upload.py:544-571 | The loop deletes exactly the listed chunks whose delete does not raise |
| Entity.UploadSession.AddChunk | src/domain/entities/upload_session.py:163-197 | Appends the entry, or refuses exactly on a negative or repeated index, a size below 1 or a blank checksum |
| Entity.UploadSession.UpdateOffset | src/domain/entities/upload_session.py:199-221 | Accepts exactly the offsets from the current one to the size |
| Entity.UploadSession.MarkInProgress | src/domain/entities/upload_session.py:223-243 | Refuses exactly the terminal statuses |
| Entity.UploadSession.MarkComplete | src/domain/entities/upload_session.py:245-266 | Refuses exactly terminal statuses and missing bytes |
| Entity.UploadSession.MarkFailed | src/domain/entities/upload_session.py:268-279 | Overwrites any status |
| SessionStore.RedisSessionStore.CreateSession | src/infrastructure/redis/session_store.py:141-190 | Writes the record for a day and the note for seven, or nothing |
| SessionStore.RedisSessionStore.GetSession | src/infrastructure/redis/session_store.py:221-297 | A fresh entity equal to the stored record, or none |
| SessionStore.RedisSessionStore.GetSessionWithExpiryInfo | src/infrastructure/redis/session_store.py:299-427 | The stored record itself if there is one; else the note if it names the caller's workspace; else neither, also for the same id in another workspace; either read may raise |
| SessionStore.RedisSessionStore.UpdateSession | src/infrastructure/redis/session_store.py:451-529 | Rewrites an existing record and keeps its deadline; a missing key is reported and not written |
| SessionStore.RedisSessionStore.DeleteSession | src/infrastructure/redis/session_store.py:531-583 | Removes the record and the note |
| RateLimiter.RedisRateLimiter.CheckAndIncrement | src/application/services/rate_limiter.py:137-228 | Below the limit one more is counted; at it the answer is the rate limit error and nothing changes; a raising read or increment changes nothing |
| RateLimiter.RedisRateLimiter.Decrement | src/application/services/rate_limiter.py:230-286 | Subtracts one and replaces a negative result by 0 with a second command; it raises if and only if the first command does, or the second is needed and does |
| RateLimiter.RedisRateLimiter.GetCurrentCount | src/application/services/rate_limiter.py:288-354 | Answers the counter; a negative one is reset and answered as 0 |
| RateLimiter.RedisRateLimiter.Reset | src/application/services/rate_limiter.py:356-393 | Sets the counter to 0 or raises without effect |
| Deduplication.RedisDeduplicationStore.CheckDuplicate | src/infrastructure/redis/deduplication_store.py:152-220 | The metadata under the fingerprint of this workspace, or none |
| Deduplication.RedisDeduplicationStore.RegisterFile | src/infrastructure/redis/deduplication_store.py:222-288 | Sets the metadata of one fingerprint and nothing else |
| Events.AssembledPathAccepted | src/domain/entities/events.py:112-184 | The path that assembly returns passes every path guard of the event, whatever the bucket; only the size bounds remain |
| RetryPublisher.EventPublisherWithRetry.Create | src/infrastructure/nats/event_publisher_with_retry.py:103-127 | Accepts exactly 1 to 100 attempts and a TTL of at least 1 |
| RetryPublisher.EventPublisherWithRetry.Publish | src/infrastructure/nats/event_publisher_with_retry.py:143-253 | For every failure pattern: attempts made, backoff 2^(n-1) - 1, normal return and delivery exactly when an attempt succeeds, cancellation passed on, and when all m attempts raise a dead letter with retry count m exactly when it can be written |
| RetryPublisher.EventPublisherWithRetry.PublishAsOneCall | src/infrastructure/nats/event_publisher_with_retry.py:143-253 | Without cancellation the publisher is one call to its caller: it delivers the event, or raises InfrastructureError and does not, exactly when every attempt raises |
| RetryPublisher.EventPublisherWithRetry.WriteToDlq | src/infrastructure/nats/event_publisher_with_retry.py:255-350 | Up to three writes; always raises; the entry exists exactly when the event serializes and a write succeeds |
| RetryPublisher.AttemptsUntilFirstSuccess | src/infrastructure/nats/event_publisher_with_retry.py:172-250 | Without cancellation the number of attempts is the smaller of m and the first success; the loop exhausts itself exactly if that lies beyond m |
| RetryPublisher.DeadLetterFate | src/infrastructure/nats/event_publisher_with_retry.py:277-350 | Without cancellation: a dead letter is written, or the event does not serialize, or all three writes raised |
| RetryPublisher.EndIsFirst | src/infrastructure/nats/event_publisher_with_retry.py:172-250 | The loop ends with the first attempt that does not raise, is cancelled or is the last |
| KeySpace.KeysReadBack | src/infrastructure/redis/key_builder.py:73-199 | Every key text of every pattern names exactly the entry it was built for |
| KeySpace.KeysAreInjective | src/infrastructure/redis/key_builder.py:73-199 | All key builders are injective on UUID text and pairwise disjoint, the inline patterns for chunks, expiry notes and dead letters included |
| KeySpace.Build | src/infrastructure/redis/key_builder.py:35-70 | The builders refuse exactly when a workspace or session identifier is the nil UUID; otherwise the key text is the entry's |
| KeySpace.ObjectKeysAreInjective | src/infrastructure/s3/storage_client.py:184-185 | Two uploads never share an object key |
| KeySpace.SetTouchesOneEntry | src/infrastructure/redis/key_builder.py:73-199 | Writing or deleting the key of one entry never changes another entry |
| KeySpace.CreateSessionRefines | src/infrastructure/redis/session_store.py:176-187 | On text keys, creation is the two writes, and represents the typed result |
| KeySpace.DeleteSessionRefines | src/infrastructure/redis/session_store.py:554-554 | On text keys, deletion is the two deletes, and represents the typed result |
| KeySpace.PutSessionRefines | src/infrastructure/redis/session_store.py:491-493 | On text keys, an update is one write, and represents the typed result |
| KeySpace.SetChunkRefines | src/application/use_cases/process_chunk.py:230-232 | On text keys, storing a chunk is one write, and represents the typed result |
| KeySpace.DropChunkRefines | src/application/use_cases/complete_upload.py:557-562 | On text keys, deleting a chunk is one delete, and represents the typed result |
| KeySpace.SetCounterRefines | src/application/services/rate_limiter.py:191-192 | On text keys, a counter update is one write, and represents the typed result |
| KeySpace.RegisterRefines | src/infrastructure/redis/deduplication_store.py:262-273 | On text keys, a registration changes one hash, and represents the typed result |
| Decimal.ReadsBack | src/infrastructure/redis/session_store.py:601-613 | int(str(n)) is n for every integer |
| Json.LoadsUndoesDumps | src/infrastructure/redis/session_store.py:612-632 | json.loads(json.dumps(j)) is j for all nested lists, objects, integers and strings of any characters (RFC 8259) |
| Json.EscapedReadsBack | src/infrastructure/redis/deduplication_store.py:330-337 | Every string survives the ASCII escapes, surrogate pairs included |
| SessionCodec.SessionReadsBack | src/infrastructure/redis/session_store.py:585-649 | A record reads back as itself exactly when the entity accepts it, and otherwise as the error of the first check that fails: size limit and media type as themselves, any other as a serialization error |
| SessionCodec.ManifestReadsBack | src/infrastructure/redis/session_store.py:612-635 | The manifest survives the trip through JSON |
| SessionCodec.MetadataReadsBack | src/infrastructure/redis/deduplication_store.py:290-395 | Metadata reads back as itself exactly when size and path are acceptable |
| SessionCodec.StoredSessionReadsBack | src/infrastructure/redis/session_store.py:585-649 | In every reachable state the stored hash of a session reads back as the record last written |
| SessionCodec.StoredMetadataReadsBack | src/infrastructure/redis/deduplication_store.py:290-395 | In every reachable state the metadata of every fingerprint reads back |

## Left out

- HTTP routing, schemas, status codes, authentication, roles, webhook and NATS transport, settings and logging: plumbing around the protocol. HEAD is a read of the session.
- SHA-256 itself: an arbitrary function. Collisions, timing and HMAC are not part of this model.
- Instants are whole seconds given as integers and no time passes inside one operation of the sequential model; ISO text is an abstract pair of printer and parser that are inverse.
- `mark_aborted`, `is_expired` and `is_complete` of the entity: the four operations do not call them.
- `DeduplicationService`, virus scanning and metrics: the completion path does not use them.
- UseCases.AbortUploadUseCase.Execute: `decrement` raises only InfrastructureError here; an unparsable counter is not part of this model.
- UseCases.CompleteUploadUseCase.Execute: the publisher is one call that delivers or raises, which is what `RetryPublisher.EventPublisherWithRetry.PublishAsOneCall` shows of it; its dead letters are not part of a run.
- SessionStore.RedisSessionStore.UpdateSession: TTL and HSET are one call here; `WriterInterleaving` has them apart.
- Storage.S3StorageClient.UploadParts: a part that is still in flight when another one raises is not followed after the abort.
- WriterInterleaving.EveryInterleaving: one session and the number of slots freed for it; fingerprints are not part of this model, so the duplicate check is the choice of a completion to give up.
- DedupInterleaving.EventsBound: one content, and each completion with a session and object of its own; `CompletionRaces` has several completions of one session.
- UndisturbedRuns.FinishAloneIsSequential: for completions in which no call raises and no duplicate is known; the clean-up of chunks is a set of separate commands there.
- WriterInterleaving.ObjectIsAlwaysTheFile: as above; and the upload is one step, so parts and aborted multipart uploads are only in the sequential model.
- RetryPublisher.EventPublisherWithRetry.Publish: the `None` event is excluded by the type; the time between the writes of a dead letter is not added up.
- SessionCodec.SessionReadsBack: the hash is a record of all eleven fields, so a missing field is not part of this model; nor are manifest entries of another shape, or the other spellings that UUID() and int() accept.
- SessionStore.RedisSessionStore.GetSession: an unreadable hash is not an outcome; `SessionCodec.StoredSessionReadsBack` shows that none is ever stored.
- SessionStore.RedisSessionStore.GetSessionWithExpiryInfo: an unreadable hash is not an outcome, for the same reason.
- RateLimiter.RedisRateLimiter.CheckAndIncrement: a counter that is not a number is not part of this model; the service only writes decimal numbers.
- RateLimiter.RedisRateLimiter.GetCurrentCount: as for the check, a counter that is not a number is not part of this model.
- Deduplication.RedisDeduplicationStore.CheckDuplicate: HEXISTS and HGET are one call, as nothing removes a fingerprint between them; an unreadable entry is not an outcome, and `SessionCodec.StoredMetadataReadsBack` shows that none is ever stored.
- Json.LoadsUndoesDumps: fractions, exponents, true, false, null and lone surrogates are not read.
- KeySpace.KeysReadBack: UUID text is the canonical lower-case form (section 4 of RFC 9562), which is the only one the program formats.
- Request and entity identifiers are never nil: the key builder refuses the nil UUID before any command is sent.
