# Case backend: audit chain, evidence saga, review workflow

A Dafny model of the stateful parts of a case-management backend, and proofs about whole runs of them.

- **Audit hash chain.** Every case has a chain of audit events; an event's hash covers the hash before it and the
  canonical JSON of its own content. `Json`, `Utf8`, `Time` and `Events` model the hashed bytes for real, `Chain` what
  `verify` decides and what a valid chain binds, `AuditTable` the ordered reads, and `AuditRun` any number of concurrent
  transactions whose statements (lock, read the latest event, insert, commit, roll back) interleave freely.
- **Evidence saga.** `Saga` models uploads and deletes as processes over a database, an audit log and an object store;
  each statement is a step that may also raise. `SagaInvariant` and `SagaProof` hold the invariant and its preservation,
  `SagaRun`, `SagaOrphans`, `SagaMarks`, `SagaDeletes`, `SagaRefusals`, `SagaConflicts`, `SagaWinner` and `SagaEvents`
  what follows for every run, `SagaProgress` that nothing gets stuck, `SagaStages` and `SagaConverges` that undisturbed
  operations finish.
  `EvidenceService` is the same service as a class in the source's
  own control flow (flags, chunk loop, handler, clean-up). Its awaited calls get their answers from a fixed list, each
  with the steps of other processes that come before it; its methods are proved to perform saga steps, so all results
  apply to it, and each contract says which answers lead to which end.
- **Review workflow.** `Workflow` holds the graph's nodes, router and edges and the guard of `resume`; `WorkflowRun` and
  `WorkflowHistory` prove that the review history determines the rest of the state and which histories occur,
  `WorkflowRequests` what each request does at any point of any run;
  `WorkflowService` is the service with its checkpoints as a class.
- **Smaller loops.** `Stream` (snapshot stream), `Hashing` (chunked digests), `FileValidation` and `ObjectKeys`
  (file names and object keys).

What the environment is taken to do, as far as the proofs use it:

- SHA-256 is an arbitrary function on bytes. Results that need it ask for hexadecimal digests and for no collision
  among the byte strings that the named chains hash (a digest function cannot be injective on all byte strings).
- A clock reading for an audit event, taken under the case's lock, is past the case's latest visible event; an insert
  for which it is not does not take place. This is exactly what the chain needs: `AuditClock.VerifyIffKeyOrder` drops
  the condition and shows when `verify` accepts a run, `AuditTable.AppendVerifiesIffLater` does so for one append. The
  code reads the application clock and breaks ties by a random id.
- The chain is enabled, which is the setting's default.
- A commit, a `put` and a `delete` of the object store either return and have taken effect, or raise and have not.
- Stored events read back field for field, except that JSON metadata may come back with its keys in another order
  (`Chain.ReadBackKeepsVerdict`).
- The advisory lock key is an arbitrary function of the case id, so different cases may share one.
- A call raises an integrity error, a storage error or another error of its own; the refusals as empty, too large or
  duplicate come from the service's checks only.
- A process's ids are new (random UUIDs) and, like case ids, hold no separator. Strings hold no surrogates.
- A statement that waits for a lock or for another transaction's uncommitted row is not enabled yet.
  `SagaProgress.NoDeadlock` shows that somebody else can move then; that the scheduler lets them is not part of this
  model.
- Calls of `resume` on one thread do not overlap.

Three places where the code gives less than one might read into it, each with a run that fails and the exact condition:

- An object can be left with no row and no logged compensation failure: when the rollback in an `except` clause raises,
  the compensation behind it is skipped. `SagaConverges.BothOccur` gives a run, and `SagaMarks.OrphanIffRollbackRaised`
  shows, for every run, that there is such an object exactly where such a rollback raised.
- Any integrity error of the insert is answered as a duplicate, whatever constraint it came from.
  `SagaConverges.MistakenDuplicate` gives a run with no row at all, and `SagaConflicts.DuplicateAnswers` shows, for every
  run, that the answer is true exactly when it was taken behind a conflicting committed row. For the service as a class,
  `EvidenceService.EvidenceService.UploadEvidence` promises the half that a caller can use: without a raised call, the
  case's log shows the digest.
- A case can fail to verify with nothing tampered with: `AuditClock.ClockStandsStill` gives a run in which the clock
  stands still, and `AuditClock.VerifyIffKeyOrder` shows, for every run under any clock, that `verify` accepts exactly
  what was committed in key order.

## Model

| member | source | states |
|---|---|---|
| Json.PrintReadsBack | backend/app/services/audit_service.py:12-15 | A parser reads every compact, escaped print of a JSON value back and stops right behind it, whatever text follows, except that a number must not run into another digit: the printer is unambiguous (grammar of RFC 8259, sections 4 to 7) |
| Json.CanonicalReadsBack | backend/app/services/audit_service.py:12-15 | Reading the canonical text gives the value with its keys sorted |
| Json.CanonicalIffSameValue | backend/app/services/audit_service.py:12-15 | Two well-formed values have the same canonical text exactly when they are equal as values: key order does not count, everything else does |
| Json.NumeralsAre | backend/app/services/audit_service.py:12-15 | Numbers are plain decimal numerals with no leading zero, and a sign only below zero |
| Utf8.EncodeInjective | backend/app/services/audit_service.py:20 | Different texts encode to different bytes |
| Utf8.Layout | backend/app/services/audit_service.py:20 | Each character takes the shortest of the four forms of RFC 3629, section 3, with its bits in order behind the tags |
| Utf8.EncodeJoins | backend/app/services/audit_service.py:20 | Text is encoded part by part, in order |
| Time.IsoInjective | backend/app/services/audit_service.py:35 | Different timestamps have different ISO texts, with or without a fraction |
| Time.IsoReads | backend/app/services/audit_service.py:35 | The ISO text reads back field by field: four digits of year, then month, day, hour, minute and second in two digits each behind their separators, six digits of fraction unless it is zero, and the UTC offset |
| Time.RankIsTime | backend/app/repositories/audit_repository.py:23 | The sort key of a timestamp orders by year, month, day, hour, minute, second and microsecond, in this order |
| Events.ContentIffSame | backend/app/services/audit_service.py:23-36 | The canonical contents of two events are equal exactly when the events agree on every covered field; EventHashReads says which field is under which key |
| Events.MaterialIffSame | backend/app/services/audit_service.py:18-20 | The hashed bytes split uniquely into previous hash and content: equal bytes mean the same previous hash and the same content |
| Events.EventHashReads | backend/app/services/audit_service.py:12-36 | An event hash is the digest of the UTF-8 bytes of the previous hash, if there is one, and then of a text that a JSON parser reads as one object, sorted by key, with exactly eleven keys; under each key is its own field, the type by its stored name, the time as ISO text |
| Chain.Verify | backend/app/services/audit_service.py:80-90 | The loop answers valid exactly on valid chains, counts all events, and otherwise names the first event past the longest valid prefix |
| Chain.FirstBrokenUnique | backend/app/services/audit_service.py:80-90 | There is only one such event |
| Chain.PrefixClosed | backend/app/services/audit_service.py:80-90 | Every prefix of a valid chain is valid |
| Chain.ReadBackKeepsVerdict | backend/app/services/audit_service.py:80-90 | Reading metadata back in another key order does not change the verdict |
| Chain.BindingAt | backend/app/services/audit_service.py:80-90 | An event hash fixes its position and every event up to it, across chains of any lengths |
| Chain.Binding | backend/app/services/audit_service.py:80-90 | Two valid chains that end in the same hash have the same length and the same events |
| Chain.Unforked | backend/app/services/audit_service.py:57-75 | A valid chain has one root, and no two events follow the same one |
| Chain.StrangerNotFollowed | backend/app/services/audit_service.py:57-75 | No event of a valid chain points at an event with another id that is outside it |
| Chain.RewriteIsNamed | backend/app/services/audit_service.py:80-90 | If one event's content is rewritten with hashes and position kept, exactly that event is reported |
| Chain.RearrangedIffPrefix | backend/app/services/audit_service.py:80-90 | Any selection, repetition and order of a chain's events verifies exactly when it is a prefix: only cutting the tail goes unseen |
| Chain.RearrangementIsNamed | backend/app/services/audit_service.py:80-90 | A rearrangement is reported at the first event that leaves the chain |
| AuditTable.SortByKeySorts | backend/app/repositories/audit_repository.py:34-40 | Sorting keeps each selected row once and puts the rows in the order of their keys |
| AuditTable.BeforeIffFollows | backend/app/repositories/audit_repository.py:19-40 | The key order is: earlier in time, or at the same instant with the smaller id by code points |
| AuditTable.ListedInTime | backend/app/repositories/audit_repository.py:34-40 | The listing holds exactly the events of the case, the earlier ones first and those of one instant by id |
| AuditTable.LatestIs | backend/app/repositories/audit_repository.py:19-26 | The latest event of a case is one of its events that none of them follows; there is none exactly when the case has no event |
| AuditTable.NewEventLinks | backend/app/services/audit_service.py:57-74 | The event built by an append records all nine parts of its draft, the given id, time and previous hash, and the hash of its own content behind that, although the hash field is filled in last |
| AuditTable.AppendVerifiesIffLater | backend/app/services/audit_service.py:57-75 | An append keeps the chain valid exactly when its sort key is past the latest event's |
| AuditRun.StepKeeps | backend/app/repositories/audit_repository.py:14-32 | Every step of every transaction keeps: locks exclusive per key, each transaction's view of each case a valid chain, read links current |
| AuditRun.EveryRunVerifies | backend/app/services/audit_service.py:44-90 | At every point of every interleaving, the listed events of a case are valid, in the order of commit; so are those that an open transaction sees |
| AuditRun.EveryRunUnforked | backend/app/services/audit_service.py:57-75 | In every reachable table each case's chain has exactly one root and never forks |
| AuditRun.RolledBackLeavesNoTrace | backend/app/services/audit_service.py:57-75 | No committed event points at one that was rolled back |
| AuditClock.VerifyIffKeyOrder | backend/app/services/audit_service.py:44-90 | Under any clock, also one that stands still or runs back, at every point of every interleaving: `verify` accepts a case exactly when its events were committed in the order of their sort keys, unless digests collide |
| AuditClock.ClockStandsStill | backend/app/services/audit_service.py:57-75 | A run that fails: two appends to one case, one after the other at the same clock reading, the second with the smaller id, leave two rows out of key order, which `verify` refuses unless digests collide |
| ObjectKeys.ObjectKeyInjective | backend/app/services/evidence_service.py:109 | An object key determines its case id, evidence id and file name |
| ObjectKeys.KeyParts | backend/app/services/evidence_service.py:109 | Cut at its separators a key has five parts: `cases`, the case id, `evidence`, the evidence id, the file name |
| SagaRun.StepKeeps | backend/app/services/evidence_service.py:71-218 | Every step of every upload and delete, with or without a failure, keeps the saga's invariant |
| SagaRun.SagaRefinesAudit | backend/app/services/evidence_service.py:71-218 | The audit log of every saga run is that of some run of the audit transactions |
| SagaRun.EverySagaVerifies | backend/app/services/audit_service.py:80-90 | Whatever uploads and deletes run, every case's chain verifies |
| SagaRun.EveryObjectAccounted | backend/app/services/evidence_service.py:85-175 | Every stored object has its row, or belongs to an upload in flight, or is a logged compensation failure, or its upload's rollback raised |
| SagaRun.EveryRowBacked | backend/app/services/evidence_service.py:109-149 | Every row has its object unless a delete has removed it; size and digest in the row are those of the stored bytes, within the limit |
| SagaRun.NoDuplicateRows | backend/app/models/evidence.py:20 | No case has two rows with the same digest |
| SagaRun.OneWinner | backend/app/services/evidence_service.py:109-155 | Whatever fails or is deleted, of two uploads of the same bytes to one case at most one has a row; the object of the one that has is intact as long as no delete of it has passed its storage step |
| SagaWinner.ExactlyOneRow | backend/app/services/evidence_service.py:95-155 | Any number of uploads to one case with the same digest, in any interleaving, with anything else running, failing and being deleted beside them, as long as none of them has a call that fails of itself and none of their rows is deleted: as soon as one of the right size has returned, exactly one row of the case has the digest, that row's object holds the winner's bytes, and an upload that did not win was refused as a duplicate, by the check or by the constraint, recorded, and has left no object |
| SagaRun.OwnKeyOnly | backend/app/services/evidence_service.py:166-170 | No step of an upload, compensation included, touches another upload's object, row or events |
| SagaRun.TableIsReplay | backend/app/services/evidence_service.py:130-218 | The evidence table is the replay of the committed audit log (created and not deleted, with the digests), and STORED and CREATED are adjacent |
| SagaRun.EventsInGrammar | backend/app/services/evidence_service.py:71-218 | The events of one evidence id are STARTED, perhaps HASHED, then STORED and CREATED and later only DELETED, or at most one FAILED |
| SagaRun.EventsMatchOutcome | backend/app/services/evidence_service.py:130-193 | How an upload ended determines its committed events, and a row is there only for an accepted one |
| SagaEvents.EveryEventExplained | backend/app/services/evidence_service.py:71-218 | In every run, every committed event is about a case, written by another service, or is an upload's and says part by part what it should: case, id, actor, operation, file name and source type, object key, digests, and the reason of the failure that the upload ended with; a deletion has no actor and the accepted upload's digest as input |
| SagaEvents.UploadEventsExplained | backend/app/services/evidence_service.py:71-218 | And every committed event about an upload's id is that upload's |
| SagaRun.DeletedForGood | backend/app/services/evidence_service.py:206-218 | After a successful delete neither row nor object is ever there again |
| SagaDeletes.UndeletedIsIntact | backend/app/services/evidence_service.py:206-218 | In every run, until a delete of its id passes its storage step, an accepted upload has its row as written, its object with its bytes and exactly its four events, whatever deletes were begun or have raised |
| SagaDeletes.RowUntilDeleted | backend/app/services/evidence_service.py:206-218 | In every run an accepted upload has its row, as written, exactly until a DELETED event of its id is committed: a delete that fails behind its storage step leaves the row for a retry |
| SagaDeletes.EmptiedIffRemoved | backend/app/services/evidence_service.py:208 | The marks that the other results speak of are exactly the storage steps of deletes in the run's schedule |
| SagaConverges.DeleteConverges | backend/app/services/evidence_service.py:206-218 | From any world, so also behind any number of failed deletes, an undisturbed delete of a row that is there finishes and removes exactly that row and its object |
| SagaConverges.UploadConverges | backend/app/services/evidence_service.py:58-164 | From any world, an undisturbed upload that is new, of a fitting size and in conflict with no row is accepted, with exactly its row and its object added |
| SagaConverges.UploadConvergesLogged | backend/app/services/evidence_service.py:71-149 | And wherever a run has led, the log then holds exactly the four events of that upload |
| SagaConverges.AbandonedOrphans | backend/app/services/evidence_service.py:149-160 | From any reachable world, an upload whose insert raises and whose rollback then raises leaves an orphan |
| SagaConverges.BothOccur | backend/app/services/evidence_service.py:58-164 | Two explicit schedules from the empty system: one ends with an accepted upload and its row, one with an orphan |
| SagaProgress.NoDeadlock | backend/app/services/evidence_service.py:58-218 | In every reachable world with an unfinished process, given a new event id and a later clock: some statement of an unfinished process can return, or raise its integrity error behind a committed row that conflicts, or another service's open transaction can commit |
| SagaProgress.ProcessesAreShort | backend/app/services/evidence_service.py:58-218 | In every run, with any interference and failures, an upload takes at most 26 statements and a delete at most 8, and a process has none left exactly when it has finished: there is no livelock either |
| SagaOrphans.OrphanIffEscaped | backend/app/services/evidence_service.py:151-170 | An object is stored and accounted for nowhere exactly when the rollback in its upload's handler raised |
| SagaMarks.OrphanIffRollbackRaised | backend/app/services/evidence_service.py:151-170 | In every run, an object is stored and accounted for nowhere exactly when at some label of the schedule the handler's rollback raised in the upload that had stored it |
| SagaMarks.StrayIffCompensationRaised | backend/app/services/evidence_service.py:166-175 | In every run, a failed compensation is on record for a key exactly when at some label of the schedule the compensation of its upload raised; the object is then still there, without a row |
| SagaOrphans.RollbackFailureOrphans | backend/app/services/evidence_service.py:156-158 | Whenever that rollback raises behind a stored object, the object is orphaned |
| SagaOrphans.StrayIsStored | backend/app/services/evidence_service.py:166-175 | A compensation that was logged as failed has left its object, without a row |
| SagaRefusals.RefusalsAreTrue | backend/app/services/evidence_service.py:89-97 | In every run the service's own refusals are true: as empty or too large exactly by the content's length, as a duplicate only if the case's log holds a CREATED event with the same digest |
| SagaConflicts.DuplicateAnswers | backend/app/services/evidence_service.py:96-97 | In every run, of an upload that was answered as a duplicate: the label at which it got the error is given; the answer was true as it arose (another accepted upload of the case had its row, with the same digest) exactly when that label was taken behind a conflicting committed row, which the service's own check always is, and then the case's log shows the digest ever after |
| SagaConflicts.ArisesOnce | backend/app/services/evidence_service.py:151-160 | An upload gets its error at one label only |
| SagaConverges.MistakenDuplicate | backend/app/services/evidence_service.py:151-155 | A run that fails: the insert of the first upload of an empty system raises an integrity error, and it is answered as a duplicate with no row in the table |
| EvidenceService.EvidenceService.Append | backend/app/services/audit_service.py:44-75 | Of three answers: it returns with exactly one more pending event, which records all nine parts of the draft, the id and time of the last answer, its link, and its own hash; it raises only what a call raised; it waits only while another transaction holds the lock, on the clock or id it was given, or when the answers run out |
| EvidenceService.EvidenceService.Lock | backend/app/repositories/audit_repository.py:14-17 | Ends as its answer says: it takes the lock of the case's chain exactly when no other transaction holds it, and otherwise waits; the transaction's events stay |
| EvidenceService.EvidenceService.Latest | backend/app/repositories/audit_repository.py:19-26 | Ends as its answer says, with the hash of an event of the case that no other one follows among those that the transaction sees, its own included, or with none if it sees none |
| EvidenceService.EvidenceService.Insert | backend/app/services/audit_service.py:59-75 | Adds exactly one pending event, which records all nine parts of the draft, the id and time of the answer given, the hash that was read and its own, and whose id is in no committed event; it waits only on an id that is in use or a time that is not past every visible event of the case |
| EvidenceService.EvidenceService.Verify | backend/app/services/audit_service.py:80-90 | In every state that the service can reach, verification answers valid, with the number of the case's events |
| EvidenceService.EvidenceService.Commit | backend/app/services/evidence_service.py:149 | Ends as its answer says: the committed log ends with the transaction's events, and its row changes are in the table; an upload's object has not been taken by then |
| EvidenceService.EvidenceService.ReadPiece | backend/app/services/evidence_service.py:89-93 | Ends as its answer says: one piece is added to the temporary file, and refused as too large exactly when the file would exceed the limit |
| EvidenceService.EvidenceService.Receive | backend/app/services/evidence_service.py:86-94 | However the upload is cut into pieces, the temporary file ends as their concatenation with its length as size, and never grows past the limit; it is refused only as empty or too large by its length or because a read raised, and waits only when the answers run out |
| EvidenceService.EvidenceService.RefuseDuplicate | backend/app/services/evidence_service.py:95-97 | Ends as its answer says: as a duplicate exactly when a row of the case has the digest |
| EvidenceService.EvidenceService.Put | backend/app/services/evidence_service.py:109-113 | Ends as its answer says: when it returns the object under the key is the whole file, and the transaction is untouched |
| EvidenceService.EvidenceService.CreateRow | backend/app/repositories/evidence_repository.py:14-18 | Ends as its answer says: with an integrity error exactly when a committed row has the same case and digest, waiting exactly while another transaction's uncommitted row has |
| EvidenceService.EvidenceService.ReceiveAndHash | backend/app/services/evidence_service.py:86-107 | When HASHED is committed, file, size and digest are those of the whole upload; otherwise a call raised, the size does not fit, the digest is taken, or a call is held up |
| EvidenceService.EvidenceService.Store | backend/app/services/evidence_service.py:109-150 | On success the row holds exactly key, size and digest of the upload and the log ends with STORED and CREATED; on an error, which has a cause, the flag tells whether the object was stored, and the key is the upload's own |
| EvidenceService.EvidenceService.RecordCreation | backend/app/services/evidence_service.py:131-149 | On success the committed log ends with the STORED and the CREATED event of the upload and the row is in the table; on an error, which a call raised, the object is still marked as stored |
| EvidenceService.EvidenceService.CompensateStorage | backend/app/services/evidence_service.py:166-175 | Without a stored object nothing is deleted and nothing awaited; otherwise the object is gone if the call returned, and its key is recorded if it raised, and no error gets out |
| EvidenceService.EvidenceService.RecordFailure | backend/app/services/evidence_service.py:177-193 | The failure event is committed, or a call raised and it is rolled back; the answer says which |
| EvidenceService.EvidenceService.Handle | backend/app/services/evidence_service.py:151-160 | Every error ends as refused with that error; unrecorded, or as a raise of the rollback, only if a call raised in the handler |
| EvidenceService.EvidenceService.UploadEvidence | backend/app/services/evidence_service.py:58-164 | From the metadata check to the clean-up, for any pieces, failures and interference: invalid means what the metadata check says, with nothing changed; accepted means row, object and the four events; any other end has a reason (a call raised, the size does not fit, the case's log shows the digest) and means no row, an object only if it is marked, and the matching events, each of which says what it should; it has not returned only if fewer answers were left than it can need, or its statement is held up; the temporary file is gone when it has |
| EvidenceService.EvidenceService.DeleteEvidence | backend/app/services/evidence_service.py:206-218 | Success means neither the row nor any object of that evidence id is there, and the log ends with its deletion; not found, that the row was missing at some moment of the call; not deleted, that a call raised; it has not returned only if the answers ran out or its statement is held up |
| EvidenceService.EvidenceService.Find | backend/app/services/evidence_service.py:195-200 | Ends as its answer says: with the row of that id and case if it is there, and otherwise as not found |
| EvidenceService.EvidenceService.DeleteObject | backend/app/services/evidence_service.py:208 | Ends as its answer says: when it returns the row's object is gone, and the transaction is untouched |
| EvidenceService.EvidenceService.DeleteRow | backend/app/repositories/evidence_repository.py:38-40 | Ends as its answer says: it removes the row in the transaction, waiting exactly while another transaction has removed it |
| EvidenceService.EvidenceService.RecordDeletion | backend/app/services/evidence_service.py:210-218 | On success the log ends with the deletion of the evidence; on an error a call has raised |
| Hashing.Sha256Chunks | backend/app/utils/hashing.py:6-10 | The digest does not depend on how the bytes are cut into chunks |
| Hashing.Sha256File | backend/app/utils/hashing.py:13-19 | The digest of a file is that of all its bytes for every chunk size except zero, with which nothing is read |
| FileValidation.CleanedShape | backend/app/security/file_validation.py:23-30 | A cleaned name is a stem of at most 200 kept characters, with no dot or underscore in front nor, unless it was cut, at its end, and a lowered suffix or none, for any normalisation |
| FileValidation.CleanedIsSafe | backend/app/security/file_validation.py:23-30 | A cleaned name is not empty, holds no separator and does not start with a dot |
| FileValidation.CleanNamesStay | backend/app/security/file_validation.py:23-30 | Of a name whose stem already has the clean form, only the suffix is lowered, if there is one |
| FileValidation.RunsBecomeUnderscores | backend/app/security/file_validation.py:26-30 | Whatever runs of other characters a stem has, each becomes exactly one underscore; then dots and underscores are taken off both ends, nothing left becomes `evidence`, and 200 characters are kept |
| FileValidation.DirectoriesDropped | backend/app/security/file_validation.py:24 | Directories in front of a name, with either separator, do not change the cleaned name |
| FileValidation.TrailingDropped | backend/app/security/file_validation.py:24 | Empty and `.` components at the end of a path do not count |
| FileValidation.SuffixOf | backend/app/security/file_validation.py:26-27 | A name splits into stem and suffix at its last dot, unless that is its first or last character |
| FileValidation.NoSuffix | backend/app/security/file_validation.py:26-27 | Without such a dot the whole name is the stem |
| FileValidation.NormalizedFirst | backend/app/security/file_validation.py:25 | A name is normalised before anything else looks at it, and NULs in it vanish |
| FileValidation.MetadataVerdict | backend/app/security/file_validation.py:38-51 | Exactly what the check answers: no name; an extension of the cleaned name that is blocked or not allowed; a declared type, in front of its first semicolon, that is not in the table for the extension, or not the one of unknown bytes where the table has none; and otherwise the cleaned name and its extension |
| FileValidation.ExtensionDecides | backend/app/security/file_validation.py:38-51 | For a plain name with an extension, whatever its stem looks like, the verdict depends on that lowered extension and the declared type alone, in both directions |
| FileValidation.CleanNamesAccepted | backend/app/security/file_validation.py:38-51 | A clean name with an allowed extension and a fitting type is accepted as it is, but for the case of its extension |
| FileValidation.AcceptedNames | backend/app/security/file_validation.py:38-51 | The checked extension is the cleaned name's own, allowed and not blocked, the declared type without parameters fits it, and the name is at most 200 longer than it |
| FileValidation.AcceptedKeySplits | backend/app/services/evidence_service.py:109 | The object key of an accepted name splits back into its three parts |
| WorkflowRun.ResumeAppends | backend/app/services/workflow_service.py:69-104 | An accepted resume adds exactly its own history entry, a refused one leaves the thread as it was, and which it is depends only on pause and decision |
| WorkflowRun.GuardIsExact | backend/app/services/workflow_service.py:77-98 | At every pause of every run, the graph would reach an error branch exactly for the decisions that the service refuses |
| WorkflowRun.RunReplaysHistory | backend/app/graph/workflow.py:26-126 | At every pause or end of every run, status, node, round, decision, approval, texts and last review data are a fold over the history; each entry records its round; the summary shows the current round and evidence count |
| WorkflowRun.NeverRaises | backend/app/graph/workflow.py:129-139 | No sequence of requests takes the graph into an error branch |
| WorkflowRun.EndedAbsorbs | backend/app/services/workflow_service.py:74-75 | An ended thread answers every later request as a conflict and never changes |
| WorkflowRun.InvocationsStop | backend/app/graph/workflow.py:142-168 | A start visits two nodes, an accepted resume of any run two or three; the last one is where the thread is then paused or has ended |
| Workflow.StopsInLast | backend/app/graph/workflow.py:142-168 | Any invocation stops in the last node that it visits: paused in one of the two that ask, ended in one of the two last ones, or raised in one that takes a decision |
| WorkflowHistory.RunsMeanWhatTheySay | backend/app/graph/workflow.py:41-139 | At every pause or end only four statuses occur (never PREPARING, REANALYZING or REJECTED) and tell where the thread is; the approval flag is true exactly in COMPLETED and false exactly after CANCEL; the limit text appears exactly when REANALYZE ended the run; the result is empty exactly while the thread waits and no evidence was requested |
| WorkflowHistory.HistorySpelled | backend/app/graph/workflow.py:96-139 | Every history is laps of REANALYZE or REQUEST_EVIDENCE and EVIDENCE_READY, then at most one last action; the round is one more than the laps |
| WorkflowHistory.ReachableHistories | backend/app/graph/workflow.py:96-139 | The action histories that occur are exactly those, with every looping REANALYZE below the limit and an ending one at it |
| WorkflowHistory.RoundCounts | backend/app/graph/workflow.py:66-75 | The round is one plus the looped reanalyses plus the answered evidence requests; fewer than the maximum reanalyses loop; only evidence takes the round past the maximum |
| WorkflowHistory.RecordedRoundsClimb | backend/app/graph/workflow.py:47-55 | Recorded rounds start at one, never fall, rise by at most one, and the last one is the current round unless a reanalysis has just looped |
| WorkflowRequests.RequestsAnswered | backend/app/schemas/workflow.py:19-29 | At every point of every run: a request with neither decision nor flag is malformed, an ended thread refuses every other one, a review takes any of its four decisions or the flag alone, an evidence request takes EVIDENCE_READY only |
| WorkflowRequests.FlagRequests | backend/app/schemas/workflow.py:25-29 | At every review of every run the older flag alone ends the thread: COMPLETED with an APPROVE entry if it is true, CANCELLED with a CANCEL entry if it is not |
| WorkflowRequests.DecisionRequests | backend/app/services/workflow_service.py:69-104 | A request with a decision does and records that decision, whatever the flag says: where the thread stops, status, round, texts, approval, evidence count, and one entry with the request's comment, reviewer and time |
| WorkflowRequests.EvidenceIsLastTold | backend/app/services/workflow_service.py:36-61 | A thread starts paused at its first review, and always shows its own case and the number of evidence rows that it was last told of |
| WorkflowRequests.AtMostTwoReanalyses | backend/app/services/workflow_service.py:55 | With the limit of three, at most two reanalyses of a run loop; one in round three or later ends it with the limit text |
| WorkflowService.ResponseOffersWhatIsAccepted | backend/app/services/workflow_service.py:107-135 | The decisions that a response offers are exactly those that the next resume accepts; it names no next node exactly when the thread has ended |
| WorkflowService.ResponseShows | backend/app/services/workflow_service.py:107-135 | At every point of every run a response shows the thread's state, the node it is paused in, and the question asked there with the thread's own round and limit; COMPLETED exactly behind an APPROVE |
| WorkflowService.WorkflowService.Start | backend/app/services/workflow_service.py:36-61 | A start adds one thread, with a limit of three rounds, paused at its first review, and touches no other |
| WorkflowService.WorkflowService.Get | backend/app/services/workflow_service.py:63-67 | Reports the thread's checkpoint, or that there is no such thread |
| WorkflowService.WorkflowService.Resume | backend/app/services/workflow_service.py:69-104 | Every thread stays the result of the calls accepted on it; an accepted call does and records what its decision, or the flag without one, asks for; a refused call changes nothing and gets the right refusal; other threads are untouched |
| Stream.EventStream | backend/app/api/v1/workflows.py:37-53 | The loop sends in each turn what a definition without counters says: a changed payload, or a keep-alive every 14th unchanged turn |
| Stream.SnapshotsAreThePolls | backend/app/api/v1/workflows.py:42-46 | The snapshot frames are a sequence without adjacent repeats that the polled payloads only repeat |
| Stream.StutterFreeUnique | backend/app/api/v1/workflows.py:42-46 | There is only one such sequence |
| Stream.NeverSilentLong | backend/app/api/v1/workflows.py:47-52 | Any 14 consecutive turns send at least one frame |
| Stream.KeepAliveTiming | backend/app/api/v1/workflows.py:47-52 | A keep-alive is sent exactly when the payload is unchanged and the 13 turns before sent nothing |

## Left out

- AuditRun.EveryRunVerifies: takes the clock assumption as a condition of the insert step, because the code itself does not ensure it; AuditClock.VerifyIffKeyOrder is the exact condition without it.
- Chain.Binding: asks for no collision among the hashed byte strings of the two chains; SHA-256 itself is not modelled.
- Events.ContentIffSame: metadata is JSON with string keys and no floating-point numbers; the fallback of the serialiser to `str` for other types is not modelled.
- SagaProgress.NoDeadlock: asks for an answer with a new id and a later clock; how the scheduler chooses among the statements that can move is not modelled.
- SagaWinner.ExactlyOneRow: is about uploads whose own calls do not fail of themselves; where they do, no upload need be accepted, and SagaRun.OneWinner is what remains.
- EvidenceService.EvidenceService.UploadEvidence: nothing is promised behind a crash or a cancelled task, which the handlers do not catch; a read returns an empty piece only at the end of the upload.
- EvidenceService.EvidenceService.Close: a raise while the session is closed is taken as its transaction's end.
- FileValidation.CleanedShape: normalisation, word characters and lower case are parameters; of lower case it is used that it is idempotent, adds no separator and keeps the form of a suffix.
- WorkflowRun.RunReplaysHistory: says nothing about the checkpoints between two nodes of one invocation.
- The chain switched off by its setting (`audit_hash_chain_enabled`).
- The existence check of the case, the foreign key to a parent evidence item, and row fields that are only copied (MIME type, document type, timestamps).
- An error other than a database error inside the recording of a failure: it is treated like one, the transaction ends without the event.
- Temporary-file errors, the MIME table's contents, and the wording of error messages.
- Case creation and update, beyond their audit events as transactions of other services.
- HTTP routing, settings, health checks, logging, migrations, the frontend, the agents, and the insides of the database, the object store and the graph library.
