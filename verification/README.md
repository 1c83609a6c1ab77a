# Splice server: its protocols over MongoDB, modelled and proved in Dafny

The splice server keeps its state in MongoDB collections that several processes read and write: a task lock, a cache of
lookups at the parent server, a local copy of the parent's identities, and usage and metadata records that are uploaded to
other servers. This project models these protocols and proves what they keep over all their runs.

A collection with a unique index is a map, one without is a sequence in insertion order. Each module has up to three parts:

* functions that say what one database operation or one call computes;
* a class whose methods do it step by step, as the Python code does, each proved against those functions;
* a transition system for any number of processes, and theorems about every run of it, with one step per database access,
  clock reading or message. A crash can happen at any time. The results on whole runs of lookups take one step per call;
  `LookupRaces.dfy` takes the calls apart.

Two things the code does in two accesses are one step. Saving a watermark looks up the record it is kept in first; its name
is unique, so all that can come in between is that the save is refused, which is as if it was not made. Saving a loaded
document writes the fields that were assigned and then removes those that were emptied.

Times are integers. The clock, the pids that are alive, Celery's task states, Celery's task ids, the parsing of uuids and
the outcome of an HTTP request are parameters or free choices of the transition systems.

| file | protocol |
|---|---|
| `TaskLock.dfy` | the lock that keeps a Celery task from running twice |
| `LookupTasks.dfy` | lookups of single identities: retries, and a negative cache with lazy expiry |
| `LookupRaces.dfy` | the calls on lookup records access by access, against the purge and against each other |
| `ConsumerIdentities.dfy`, `PageImport.dfy` | importing pages of identities: bulk insert and serial update |
| `ItemConversion.dfy` | what an item of the parent becomes, which items raise, and what a page or sweep with such items leaves |
| `ParentSync.dfy` | incremental sync from a parent that changes meanwhile, as a transition system |
| `SyncCoverage.dfy` | what the sync keeps: what is not stored in its current version will be asked for |
| `SyncUniqueness.dfy` | when it keeps one document per uuid |
| `SyncImport.dfy` | its steps, undisturbed, are the page import |
| `UsageUpload.dfy`, `UsageDelivery.dfy` | upload of product usage and its idempotent import |
| `NewerWins.dfy`, `MetadataSync.dfy` | newer-wins merge of uploaded objects, and the watermark of the metadata sender |
| `MongoKeys.dfy` | sanitising of keys, and the watermark stored under a sanitised host name |
| `ServerList.dfy` | the configured list of servers |
| `Runs.dfy`, `Wrappers.dfy` | runs of a transition system; optional values and results |

## Where the code does less than its comments and names suggest

* The branch of the task wrapper for a lock that was not obtained raises a TypeError, because the second format argument
  is outside the parenthesis (`src/splice/common/enforce_single_tasks.py:141`). The body does not run; the call does not
  return normally either (`Outcome.LogRaised`).
* Once a lock record has expired, a second process takes it over while the first still works: `OverlapAfterExpiry` says
  from when on.
* `process_data` equals item-by-item application only if the items it bulk-inserts name no stored uuid and no uuid twice
  (`FastRefinesSimple`). The existence check compares texts, so another spelling of a stored uuid is inserted a second time
  (`OtherSpellingIsInsertedTwice`).
* The paging loop advances by the number of items that have a uuid, so a non-empty page without any is fetched for ever
  (`SweepEndsIff`, `SweepEndsIffNoGap`, `LastWithoutUuidIsStuck`).
* A purge between the load and the save of a completion makes the save go nowhere, and a 404 is not cached
  (`PurgeLosesAnswer`). Two callers that both start a lookup of one uuid both insert its record, and one of them gets an
  error (`SecondInsertIsRefused`).
* The sync of all identities and that of a single one hold different locks, and `uuid` has no unique index. A lookup that
  stores an identity between the existence query and the bulk insert of a page leaves two documents
  (`LookUpDuringImport`, `OneDocIffSerial`).
* Dates are never compared, so what was fetched before a sweep began must not be stored after that
  (`LateLookUpIsNeverRepaired`, `StoreRuleIsExact`).
* `tracker` holds addresses only. Two configured endpoints with one address, as in the repository's own upload test, lose
  records (`DeliveryNeedsDistinctAddresses`).
* A duplicate key counts as imported, so where another sender delivers the usage of a source too, a marked record may be
  at the receiver in the other's version (`AsSentNeedsOneSender`).
* The receiver of uploaded objects looks an object up and saves it in two accesses. Two requests with versions of one
  object can leave the older one, although the newer was acknowledged (`OverlappingMergesLose`).
* For the metadata watermark it is not enough that stamps are above the saved watermarks (`LateStampIsLost`), nor that
  they are above the end of all that was sent as well (`StampBelowReadIsLost`). A stamp that is also above every watermark
  which an upload has read and not yet queried by is enough (`NewStampIsCovered`), and `SaveIsSafeIffCovered` gives the
  exact condition. Records an intermediate server received carry the stamps of their origin and need not meet it.
* Watermarks are kept by address, so two endpoints with one address lose metadata too (`DeliveredIffSound`).
* Two uploads of one key with equal `updated` and different content make the result depend on their order
  (`ConvergesIffNoTie`).
* Sanitising can make two keys of a dictionary equal, and then one entry is lost (`KeysCollide`, `ConcreteKeysCollide`,
  `PartsCollide`). It is
  harmless exactly for keys in which no "_dot" and no "_dollarsign" is followed by '_', '.' or '$' (`RestoredIffPlain`,
  `NoEntryLost`).
* An empty `servers` option leaves a local variable unassigned, so reading the configuration raises.

## Model

| member | source | states |
|---|---|---|
| `TaskLock.EnforceSingleTask.RemoveByOwner` | src/splice/common/enforce_single_tasks.py:86-95 | removes the record of the task only if the given pid owns it, and returns what it removed |
| `TaskLock.EnforceSingleTask.RemoveNotRunning` | src/splice/common/enforce_single_tasks.py:60-73 | removes the record exactly when its owner is not alive |
| `TaskLock.EnforceSingleTask.RemoveExpired` | src/splice/common/enforce_single_tasks.py:75-84 | removes the record exactly when it was created no later than the expiry before now |
| `TaskLock.EnforceSingleTask.Lock` | src/splice/common/enforce_single_tasks.py:97-111 | an undisturbed call is refused if and only if the record's owner lives and the record is unexpired; otherwise the caller's record stands |
| `TaskLock.EnforceSingleTask.Release` | src/splice/common/enforce_single_tasks.py:113-115 | removes the caller's own record and no other |
| `TaskLock.EnforceSingleTask.Run` | src/splice/common/enforce_single_tasks.py:130-142 | the body runs if and only if the lock was free; afterwards, normally or by exception, no record is left |
| `TaskLock.MutualExclusion` | src/splice/common/enforce_single_tasks.py:60-143 | in every interleaving at most one live process is in the body within the expiry of its own stamp |
| `TaskLock.RecordLostOnlyByExpiry` | src/splice/common/enforce_single_tasks.py:65-68 | whatever others do, a live process in the body loses its record only when it has expired |
| `TaskLock.NoRecordLeft` | src/splice/common/enforce_single_tasks.py:135-139 | a live process outside body and release owns no record of the task |
| `TaskLock.ReleaseSparesSuccessor` | src/splice/common/enforce_single_tasks.py:113-115 | whoever releases removes no record of another owner, expired or not; who works under the lock keeps record and protection |
| `TaskLock.SoloLock` | src/splice/common/enforce_single_tasks.py:97-111 | run alone, the steps of the transition system compute what the method `Lock` promises |
| `TaskLock.OverlapAfterExpiry` | src/splice/common/enforce_single_tasks.py:99-104 | two live processes can be in the body together at a time, the earlier with a given stamp, if and only if the expiry has passed since that stamp |
| `LookupTasks.LookupStore.GetCurrent` | src/splice/common/identity.py:82-105 | returns the unexpired record and changes nothing, or returns nothing and leaves none of that uuid |
| `LookupTasks.LookupStore.Purge` | src/splice/common/identity.py:61-65 | leaves exactly the unexpired records |
| `LookupTasks.LookupStore.GetCachedStatusCode` | src/splice/managers/identity_lookup.py:27-35 | the status of an unexpired completed record, otherwise nothing |
| `LookupTasks.LookupStore.Complete` | src/splice/managers/identity_lookup.py:51-83 | 202 keeps the lookup going without task id, 404 completes it, both with the start time kept; anything else deletes it; an expired record is removed, and without one nothing happens |
| `LookupTasks.LookupStore.Update` | src/splice/managers/identity_lookup.py:86-96 | gives the unexpired record, or a new one, the task id and marks it incomplete; its start time and all other records stay |
| `LookupTasks.LookupStore.HandleLookup` | src/splice/entitlement/apis.py:81-104 | a lookup in progress is answered 202, a completed one its status, or 404 if it has none, and nothing changes; otherwise a lookup is started and answered 202. `ReadersMatchHistory` says when |
| `LookupTasks.LookupStore.FindIdentity` | src/splice/entitlement/checkin.py:109-125 | refuses as not found exactly on a cached 404, or starts a lookup at a later clock reading and refuses as unknown. `ReadersMatchHistory` says when |
| `LookupTasks.LookupStore.RetryPass` | src/splice/entitlement/tasks.py:91-111 | the loop, with a clock reading of its own for every record, computes the purged collection with every listed record retried unless its task runs; `RetryPassRetries` says which these are |
| `LookupTasks.RetryPassKeepsProgress` | src/splice/entitlement/tasks.py:91-111 | completed records are unchanged, each listed one is in progress with a task id that is new or still running, and keeps its start time unless it expired before its turn |
| `LookupTasks.RetryPassRetries` | src/splice/entitlement/tasks.py:91-111 | every record that is not completed and within the timeout at purge and listing has the dispatched id afterwards, unless it has a task that is running: then it is as before |
| `LookupTasks.AnsweredLaterIsRetried` | src/splice/entitlement/tasks.py:97-107 | a lookup answered 202 gets a new task by the next pass within the timeout |
| `LookupTasks.RetryPassAtOneReading` | src/splice/entitlement/tasks.py:91-111 | at one clock reading no expired record is left, and the in-progress uuids and start times are the same |
| `LookupTasks.RetryPassIsRun` | src/splice/entitlement/tasks.py:91-111 | the pass is a purge, a listing and then updates in any order of the records |
| `LookupTasks.LazyExpiryRefinesEager` | src/splice/common/identity.py:34-105 | runs of whole calls that differ only in where expired records are purged give the same answers |
| `LookupRaces.LazyRefinesEagerIffApart` | src/splice/managers/identity_lookup.py:51-96 | access by access, purges change no answer in any run if and only if the purge of a record and the calls on it do not overlap |
| `LookupRaces.PurgeLosesAnswer` | src/splice/managers/identity_lookup.py:63-73 | a run in which a purge between load and save of a completion loses the 404 |
| `LookupRaces.SecondInsertIsRefused` | src/splice/common/models.py:176 | from any state without record, a run in which two calls insert it and the second is refused |
| `LookupRaces.AloneIsUpdate` | src/splice/managers/identity_lookup.py:86-96 | undisturbed, load, removal and save of an update compute what the whole call does |
| `LookupRaces.AloneIsComplete` | src/splice/managers/identity_lookup.py:51-83 | the same for a completion |
| `LookupRaces.AloneIsLook` | src/splice/common/identity.py:82-105 | the same for a reader, and the listing lists what the whole call lists |
| `LookupRaces.AloneIsPurge` | src/splice/common/identity.py:61-65 | the same for the purge of one record |
| `LookupTasks.ReachableAnswers` | src/splice/managers/identity_lookup.py:63-95 | from an empty collection completed means 404 without task id; lookups answer 202 or 404; a check-in never sees an unexpected status |
| `LookupTasks.NegativeCacheMatchesHistory` | src/splice/managers/identity_lookup.py:27-35 | the cache answers 404 if and only if the last effective event on the uuid was a 404 completion no more than 3600 seconds times the configured hours ago; otherwise nothing |
| `LookupTasks.ReadersMatchHistory` | src/splice/entitlement/apis.py:90-104 | exactly then a lookup is answered 404, otherwise 202, and a check-in is refused as not found, otherwise as unknown: the three readers agree at one clock reading |
| `LookupTasks.ListingMatchesHistory` | src/splice/common/identity.py:67-70 | a lookup is listed as in progress if and only if the last effective event started, updated or postponed it and its start is at most 60 seconds times the configured minutes ago |
| `LookupTasks.RetriesNeverProlong` | src/splice/managers/identity_lookup.py:86-96 | updates and 202 completions keep the start time; an incomplete record is shown to nobody after start plus timeout |
| `ConsumerIdentities.IdentityStore.CreateOrUpdate` | src/splice/common/identity.py:194-241 | updates the first document of the uuid in place or appends one, converted as `LeftAsSent` and `LeftOutIsDefault` say; an item raises exactly as `RaisesIffNotAccepted` says, and then changes nothing |
| `ConsumerIdentities.IdentityStore.BulkInsert` | src/splice/common/identity.py:143-151 | appends a document for each item in order, converted likewise, or none if one does not convert |
| `ItemConversion.LeftAsSent` | src/splice/common/identity.py:194-241 | what a query finds after an item was applied has its uuid, ids and given dates, is deleted if and only if the item said so, and then has a deletion date, the clock reading only if none was sent |
| `ItemConversion.LeftOutIsDefault` | src/splice/common/identity.py:209-223 | no `deleted` is like false, no creation or modification date like the clock reading, no deletion date like an empty one |
| `ItemConversion.RaisesIffNotAccepted` | src/splice/common/identity.py:154-191 | an item raises if and only if uuid or engineering ids are missing, or the uuid or a date does not parse; it changes nothing |
| `ItemConversion.PageRaisesIff` | src/splice/common/identity.py:107-151 | a page raises if and only if an item with a uuid is not accepted, and leaves the collection as it was if that item is new; after a page that does not raise each such item is found |
| `ItemConversion.CompleteSweepStoresAll` | src/splice/common/identity.py:293-309 | where a sweep reaches the end without raising, which is when the watermark moves, every listed item with a uuid was accepted and is found |
| `ConsumerIdentities.IdentityStore.ProcessData` | src/splice/common/identity.py:107-141 | the page import: new items inserted behind, known ones updated serially; returns how many had a uuid |
| `ConsumerIdentities.IdentityStore.SaveLastSync` | src/splice/common/identity.py:250-262 | the host reads back this watermark, and every host that sanitises differently its own |
| `ConsumerIdentities.IdentityStore.SyncFromParent` | src/splice/common/identity.py:281-309 | where it is never stuck, the sweep ends at the first page that raises or reaches the end; every listed item was then imported, and only then the watermark moves |
| `ConsumerIdentities.SweepEndsIff` | src/splice/common/identity.py:293-305 | the paging loop ends if and only if no offset it reaches has a page on which no item has a uuid |
| `ConsumerIdentities.SweepEndsIffNoGap` | src/splice/common/identity.py:293-305 | unless an import raises, it ends if and only if the listing has no stretch without uuids that fills a page |
| `ConsumerIdentities.LastWithoutUuidIsStuck` | src/splice/common/identity.py:302-304 | a listing whose last item has no uuid is never gone through, unless an import raises |
| `PageImport.FindAfterUpsert` | src/splice/common/identity.py:225-238 | applying one item changes what is found for its uuid and nothing else, and keeps one document per uuid |
| `PageImport.FastRefinesSimple` | src/splice/common/identity.py:107-141 | the page import equals applying the items in order if and only if the inserted items name unseen, distinct uuids |
| `PageImport.ImportKeepsOneDoc` | src/splice/common/identity.py:107-141 | the same condition decides whether one document per uuid is kept |
| `PageImport.OtherSpellingIsInsertedTwice` | src/splice/common/identity.py:117-121 | a stored uuid in another spelling is inserted again instead of updated |
| `PageImport.PageOverrides` | src/splice/common/identity.py:107-141 | a page of distinct canonical uuids leaves each as sent and every other identity as it was |
| `PageImport.SweepOverrides` | src/splice/common/identity.py:293-304 | whatever the page limit, and though items without uuid make pages overlap, the collection ends overridden by every listed identity |
| `PageImport.SweepOfProperListing` | src/splice/common/identity.py:293-304 | on a well-formed listing the sweep ends if and only if no stretch without uuids fills a page |
| `ParentSync.FilteredAt` | src/splice/common/rhic_serve_client.py:39-50 | a matching identity is found in the filtered listing at its position |
| `ParentSync.FilteredMembers` | src/splice/common/rhic_serve_client.py:39-50 | the filtered listing has exactly the identities modified after the watermark, or all of them if there is none |
| `ParentSync.ChangeMovesForward` | src/splice/common/identity.py:293-304 | a change at the parent moves no identity to a smaller offset, so paging skips none |
| `ParentSync.StoredSaysAll` | src/splice/common/identity.py:194-241 | different identities of the parent are sent differently and become different documents |
| `SyncImport.SoloImport` | src/splice/common/identity.py:107-141 | undisturbed, existence query, bulk insert and serial updates of a page lead to the collection `ProcessData` computes |
| `SyncCoverage.SyncInvariant` | src/splice/common/identity.py:281-309 | in every state each parent identity is stored in its current version or was modified after the saved watermark, whatever overlaps, if stores come before any later start |
| `SyncCoverage.StoreRuleIsExact` | src/splice/common/identity.py:264-278 | a rule on fetch time, starts and watermark that lets in what was fetched after every start keeps the invariant in all runs if and only if it lets in nothing else |
| `SyncCoverage.LateLookUpIsNeverRepaired` | src/splice/common/identity.py:264-278 | for every fetch time and later start, a run in which a lookup stored after the sweep ends with an old version, and the listing of the next sweep is empty |
| `SyncUniqueness.OneDocIffSerial` | src/splice/common/models.py:217 | one document per uuid is kept in all runs if and only if stores of the uuid, each from its query to its save, do not overlap |
| `SyncUniqueness.LookUpDuringImport` | src/splice/common/identity.py:117-127 | a run in which a lookup between existence query and bulk insert leaves two documents |
| `UsageUpload.UsageReceiver.ImportHook` | src/splice/entitlement/apis.py:48-66 | adds, unchanged and in order, for each new key the first record before any invalid one whose save works; returns exactly those whose save failed; raises exactly if a record is not valid |
| `UsageUpload.UsageReceiver.PostList` | src/splice/common/api.py:297-335 | the same import; 400 if and only if no records can be read or one is not valid; 202 if and only if every save worked, and then every key sent is there; no record is dropped and one per key is kept |
| `UsageUpload.ImportIsExactly` | src/splice/entitlement/apis.py:48-66 | the import is the fold of `save` over the records before the first invalid one, and that is the old store with the first working record of each new key behind it |
| `UsageUpload.BothAreStored` | src/splice/common/models.py:242 | two records are both stored if and only if they differ in consumer, splice server, date or instance |
| `UsageUpload.ImportIsComplete` | src/splice/entitlement/apis.py:48-66 | an import without error leaves every key present, one raises if and only if a record is not valid, and no import drops a record |
| `UsageUpload.ImportKeepsKeys` | src/splice/common/models.py:242 | no key is ever stored twice |
| `UsageUpload.ImportTwiceIsOnce` | src/splice/entitlement/apis.py:53-59 | importing again what is there changes nothing |
| `UsageUpload.UsageSender.MarkSent` | src/splice/managers/upload.py:106-108 | adds the address to the tracker of exactly the given records |
| `UsageUpload.UsageSender.UnmarkSent` | src/splice/managers/upload.py:110-112 | removes the address from the tracker of exactly the given records |
| `UsageUpload.UsageSender.ProcessUpload` | src/splice/managers/upload.py:64-104 | marks the batch exactly when the request succeeded, and then the batch is no longer pending; `SuccessStatuses` and `SentIffAllWorked` say when that is |
| `UsageUpload.SuccessStatuses` | src/splice/common/splice_server_client.py:43-54 | 200, 202 and 204 are successes and no other status is; 400 and 409 are refusals |
| `UsageUpload.SentIffAllWorked` | src/splice/managers/upload.py:85-103 | sender and receiver composed: the batch counts as sent if and only if every save at the receiver worked; what gets marked has its key there, and otherwise nothing is marked |
| `UsageUpload.UnmarkUndoesMark` | src/splice/managers/upload.py:106-112 | unmarking undoes marking if and only if no record was marked before |
| `UsageUpload.UploadsDrain` | src/splice/managers/upload.py:142-160 | after k successful uploads exactly k times the limit, or all, are sent, and nothing that was sent is pending again |
| `UsageUpload.BatchesDisjoint` | src/splice/managers/upload.py:142-160 | no record is in two successive batches |
| `UsageUpload.OldestFirst` | src/splice/managers/upload.py:142-160 | no record is sent in a later batch than a younger one |
| `UsageDelivery.ExactlyOnce` | src/splice/managers/upload.py:64-108 | in every state of every run with crashes on either side, a marked record has its key at that endpoint exactly once, whoever else sends; and as sent, if its source has no other sender |
| `UsageDelivery.DeliveryNeedsDistinctAddresses` | src/splice/managers/upload.py:108 | keys of marked records are delivered in all runs if and only if no two endpoints share an address |
| `UsageDelivery.AsSentNeedsOneSender` | src/splice/entitlement/apis.py:53-59 | marked records of a source are delivered as sent in all runs if and only if no other sender delivers them |
| `NewerWins.Resource.CreateHook` | src/splice/common/api.py:180-203 | stores the object if its key is new or its date is newer, changes no other, never goes back, and returns it |
| `NewerWins.Resource.PostList` | src/splice/common/api.py:147-160 | merges the objects of the request in order, and hands exactly them on |
| `NewerWins.MergeAllHoldsNewest` | src/splice/common/api.py:180-203 | any uploads leave per key one of the newest objects |
| `NewerWins.ConvergesIffNoTie` | src/splice/common/api.py:180-203 | every order and repetition of the same uploads gives the same store if and only if the newest of no key are tied |
| `NewerWins.RequestsConverge` | src/splice/common/api.py:126-133 | every split into requests, order and repetition gives the same store if and only if the newest of no key are tied |
| `NewerWins.RequestsHoldNewest` | src/splice/common/api.py:126-133 | any requests leave per key one of the newest objects |
| `MetadataSync.MetadataSender.ProcessUpload` | src/splice/managers/upload.py:47-62 | the watermark moves to the last date of the batch exactly on success, as `UsageUpload.SuccessStatuses` says, and then nothing is above it |
| `MetadataSync.AskThenStoreIsMerge` | src/splice/common/api.py:189-200 | undisturbed, look-up and save are the merge |
| `MetadataSync.OtherSendersStore` | src/splice/common/api.py:147-160 | receivers serve other senders: any object can come to any receiver though this sender has none |
| `MetadataSync.WatermarkIsDelivered` | src/splice/managers/upload.py:114-140 | with covered saves, in every state of every run with overlapping uploads and crashes each record up to the watermark of an endpoint that has its address for itself and stores one object of a key at a time is there in this version or a newer one |
| `MetadataSync.DeliveredIffSound` | src/splice/managers/upload.py:114-135 | with covered saves, delivery to an endpoint holds in all runs if and only if no other endpoint has its address and merges of one key there do not overlap |
| `MetadataSync.SharedAddressLoses` | src/splice/managers/upload.py:114-117 | a run in which an upload to another endpoint of the address moves the watermark |
| `MetadataSync.OverlappingMergesLose` | src/splice/common/api.py:189-200 | a run in which two overlapping requests leave the older version below the watermark |
| `MetadataSync.SaveIsSafeIffCovered` | src/splice/managers/upload.py:47-62 | after any such run a further save can lead to a loss if and only if it is not covered |
| `MetadataSync.NewStampIsCovered` | src/splice/managers/upload.py:129-135 | a stamp above the watermark, the end of every upload sent and every watermark read is covered, and for a record new to the receiver nothing less is |
| `MetadataSync.LateStampIsLost` | src/splice/managers/upload.py:121-140 | with stamps merely above the watermarks a run loses a record |
| `MetadataSync.StampBelowReadIsLost` | src/splice/managers/upload.py:129-135 | with stamps above the watermarks and the end of all that was sent a run loses a record, since an upload has read a later watermark |
| `MongoKeys.SanitizeIsSimultaneous` | src/splice/common/utils.py:61-63 | the two chained replacements are one substitution character by character |
| `MongoKeys.SanitizeIsSafe` | src/splice/common/utils.py:61-63 | the result has no '.' and no '$'; sanitising changes exactly the strings that have one, and is idempotent |
| `MongoKeys.SanitizeKeyIsSafe` | src/splice/common/utils.py:65-70 | on nested lists the result is safe, nests alike, and is not changed again |
| `MongoKeys.SanitizeKeyEscapes` | src/splice/common/utils.py:61-70 | on nested lists each text of the result is the substitution of the text at its place |
| `MongoKeys.SanitizeKeyForMongo` | src/splice/common/utils.py:61-70 | the loop over a list sanitises each element |
| `MongoKeys.SanitizeDictForMongo` | src/splice/common/utils.py:73-87 | every key is there sanitised and safe, with the value of a key it comes from; of plain keys none is lost and each keeps its value |
| `MongoKeys.RestoredIffPlain` | src/splice/common/utils.py:61-63 | exactly the plain keys can be read back from their sanitised form, and each sanitised form is that of exactly one plain key |
| `MongoKeys.NoEntryLost` | src/splice/common/utils.py:83-87 | no dictionary of plain keys and this key loses an entry if and only if this key is plain |
| `MongoKeys.KeysCollide` | src/splice/common/utils.py:61-63 | "a.b" and "a_dot_b", and all such keys, become one, and a dictionary of both ends with one entry |
| `MongoKeys.WatermarkRoundTrip` | src/splice/common/identity.py:243-262 | a saved watermark is read back, though the key is sanitised twice, and hosts that sanitise differently keep theirs |
| `ServerList.ParseServers` | src/splice/common/config.py:236-253 | the loop parses every entry or raises at the first that does not parse |
| `ServerList.AcceptedIffAllParse` | src/splice/common/config.py:239-251 | accepted if and only if each entry has three pieces, the second an integer |
| `ServerList.ParseUndoesPrint` | src/splice/common/config.py:236-253 | parsing a printed list, with any whitespace around the pieces, gives it back in order |
| `ServerList.PaddingIsWhitespace` | src/splice/common/config.py:236-253 | the pieces of an entry may be surrounded by blanks, tabs, line feeds, carriage returns, vertical tabs and form feeds; no other character is taken off |
| `ServerList.IntegerTexts` | src/splice/common/config.py:247 | a port is decimal digits with at most one sign before them |
| `ServerList.PlusIsAccepted` | src/splice/common/config.py:247 | a plus sign before the digits of a port changes nothing |

## Hypotheses of the theorems about runs

* Lock: pids are not reused, a process makes one attempt at a time per task id, all callers of a task id use one expiry,
  all processes run on one host and may signal each other (a probe refused for permissions reads as not alive).
* Lookups: clocks do not run backwards, deletions succeed; where whole runs of calls are meant, each call is one step.
  Configured times are not negative where a failing run is given. As mongoengine 0.7.5 does, the save of a loaded record
  goes by its id, writes the fields that were assigned, and creates nothing.
* Sync: the parent keeps its order, removes nothing and stamps each change later than every clock reading so far; writes
  succeed. The theorems say themselves when something fetched may be stored, and which stores may not overlap.
* Usage: a success status comes from the receiver after it imported the batch.
* Metadata: a success status comes from the receiver after it merged the batch; a save writes the whole object. The
  theorems say themselves which stamps, which overlaps and which addresses are excluded.

## Left out

- HTTP, SSL, gzip, JSON, X509 and OAuth: a request is a free choice of outcomes.
- Failing deletes of lookup records: `delete_rhic_lookup` swallows the exception and its callers go on as if it succeeded.
- ConsumerIdentities.IdentityStore.CreateOrUpdate: a save that fails, where the source logs, returns False and goes on, is
  not modelled; writes succeed.
- What the save of an uploaded object does that carries the database id of its sender; the unique indexes are taken to be
  enforced.
- The loop over configured servers in `upload_product_usage_data`, which only runs the two uploads for each and swallows
  their exceptions.
- Whether clearing `tracker` on a query set survives its second iteration; a sent record has an empty tracker here.
- Dates as text, time zones and the millisecond precision of MongoDB.
- The rollback in `put_list`, and `RulesResource`, whose update branch can never be taken.
- `SyncRHICServeThread` and its job table: a finishing thread can unregister its successor.
- `candlepin.py`, `check_access`, `record_usage`, authentication, logging, Django and Celery wiring, provisioning scripts.
