# Verified model of the state core

A Dafny model of five parts of the service and the properties they are relied on for:

* **Auth filters** (`Sql`, `AuthFilter`, `AuthMeaning`, `AuthFaults`, `AssistantQueries`). A filter tree compiles to SQL text with
  numbered placeholders and an argument list. Text is modelled as tokens, read back by a small reader with the operator
  precedence of section 4.1.6 of the PostgreSQL documentation, and evaluated in three-valued logic over a row. Get, Search,
  Count, GetVersions, Create, Patch and the deletion of an assistant splice their filters by the same loops as the source
  and are shown to select exactly the rows they should; SetLatest is shown not to.
* **Assistant versions** (`AssistantStore`, `AssistantOutcomes`, `AssistantHistory`). Two tables updated by Create, Patch, SetLatest and Delete;
  invariants over every run, and what a rollback does and does not restore.
* **Checkpoints** (`Ordering`, `Checkpoints`, `CheckpointHistory`, `CheckpointReadability`, `CheckpointCopy`, `CheckpointReads`,
  `CheckpointReplies`, `CheckpointStore`).
  Three tables with three conflict rules. `CheckpointStore.Store` holds them as fields and is proved against the functions
  of `Checkpoints`; the other modules prove what a reader sees across all later runs, after a copy, through pages, and
  after pruning.
* **Config and payload codec** (`ConfigCodec`, `ConfigRoundTrip`, `ConfigVanishing`, `ConfigKeys`, `ConfigLoops`, `PayloadCodec`,
  `PayloadLoops`). Both directions as functions on JSON trees, with the loops proved to compute them; when a message
  survives the trip, and how many passes normalisation needs.
* **Expiry sweep and proto printer** (`TtlSweep`, `ProtoPrinter`, `ProtoItems`, `ProtoReader`).

A `Host` value stands for what the code calls but does not define: the `jsonb` cast, jsonb concatenation, UUID text,
protobuf marshalling, JSON text, base64, `fmt.Sprint` and the float64 conversions. `Faithful` says what is relied on:
unmarshalling inverts marshalling, printing a string gives that string, and small integers survive a float64.

## Where the code and its own words differ

* The comment on `DeleteThread` (internal/checkpointer/store.go:398) speaks of cascaded blobs and writes. The foreign keys
  (internal/db/migrations/0000006_checkpoint_tables.up.sql:23-49) refer to the thread only, so blobs and writes stay. The
  model follows the schema: `CheckpointReads.DeletedThreadRemembersBlobs`.
* The comment on `writesIdxMap` (internal/checkpointer/service.go:17-19) says a conflict on a sentinel does nothing. The
  store overwrites (internal/checkpointer/store.go:178-181), and so does the model.
* `SetLatest` numbers its filter placeholders from 2 although `$2` is the version (internal/assistants/store.go:754-776).
  They name the right arguments exactly when there are no filters: `AssistantQueries.SetLatestMisbinds`.
* A serialized value sent under the encoding reserved for marked protobuf is stored as is and later unmarshalled; if that
  fails, the whole tuple cannot be read. In `CheckpointReadability`, `CleanRunsRead` gives the runs after which everything
  reads, and `BatchKeepsReadable` and `PutKeepsReadable` say exactly which requests break which checkpoints.
* An extra named like a standard metadata key replaces that key in the stored document
  (internal/checkpointer/service.go:283-310) and is not read back as an extra: `CheckpointReads.MetadataDocRoundTrip` holds
  exactly when there is none, and `ExtraStepOverwrites` gives one.
* The proto printer knows a map field by the last part of its type name (scripts/dump_proto.py:155-156), so a repeated field
  of a foreign type with the simple name of a local entry is printed as a map: `ProtoPrinter.ForeignTypePrintedAsMap`.
* A copied checkpoint gets the new thread id in its metadata, so a listing filtered on `thread_id` differs between a thread
  and its copy; `CheckpointCopy.ListsAlikeExactly` shows that, among filters whose entries can be stored at all, those are
  the only ones.

## Model

| member | source | states |
|---|---|---|
| AuthFilter.Emit | internal/auth/filter.go:54-84 | the recursive case split yields the text, arguments and next number of `Compile`, and the same error on a bad tree |
| AuthFilter.JoinNested | internal/auth/filter.go:97-113 | the loop threads the placeholder number through the children and fails with the first child's error, or on an empty list |
| AuthFilter.ApplyToQuery | internal/auth/filter.go:32-52 | nothing for no filters, one bare fragment for one, a bracketed conjunction otherwise, or the first filter's error |
| AuthFilter.CompileNumbers | internal/auth/filter.go:54-113 | emission succeeds exactly on well-formed trees, and the text uses each of `$idx`..`$(idx+len(args)-1)` once, in order |
| AuthFilter.ListNumbers | internal/auth/filter.go:97-113 | the same for a list of filters, fragment after fragment |
| AuthMeaning.CompiledReads | internal/auth/filter.go:54-113 | in front of any following tokens a compiled filter reads back as one atom, its own expression tree |
| AuthMeaning.TopReads | internal/auth/filter.go:32-52 | the entry point fails exactly on ill-formed lists; its text is empty only for no filters and is otherwise one atom with consecutive placeholders |
| AuthMeaning.TreeMeans | internal/auth/filter.go:54-82 | under arguments bound at its placeholders the expression of a filter has a truth value and keeps a row exactly when the tree accepts its document |
| AuthMeaning.TopMeans | internal/auth/filter.go:32-52 | a top-level list means the conjunction of its filters; the empty list restricts nothing |
| AuthMeaning.SplicedMeans | internal/auth/filter.go:32-52 | spliced by AND after any conjuncts, the whole clause reads back and keeps exactly the rows that the conjuncts keep and every filter accepts |
| Sql.NullsReadAsFalse | internal/auth/filter.go:58-80 | for any condition without negation, three-valued evaluation keeps exactly the rows that two-valued evaluation keeps with NULL atoms read as false |
| AuthFaults.TopFaults | internal/auth/filter.go:32-113 | the error is that of the first bad filter, a group's being that of its first bad member: nil, unset, empty key, not one match, or empty group |
| AuthFaults.ScalarFilters | internal/auth/filter.go:58-80 | on a scalar, Eq asks for that value under the key, and Contains also finds it in a list stored there |
| AssistantQueries.AppendAuth | internal/assistants/store.go:196-206 | adds the filter fragment as one more conjunct with its arguments, failing exactly on ill-formed filters |
| AssistantQueries.ByIdMeans | internal/assistants/store.go:140-158 | the by-id clause selects, over any later arguments, exactly the assistant with that id that every filter accepts |
| AssistantQueries.WhereArgs | internal/assistants/store.go:175-207 | the conjuncts in order, over consecutive placeholders, with the next free number returned |
| AssistantQueries.SearchMeans | internal/assistants/store.go:175-207 | the search clause reads back and selects exactly the rows matching graph, name, metadata and filters |
| AssistantQueries.Search | internal/assistants/store.go:211-245 | selects exactly the matching rows over the final argument list, LIMIT and OFFSET name the arguments made for them, with the default limit for 0, and the order is by a listed column: the one asked for if it is listed, else newest first |
| AssistantQueries.Count | internal/assistants/store.go:248-259 | counts over a clause that selects exactly the matching rows |
| AssistantQueries.VersionsMean | internal/assistants/store.go:270-312 | the version clause selects by assistant id and the version's metadata, gated by the assistant's metadata |
| AssistantQueries.VersionClause | internal/assistants/store.go:275-302 | the loop-built clause, and the assistant joined exactly when there are filters |
| AssistantQueries.GetVersions | internal/assistants/store.go:270-339 | selects exactly those versions over the final argument list, from rows that have the assistant's metadata only when it is joined, newest first and paged by the right placeholders |
| AssistantQueries.SetLatestMisbinds | internal/assistants/store.go:753-786 | the filter placeholders name their own arguments exactly when there are no filters; otherwise the first one names the version number |
| AssistantStore.FindArgIdx | internal/assistants/store.go:664-679 | the last place of an equal argument, or the length when there is none |
| AssistantStore.BuildPatch | internal/assistants/store.go:508-604 | in the version row and in the SET clause every placeholder names an argument equal to the value given for that column |
| AssistantStore.ColumnsMean | internal/assistants/store.go:613-647 | column lists that name the right arguments produce the patched row: given columns replaced, metadata merged, the rest kept |
| AssistantStore.CreateArgs | internal/assistants/store.go:371-439 | each inserted column takes its own argument, with and without an explicit id, whatever is appended later |
| AssistantStore.CreateLegMeans | internal/assistants/store.go:444-459 | the conditions of the pre-existing-row leg, spliced after the inserted columns, select exactly the visible assistant with that id, unless the statement has just inserted it |
| AssistantStore.Store.Create | internal/assistants/store.go:371-474 | row and version 1 inserted together, or a conflict, or under do-nothing the existing row if visible, or a filter error |
| AssistantStore.Store.Patch | internal/assistants/store.go:496-658 | appends version MAX+1 with the merged content and moves the visible row to it; otherwise not found or a filter error and no change |
| AssistantStore.Store.SetLatest | internal/assistants/store.go:753-786 | copies back config, metadata and version of an existing version; every other column, the update time and every other assistant stay |
| AssistantStore.Store.Delete | internal/assistants/store.go:688-744 | removes the visible assistant and its versions; otherwise reports nothing deleted, or a filter error, and changes nothing |
| AssistantStore.Store.Get | internal/assistants/store.go:140-158 | the row exactly when it exists and every filter accepts it |
| AssistantOutcomes.CreateOutcome | internal/assistants/store.go:371-474 | the answer and both tables, column by column: the given columns, empty objects for absent documents, version 1 with the same content, or no change |
| AssistantOutcomes.PatchOutcome | internal/assistants/store.go:496-658 | the answer and both tables, column by column: given columns replaced, metadata merged, the next version number, a version with the same content, or no change |
| AssistantOutcomes.DeleteOutcome | internal/assistants/store.go:688-744 | exactly the assistant and its versions go, or nothing does |
| AssistantHistory.RunKeeps | internal/assistants/store.go:421-436 | every run keeps: version numbers are 1..n, config and metadata equal the pointed-to version, graph, name, context and description equal the newest |
| AssistantHistory.ReachableConsistent | internal/assistants/store.go:613-647 | so every state reachable from empty tables is consistent |
| AssistantHistory.HistoryIsAppendOnly | internal/assistants/store.go:617-632 | along any run that does not delete the assistant, a version row neither changes nor goes away |
| AssistantHistory.SetLatestUndone | internal/assistants/store.go:753-786 | rolling back and then forward to the previous version restores both tables exactly |
| AssistantHistory.RollbackIsPartial | internal/assistants/store.go:749-769 | after a rollback the row shows the chosen version in full exactly when it agrees with the newest on graph, name, context and description |
| AssistantHistory.PatchBuildsOnPointedVersion | internal/assistants/store.go:613-637 | a patch after a rollback that sets neither config nor metadata carries those of the pointed-to version into the new one |
| Checkpoints.Lookup | internal/checkpointer/store.go:214-236 | a selected key is a stored row of the asked thread and namespace |
| CheckpointStore.AnyOrder | internal/checkpointer/service.go:71-81 | blob rows collected from a map in any order have the same effect on the table |
| CheckpointStore.Store.PutRows | internal/checkpointer/store.go:115-161 | the upsert keeps a first parent and run id and replaces both documents; blobs are inserted one by one without replacing |
| CheckpointStore.Store.Put | internal/checkpointer/service.go:55-111 | one put changes the tables as `Checkpoints.Put` says: one checkpoint row, blobs added under the new versions, writes untouched |
| CheckpointStore.Store.EncodeBatch | internal/checkpointer/service.go:113-144 | sentinel channels get their fixed negative index, the others their place in the batch |
| CheckpointStore.Store.PutWrites | internal/checkpointer/store.go:164-209 | inserts row by row, overwriting at negative indices and keeping the first row at the others |
| CheckpointStore.Store.CopyThread | internal/checkpointer/store.go:454-502 | key by key: a row is an old one, or under the new thread the row of the old thread, in the checkpoint table with the thread id set in its metadata |
| CheckpointStore.Store.DeleteThread | internal/checkpointer/store.go:399-407 | exactly the checkpoint rows of other threads remain, unchanged; blobs and writes stay |
| CheckpointStore.Store.DeleteForRuns | internal/checkpointer/store.go:410-421 | exactly the checkpoint rows without a run or of other runs remain, unchanged |
| CheckpointStore.Store.Prune | internal/checkpointer/store.go:507-538 | row by row: under strategy 2 exactly the rows of unlisted threads remain, under strategy 1 also the greatest of each namespace, unchanged; with threads listed any other strategy fails and changes nothing |
| CheckpointStore.Store.BlobsToValues | internal/checkpointer/service.go:404-423 | from blob rows in any order: exactly the channels at their listed version that are not empty, or a failure exactly when one of them does not decode |
| CheckpointStore.Store.CollectSends | internal/checkpointer/service.go:432-460 | the parent's sends flattened in order, or a failure exactly when one does not decode |
| CheckpointStore.Store.CollectWrites | internal/checkpointer/service.go:515-546 | the pending writes in (task_id, idx) order, or a failure exactly when one does not decode |
| CheckpointStore.Store.RowToTuple | internal/checkpointer/service.go:324-546 | the loops join the three tables into the tuple that the specification of a lookup by id gives |
| CheckpointStore.Store.GetTuple | internal/checkpointer/store.go:214-256 | by id, or the greatest id of the namespace; no tuple when there is none |
| CheckpointStore.Store.List | internal/checkpointer/store.go:345-396 | the page of tuples newest first, or a failure for a negative limit or an unreadable tuple |
| CheckpointStore.CollectReplies | internal/checkpointer/service.go:146-174 | all tuples in order, or a failure exactly when one could not be read |
| CheckpointReplies.PutOutcome | internal/checkpointer/store.go:115-161 | key by key: one checkpoint row is written, each serialized channel is stored under its new version, or "" without one, unless that key is taken, and all else stays |
| CheckpointReplies.FirstRunDecides | internal/checkpointer/service.go:87-92 | from its first put on, through later puts, writes and copies, deleting by runs removes a checkpoint exactly when the list has the first put's config run, or if that is empty its metadata's |
| CheckpointReplies.StoredRunDecides | internal/checkpointer/store.go:125-136 | putting a stored checkpoint again does not change which runs delete it |
| CheckpointReplies.OneWrite | internal/checkpointer/service.go:21-26 | a single write: each of the four sentinel channels overwrites at its own index, any other channel keeps what is at index 0 |
| CheckpointReplies.ReplyWrites | internal/checkpointer/service.go:515-527 | the writes of any reply are the checkpoint's write rows one for one, ascending by task and index, each with its row's task, channel and decoded value |
| CheckpointReplies.BatchComesBack | internal/checkpointer/service.go:113-144 | after a batch of ordinary channels for a task without rows, the reply shows for that task exactly the batch's channels and values, in batch order |
| CheckpointReplies.ReplyValue | internal/checkpointer/service.go:404-423 | a channel other than the sends' is shown exactly when a non-empty blob is stored at its listed version, with what that blob reads as |
| CheckpointReplies.ReplySends | internal/checkpointer/service.go:432-460 | the sends shown are the parent's task-channel rows in ascending order, each contributing its list, or one send without a node, put together; without any, the channel shows its blob |
| CheckpointReplies.ListAnswers | internal/checkpointer/store.go:345-396 | the unlimited listing holds the tuple of each checkpoint asked for, newest first, as a lookup by id answers it, and fails exactly when one such lookup does |
| CheckpointReplies.LimitedList | internal/checkpointer/store.go:365-369 | a limited listing answers the first tuples of the unlimited one, as many as the limit allows; a negative limit is refused |
| CheckpointReplies.LimitedListFails | internal/checkpointer/store.go:365-369 | it fails exactly when a checkpoint asked for, with fewer newer ones than the limit, cannot be read |
| CheckpointHistory.RunProper | internal/checkpointer/service.go:122-139 | in every reachable state sentinel channels sit at their own negative index and all others at non-negative ones |
| CheckpointHistory.NegativeIndexNamesItsChannel | internal/checkpointer/service.go:21-26 | hence two rows at one negative index belong to one sentinel channel |
| CheckpointHistory.RunExtends | internal/checkpointer/store.go:125-148 | along any run of puts, writes and copies, blobs and non-sentinel writes are final, and a checkpoint keeps its first parent and run id |
| CheckpointHistory.UntouchedRow | internal/checkpointer/store.go:125-136 | along such a run a checkpoint row changes only by being put again |
| CheckpointHistory.BlobsAreFinal | internal/checkpointer/service.go:404-423 | while a checkpoint is not put again, the blob it selects for a channel, and the value that shows, stay the same |
| CheckpointReadability.ValuesAreFinal | internal/checkpointer/service.go:324-546 | and in replies: a lookup that answers later shows every channel value, the parent and the metadata of an earlier answer; with clean requests it does answer |
| CheckpointHistory.SendsOnlyGrow | internal/checkpointer/store.go:310-335 | the rebuilt sends of a checkpoint are, along any such run, always a subsequence of the later ones |
| CheckpointHistory.BatchLookup | internal/checkpointer/store.go:171-196 | a whole batch, key by key: the last row of the batch at a sentinel key, the row already there at any other, else the batch's own |
| CheckpointHistory.RepeatedBatch | internal/checkpointer/store.go:171-196 | repeating a batch at once changes nothing, even when it repeats a sentinel channel |
| CheckpointReadability.EncodedDecodes | internal/checkpointer/service.go:556-596 | decoding inverts encoding except for an unset value, which becomes an empty one, and for bytes sent under the reserved encoding, which must unmarshal |
| CheckpointReadability.ReadableExactly | internal/checkpointer/service.go:404-527 | a tuple is answered exactly when the blobs it selects, its own writes and its parent's task-channel writes all decode |
| CheckpointReadability.StepDecodable | internal/checkpointer/service.go:556-596 | a request keeps everything stored decodable exactly when every value it gets stored is not a reserved-encoding one that fails to unmarshal |
| CheckpointReadability.RunDecodable | internal/checkpointer/service.go:556-596 | runs whose reserved-encoding values all unmarshal keep everything stored decodable |
| CheckpointReadability.CleanRunsRead | internal/checkpointer/service.go:324-546 | after such a run a lookup answers with a tuple exactly when the checkpoint exists |
| CheckpointReadability.BatchKeepsReadable | internal/checkpointer/service.go:580-596 | a batch of any size leaves a readable checkpoint readable exactly when each write that lands among its own writes or its parent's sends is sound |
| CheckpointReadability.PutKeepsReadable | internal/checkpointer/service.go:404-527 | after a put to any tables, a lookup of the put checkpoint or any other answers exactly when the writes joined into it and the older blobs it selects decode and each new blob it selects is sound |
| CheckpointReadability.PutSparesOthers | internal/checkpointer/service.go:404-423 | so a readable checkpoint that is not itself put stays readable exactly when each new blob it selects is sound |
| CheckpointReadability.ReservedEncodingBreaksReads | internal/checkpointer/service.go:580-596 | one reserved-encoding write to a free place, sentinel or not, leaves its checkpoint readable exactly when its bytes unmarshal |
| CheckpointCopy.CopyReadsAlike | internal/checkpointer/store.go:454-502 | after a copy to an empty thread every lookup answers as on the original, with the thread id replaced and set in the metadata |
| CheckpointCopy.CopyListsAlike | internal/checkpointer/store.go:345-396 | and so does every listing, for each cursor and limit, under filters that do not test thread_id |
| CheckpointCopy.ListsAlikeExactly | internal/checkpointer/store.go:457-465 | for a filter whose entries a request could itself store: a copy lists like its original in every state requests can reach exactly when the filter does not test thread_id |
| CheckpointCopy.CopyLeavesOthers | internal/checkpointer/store.go:454-502 | rows of every thread but the target are left as they were |
| CheckpointCopy.CopyTwice | internal/checkpointer/store.go:454-489 | copying again changes nothing, whatever the target held |
| CheckpointCopy.MovedMetadata | internal/checkpointer/service.go:462-513 | setting thread_id in a metadata document changes only that extra of the metadata read from it |
| CheckpointReads.PagingIsExact | internal/checkpointer/store.go:345-396 | calling List page after page, each before the id of the last tuple, ends and answers what the unlimited List answers: the same tuples in order, or a failure exactly when that fails |
| CheckpointReads.ListingIsExact | internal/checkpointer/store.go:345-396 | a listing holds exactly the matching ids, strictly descending |
| CheckpointReads.LatestIsHead | internal/checkpointer/store.go:228-236 | the lookup without an id selects a row exactly when it has the greatest id of its namespace |
| CheckpointReads.KeepLatestKeepsTheLatest | internal/checkpointer/store.go:520-534 | in a listed thread a row survives exactly when the latest-lookup selected it, and it still does; other threads, blobs and writes stay |
| CheckpointReads.KeepLatestAnswersAlike | internal/checkpointer/store.go:520-534 | a lookup of the latest answers, tuple or error, what it answered before the prune |
| CheckpointReads.PruneTwice | internal/checkpointer/store.go:507-538 | a second prune, or duplicate thread ids, change nothing more |
| CheckpointReads.CheckpointDocRoundTrip | internal/checkpointer/service.go:235-262 | the stored document reads back as the checkpoint, with `v` exact up to 2^53 |
| CheckpointReads.StoredCheckpoint | internal/checkpointer/service.go:235-262 | the keys of the stored document, and null for an empty channel list |
| CheckpointReads.StoredMetadata | internal/checkpointer/service.go:283-310 | key by key: the source by name, the step, parents or null, a run id if there is one, and over them the extras, as JSON or as base64 text |
| CheckpointReads.MetadataReads | internal/checkpointer/service.go:462-513 | what any stored document reads as: source by name or number, and only values of the right kind |
| CheckpointReads.MetadataDocRoundTrip | internal/checkpointer/service.go:283-310 | stored metadata reads back, an unnamed source as unknown and extras as JSON text, exactly when no extra is named like a standard key |
| CheckpointReads.ExtraStepOverwrites | internal/checkpointer/service.go:283-310 | an extra "step" holding a number is read back as the step and not as an extra |
| CheckpointReads.PutThenGet | internal/checkpointer/service.go:324-546 | a lookup right after a put finds the checkpoint, and answers with a tuple exactly when its own writes, its parent's sends and the older blobs under its versions decode and every sent value it reads is sound |
| CheckpointReads.PutTupleIsAsPut | internal/checkpointer/service.go:338-402 | the tuple answered carries the ids, timestamp, versions and lists put, the metadata as it reads back, and the parent of the first put |
| CheckpointReads.PutChannelThenGet | internal/checkpointer/store.go:138-148 | a put channel reads the first payload ever stored under its version |
| CheckpointReads.PutChannelComesBack | internal/checkpointer/service.go:404-460 | in the tuple answered a channel not covered by sends comes back as put exactly when the payload first stored for its version reads as the one sent |
| CheckpointReads.DeletedThreadRemembersBlobs | internal/checkpointer/store.go:399-407 | after deleting a thread's checkpoints, a new put under an old channel version reads the old bytes |
| ConfigLoops.InjectConfigurable | internal/crons/payload.go:295-360 | ranging over the keys in any order fills each field from its own key and the extras from the keys without one |
| ConfigLoops.Inject | internal/crons/payload.go:295-360 | with the real key names, each field receives what its key holds |
| ConfigLoops.DictToProto | internal/crons/payload.go:212-291 | the method computes the dict-to-message function of the whole dict; the empty dict gives no message |
| ConfigLoops.ConfigurableFromProto | internal/crons/payload.go:418-475 | per key the last writer wins: run id and tracing fields, then extras, then typed fields |
| ConfigLoops.ProtoToDict | internal/crons/payload.go:365-412 | the method computes the message-to-dict function; extras win over typed top-level fields |
| ConfigKeys.KeptEntries | internal/crons/payload.go:212-291 | which entries at the top and under metadata become extras, by name |
| ConfigKeys.KeptConfigurable | internal/crons/payload.go:295-360 | which entries under configurable become extras, by name, nulls and the dropped names apart |
| ConfigKeys.TopFieldsRead | internal/crons/payload.go:212-291 | how each top-level and metadata field is read: text only, numbers other than zero, tags printed one by one |
| ConfigKeys.RunIdReads | internal/crons/payload.go:212-291 | the top-level run id wins over the configurable one unless it prints as nothing |
| ConfigKeys.DurabilityNames | internal/crons/payload.go:482-506 | the three durability names and their numbers, both ways |
| ConfigKeys.ModeTable | internal/crons/payload.go:295-475 | the stream mode names in the order of their numbers |
| ConfigKeys.ModesAre | internal/crons/payload.go:295-475 | a mode is written by its name and read back as its number; unknown names and numbers are left out |
| ConfigKeys.ConfigurableWinner | internal/crons/payload.go:418-475 | under configurable, run id and tracing fields win over extras, and extras over the rest |
| ConfigKeys.TopAndMetadataWinner | internal/crons/payload.go:365-412 | at the top extras win; under metadata the server run id and the attempt win over documents |
| ConfigKeys.TypedFieldsShow | internal/crons/payload.go:365-412 | zeros and empty texts are written when set, and nothing is written for run_id and callbacks at the top |
| ConfigKeys.TypedConfigurableShow | internal/crons/payload.go:418-475 | texts are written when set, a checkpoint id only if not empty |
| ConfigRoundTrip.CanonicalReadsBack | internal/crons/payload.go:202-291 | a config with nothing the codec drops comes back from its dict, except that graph_id moves to the extras and run_id is copied there |
| ConfigRoundTrip.RoundTripExactly | internal/crons/payload.go:212-475 | and it does so exactly when it is canonical, field by field, and not the all-default message |
| ConfigRoundTrip.EmptyDict | internal/crons/payload.go:365-412 | among configs carried without loss only the all-default one has an empty dict |
| ConfigRoundTrip.SecondRoundTrip | internal/crons/payload.go:202-211 | the moved config is canonical and a second round trip is the identity |
| ConfigRoundTrip.NormalIdempotent | internal/crons/payload.go:212-475 | dict to message to dict is idempotent on every dict |
| ConfigVanishing.VanishesExactly | internal/crons/payload.go:212-412 | a dict normalises to nothing exactly when each of its entries is dropped by its own rule |
| PayloadLoops.PayloadDictToProto | internal/crons/payload.go:34-79 | the method computes the payload function of the whole dict |
| PayloadLoops.PayloadProtoToDict | internal/crons/payload.go:83-137 | typed entries, then extras over them |
| ConfigKeys.PayloadReads | internal/crons/payload.go:34-79 | each payload key is read into its own field, null as absent, and every other key kept unless null |
| ConfigKeys.PayloadShows | internal/crons/payload.go:83-156 | how interrupts and the multitask strategy are written: `*`, the nodes, or nothing, and the four names |
| ConfigKeys.PayloadShowsRest | internal/crons/payload.go:83-137 | how the other fields are written, documents only if they are JSON, and extras over all |
| PayloadCodec.SecondPass | internal/crons/payload.go:34-137 | a second normalisation changes something exactly when a non-empty config has all its entries dropped |
| PayloadCodec.TwoPassesSuffice | internal/crons/payload.go:34-137 | two passes reach a fixed point on every payload dict |
| PayloadCodec.LegacyOnlyByExtras | internal/assistants/service.go:219-238 | a dict written for a config is taken for a legacy row exactly when an extra with JSON content has a legacy name |
| ConfigKeys.LegacyKeys | internal/assistants/service.go:219-238 | the names that mark a legacy row |
| ConfigKeys.DecodesBy | internal/assistants/service.go:177-205 | legacy rows go to the older decoder, others to the dict decoder; an empty row or an all-default message is no config |
| PayloadCodec.StoredConfigDecodes | internal/assistants/service.go:177-205 | a canonical config without such extras is decoded from its stored row as the moved config |
| PayloadCodec.SharedRowsAgree | internal/assistants/service.go:177-238 | a legacy row with only the shared names is not recognised, and decodes to its message, or to no config when all is default, exactly when no set field is empty or zero |
| TtlSweep.ThreadTable.DeleteBatch | internal/threads/ttl.go:63-78 | one statement deletes as many expired threads as the limit allows and reports how many |
| TtlSweep.ThreadTable.Sweep | internal/threads/ttl.go:47-83 | the loop ends within the bound, deletes only what had expired, leaves the rest unchanged, and nothing is expired as of the last statement |
| TtlSweep.ShortBatchIsLast | internal/threads/ttl.go:79-82 | a batch below the limit leaves nothing expired |
| ProtoPrinter.SortSorts | scripts/dump_proto.py:234-241 | sorting by number rearranges the fields into ascending order |
| ProtoPrinter.CollectEntries | scripts/dump_proto.py:191-199 | key and value types of the map entries, or a failure exactly when one lacks its key or value |
| ProtoPrinter.GroupOneofs | scripts/dump_proto.py:208-227 | each real oneof with its fields in declaration order |
| ProtoItems.InOneofOrder | scripts/dump_proto.py:220-225 | the fields of a oneof are those that name it, in declaration order |
| ProtoItems.SortIsStable | scripts/dump_proto.py:234-241 | fields of one number keep their order |
| ProtoItems.SyntheticExactly | scripts/dump_proto.py:170-184 | a oneof is synthetic exactly when its name has a leading underscore and its one field is proto3 optional |
| ProtoPrinter.BuildItems | scripts/dump_proto.py:229-241 | fields and blocks interleaved as specified |
| ProtoPrinter.EmitMessage | scripts/dump_proto.py:187-254 | the printed lines, or a failure exactly when a map entry is incomplete or a oneof is undeclared at some depth |
| ProtoPrinter.BlockCounts | scripts/dump_proto.py:232-241 | each real oneof with fields is one block, no other index is |
| ProtoItems.BlockExactly | scripts/dump_proto.py:208-241 | a block is printed for exactly the declared oneofs with a field that do not stand for one optional field |
| ProtoItems.LooseExactly | scripts/dump_proto.py:220-241 | a field is printed by itself exactly when it is in no oneof or in one that stands for it alone |
| ProtoItems.PrintableExactly | scripts/dump_proto.py:194-204 | a message prints exactly when its oneofs are declared, its map entries have key and value, and its other nested messages print |
| ProtoItems.LastPart | scripts/dump_proto.py:155 | the simple name is what follows the last dot, or all of it |
| ProtoPrinter.ItemsPrintEachFieldOnce | scripts/dump_proto.py:213-252 | loose items and blocks together print every field exactly once |
| ProtoPrinter.ItemsInOrder | scripts/dump_proto.py:229-241 | items stand in order of field number, a block at the smallest number in it |
| ProtoPrinter.SyntheticIsOptional | scripts/dump_proto.py:142-184 | the field of a synthetic oneof is printed by itself as `optional`, and its oneof is no block |
| ProtoPrinter.MapLineExactly | scripts/dump_proto.py:148-158 | a field is printed as a map exactly when it is repeated and the last part of its type name names a map entry, with the key and value types of the last such entry |
| ProtoPrinter.PrintedAsMap | scripts/dump_proto.py:148-158 | map fields are always printed as maps; others are not, exactly unless a repeated field's foreign type has the simple name of an entry |
| ProtoPrinter.ForeignTypePrintedAsMap | scripts/dump_proto.py:155-156 | such a field of type `.other.TagsEntry` is printed as a map |
| ProtoPrinter.PrintShowsAll | scripts/dump_proto.py:187-254 | the printed text shows every message and every field at every depth exactly once; map-entry messages show nothing |
| ProtoReader.PrintReadsBack | scripts/dump_proto.py:127-254 | reading the text back by braces, indentation, labels and types gives, at every depth, the message: its own nested messages without map entries, its enums with values, and its entries in order, each field with its name, number, label (repeated, optional or none) and type without leading dots, or the key and value types of its map entry |

## Left out

- AssistantStore.Store.SetLatest: its effect is modelled without filters, because with filters its placeholders name the wrong arguments (`AssistantQueries.SetLatestMisbinds`).
- AssistantStore.Store.Delete: does not model the optional deletion of the assistant's threads, whose table is not part of this model.
- AssistantStore.Store.Create: concurrent inserts of one id are not modelled; the statement is one atomic step.
- CheckpointStore.Store.PutRows: the update times of the thread row, and the foreign-key errors for an unknown thread or run, are not modelled.
- CheckpointStore.Store.PutWrites: the update times of the thread row and the foreign-key error for an unknown thread are not modelled.
- CheckpointStore.Store.CopyThread: the update times of the target thread's row, and the foreign-key error when that thread does not exist, are not modelled.
- CheckpointStore.Store.Put: the thread row's update times, and the foreign-key errors for an unknown thread or run, are not modelled.
- CheckpointStore.Store.EncodeBatch: positions are unbounded, so the int32 wrap of a batch with 2^31 writes is not modelled.
- CheckpointStore.Store.LoadBlobs: the order by (task_id, idx) and the descending listing are taken from the ordered selection of the database; only rows selected without an order come in an arbitrary one.
- TtlSweep.ThreadTable.Sweep: the advisory lock, database errors and threads inserted during a sweep are not modelled.
- ConfigLoops.InjectConfigurable: takes the naming of its switch cases as parameters; `Inject` supplies the real names.
- ProtoPrinter.EmitMessage: the scalar type names, `emit_file`, `emit_service`, imports and the joining of lines into text are not modelled.
- PayloadCodec.SharedRowsAgree: the protojson decoder is represented by the row it would have been written from; protojson's own text rules are not modelled.
- Parsing and validation of UUIDs and of an empty or invalid id: ids are taken as valid; checkpoint and task ids are ordered numbers, the others strings.
- JSON text and protobuf bytes: JSON is a tree, protobuf marshalling a pair of functions; nil and empty byte strings are one; a filter value that is not JSON, which the database would refuse, is not modelled.
- SQL as tokens: spacing, identifier quoting and column lists are not modelled; ORDER BY is a column and a direction.
- Isolation and concurrency: each transaction and each statement is one atomic step.
- Deletion through foreign keys when a thread or a run row is deleted: those tables are not part of this model.
- decodePayload's recognition of older cron rows, which looks only for two keys, is not part of this model.
- The copy loops of `rowToTuple` and `marshalCheckpoint` from one map to another are written as map comprehensions.
- Runs, threads, crons, cache, streaming, admin, configuration, logging and metrics are not part of this model.
