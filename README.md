# CloudSearch indexer: staging and commit

This project models the staging-and-commit engine of the SI4T CloudSearch
indexer, `CloudSearchIndexer`, and proves properties of that model in Dafny.

Publishing calls the indexer to stage mutations into three registries, each
keyed by an item's unique index id:
- adds are first-write-wins;
- removals are last-write-wins;
- updates are last-write-wins.

A publication filter guards every staging call and `commit`: an empty list of
active publication ids admits everything, and otherwise the publication id must
be in the list.

`commit` works in three stages:
1. It groups the adds into batches of `indexBatchSize` documents and sends each
   non-empty batch to the dispatcher's add entry point.
2. It does the same with the removals, as delete documents, through the removal
   entry point.
3. It sends the updates through the add path.

The first exception ends the commit. It is rethrown as an `IndexingException`
whose message is a prefix for the exception's kind followed by the original
message. Once past the publication filter, commit always empties all four
registries (including the never-filled binary registry), whether it succeeds or
fails.

Module layout:
- `Types` (types.dfy): the entities. Index data, document operations and
  batches, the client request and dispatcher package, the dispatch calls, and
  the exception kinds.
- `Batching` (batching.dfy): the batch shape as a pure function `Batches` over
  a sequence. It has lemmas for the count (`ceil(n / size)`), sizes, the last
  batch, concatenation, and the one-entry-more step the grouping loops take.
- `Documents` (documents.dfy): the scalar/list payload rule, the `add` and
  `delete` operations, and the field loop of `constructInputDocument` as a method.
- `Dispatch` (dispatch.dfy): the dispatcher as an oracle class. It records
  every call and answers the n-th call of its lifetime with a supplied outcome.
  `Run` is the pure trace of a plan of calls that stops at the first failure.
- `Errors` (errors.dfy): the catch ladder's message prefixes, the translation,
  and its inverse.
- `Registry` (registry.dfy): the filter, the two overwrite policies as
  functions and as folds over a sequence of staging calls, and the order in
  which a registry's entries are visited.
- `Commit` (commit.dfy): the commit plan (adds, then removals, then updates),
  its shape, its documents, the ids it dispatches, and how the three stages
  compose.
- `Indexer` (indexer.dfy): the class `CloudSearchIndexer`. It has the
  registries as `map` fields and a method per source method. The grouping
  loops and dispatch loops are `while` loops proved against `Batches`,
  `Calls` and `Run`.

The source iterates a `ConcurrentHashMap`, whose entry order is unspecified.
`Registry.EntryOrder` picks each next key arbitrarily. The commit methods
return that order as a ghost value, and their contracts hold for whatever
order was taken.

Two behaviours of the code worth noting:
- A field with zero values is sent as an (empty) list, not as a scalar
  (`constructInputDocument`, lines 304-311).
- Registry iteration order is whatever the hash map yields, not a stable
  order.

## Model

| member | source | states |
|---|---|---|
| Registry.StageAdd | src/main/java/org/si4t/cloudsearch/CloudSearchIndexer.java:105-129 | an admitted item with a non-empty id is present afterwards; an id already staged keeps its first item; at most that one key is added; a filtered item or an empty id leaves the registry unchanged; registries stay keyed by their items' ids |
| Registry.StageLastWrite | src/main/java/org/si4t/cloudsearch/CloudSearchIndexer.java:131-161 | an admitted item with a non-empty id is stored under its id, replacing any earlier entry; every other key keeps its entry; a filtered item or an empty id changes nothing |
| Registry.FirstWriteWins | src/main/java/org/si4t/cloudsearch/CloudSearchIndexer.java:125-128 | after any sequence of add stagings, an id not staged before holds the first admitted item staged for it |
| Registry.KeptOnceStaged | src/main/java/org/si4t/cloudsearch/CloudSearchIndexer.java:125-128 | once an id is in the add registry, no later add staging changes its entry |
| Registry.LastWriteWins | src/main/java/org/si4t/cloudsearch/CloudSearchIndexer.java:144-160 | after any sequence of removal or update stagings, an id holds the last admitted item staged for it |
| Registry.UntouchedByOthers | src/main/java/org/si4t/cloudsearch/CloudSearchIndexer.java:144-160 | stagings that do not reach a key leave its entry, or its absence, as it was |
| Registry.EntryOrder | src/main/java/org/si4t/cloudsearch/CloudSearchIndexer.java:248 | iterating a registry's entries visits every key exactly once, in no promised order |
| Registry.ItemIdsInOrder | src/main/java/org/si4t/cloudsearch/CloudSearchIndexer.java:255 | visiting a keyed registry yields, at each position, an item whose id is the key visited there |
| Batching.Batches | src/main/java/org/si4t/cloudsearch/CloudSearchIndexer.java:246-257 | grouping yields no batches exactly when there are no entries |
| Batching.BatchesSizes | src/main/java/org/si4t/cloudsearch/CloudSearchIndexer.java:246-257 | n entries and batch size B give ceil(n / B) batches, none empty, none longer than B, and every batch but the last exactly B long |
| Batching.BatchesLast | src/main/java/org/si4t/cloudsearch/CloudSearchIndexer.java:246-257 | the last batch holds n mod B entries, or B when B divides n |
| Batching.BatchesFlatten | src/main/java/org/si4t/cloudsearch/CloudSearchIndexer.java:246-257 | the concatenated batches are the entries, in iteration order |
| Batching.BatchesSnoc | src/main/java/org/si4t/cloudsearch/CloudSearchIndexer.java:250-256 | one more entry opens a new batch exactly when the count so far is a multiple of B, and otherwise joins the last batch |
| Batching.FlattenAppend | src/main/java/org/si4t/cloudsearch/CloudSearchIndexer.java:246-257 | concatenating two lists of batches concatenates their contents |
| Documents.Payload | src/main/java/org/si4t/cloudsearch/CloudSearchIndexer.java:304-311 | exactly one value is sent as a scalar, any other count (zero included) as the list; the payload stands for exactly the field's values |
| Documents.InputDocument | src/main/java/org/si4t/cloudsearch/CloudSearchIndexer.java:292-314 | an `add` operation with the item's id, exactly the item's field names, and for each field the payload of its values |
| Documents.ConstructInputDocument | src/main/java/org/si4t/cloudsearch/CloudSearchIndexer.java:292-314 | the field loop builds exactly the `add` operation `InputDocument`, whatever order the fields are visited in |
| Documents.DocumentIds | src/main/java/org/si4t/cloudsearch/CloudSearchIndexer.java:283 | `add` and `delete` operations carry their items' ids, in order |
| Documents.IdsAppend | src/main/java/org/si4t/cloudsearch/CloudSearchIndexer.java:321 | the ids of concatenated operations are the concatenated ids |
| Dispatch.Dispatcher.AddDocuments | src/main/java/org/si4t/cloudsearch/CloudSearchIndexer.java:337 | the add entry point records the call and answers with the outcome for its call number |
| Dispatch.Dispatcher.RemoveFromCloudSearch | src/main/java/org/si4t/cloudsearch/CloudSearchIndexer.java:366 | the removal entry point records the call and answers with the outcome for its call number |
| Dispatch.CallsAppend | src/main/java/org/si4t/cloudsearch/CloudSearchIndexer.java:321-342 | the calls for two lists of batches are the calls for the first, then those for the second |
| Dispatch.CallsOfNonEmpty | src/main/java/org/si4t/cloudsearch/CloudSearchIndexer.java:324 | when no batch is empty the size guard skips nothing: one PERSIST call per batch, in order, carrying that batch |
| Dispatch.Run | src/main/java/org/si4t/cloudsearch/CloudSearchIndexer.java:179-182 | the calls made are a prefix of the plan; a run without failure made the whole plan; a failed run made at least one call |
| Dispatch.RunFirstFailure | src/main/java/org/si4t/cloudsearch/CloudSearchIndexer.java:179-182 | a run succeeds exactly when every call of the plan succeeds; a failed run ends at the first failing call, and every call before it succeeded |
| Dispatch.RunAppend | src/main/java/org/si4t/cloudsearch/CloudSearchIndexer.java:179-182 | running two plans back to back runs the second only when the first raised nothing |
| Dispatch.RunStep | src/main/java/org/si4t/cloudsearch/CloudSearchIndexer.java:321-342 | after a successful prefix, one more call either extends the run or is the last call of any longer plan |
| Dispatch.DispatchStep | src/main/java/org/si4t/cloudsearch/CloudSearchIndexer.java:321-342 | one iteration of a dispatch loop: an empty batch adds no call; a non-empty one adds its call, which either succeeds or ends the run |
| Errors.Translate | src/main/java/org/si4t/cloudsearch/CloudSearchIndexer.java:184-208 | the rethrown message is the kind's prefix followed by the original message |
| Errors.Translated | src/main/java/org/si4t/cloudsearch/CloudSearchIndexer.java:184-208 | commit's outcome is empty exactly on success; on failure the exception's kind and original message can be read back from the rethrown message |
| Errors.ClassifyTranslate | src/main/java/org/si4t/cloudsearch/CloudSearchIndexer.java:184-208 | the kind and original message can be read back from every translated message |
| Errors.TranslateInjective | src/main/java/org/si4t/cloudsearch/CloudSearchIndexer.java:184-208 | different failures never translate to the same exception |
| Commit.StageCalls | src/main/java/org/si4t/cloudsearch/CloudSearchIndexer.java:238-290 | one stage makes ceil(n / B) calls of its kind, each a PERSIST package of the configured request with a non-empty batch of at most B documents; the batches are the stage's documents in order |
| Commit.CallBatchesAppend | src/main/java/org/si4t/cloudsearch/CloudSearchIndexer.java:179-182 | the batches of concatenated calls are the concatenated batches |
| Commit.CommitPlanOrder | src/main/java/org/si4t/cloudsearch/CloudSearchIndexer.java:179-182 | a commit makes all add calls, then all removal calls, then all update calls through the add entry point, with ceil(n / B) calls per stage, each a PERSIST package of the request with a non-empty batch of at most B |
| Commit.SegmentsInOrder | src/main/java/org/si4t/cloudsearch/CloudSearchIndexer.java:179-182 | stage segments placed one after another keep their kinds at their positions |
| Commit.CommitPlanDocuments | src/main/java/org/si4t/cloudsearch/CloudSearchIndexer.java:179-182 | the concatenated batches of a commit are the add documents, the delete documents, then the update documents |
| Commit.CommitDispatchesRegistryKeys | src/main/java/org/si4t/cloudsearch/CloudSearchIndexer.java:238-290 | the ids a commit dispatches are exactly the add registry's keys, then the removal registry's, then the update registry's, each in its visiting order |
| Commit.ItemIdsOfOrder | src/main/java/org/si4t/cloudsearch/CloudSearchIndexer.java:248-255 | the `add` operations of a keyed registry carry exactly the visited keys |
| Commit.RemovalIdsOfOrder | src/main/java/org/si4t/cloudsearch/CloudSearchIndexer.java:274-284 | the `delete` operations of the removal registry carry exactly the visited keys |
| Commit.RunInStages | src/main/java/org/si4t/cloudsearch/CloudSearchIndexer.java:177-183 | a stage runs only when every stage before it raised nothing, and the first failure ends the commit |
| Commit.AddStageFailed | src/main/java/org/si4t/cloudsearch/CloudSearchIndexer.java:179-184 | when the add stage raises, the calls made are just its own, and its exception is the commit's |
| Commit.RemovalStageFailed | src/main/java/org/si4t/cloudsearch/CloudSearchIndexer.java:179-184 | when the removal stage raises, the update stage never runs |
| Commit.UpdateStageRan | src/main/java/org/si4t/cloudsearch/CloudSearchIndexer.java:179-184 | when neither earlier stage raises, the update stage runs, and its outcome is the commit's |
| Indexer.GroupAddDocuments | src/main/java/org/si4t/cloudsearch/CloudSearchIndexer.java:242-257 | the grouping loop, with its counter and its current batch, builds exactly `Batches` of the items' `add` operations |
| Indexer.GroupDeleteDocuments | src/main/java/org/si4t/cloudsearch/CloudSearchIndexer.java:268-285 | the removal grouping loop, including its extra "no batch open yet" test, builds exactly `Batches` of the items' `delete` operations |
| Indexer.CloudSearchIndexer.AddItemToIndex | src/main/java/org/si4t/cloudsearch/CloudSearchIndexer.java:105-129 | the add registry becomes `StageAdd` of the old one; the other registries and the dispatcher are untouched |
| Indexer.CloudSearchIndexer.RemoveItemFromIndex | src/main/java/org/si4t/cloudsearch/CloudSearchIndexer.java:131-145 | the removal registry becomes `StageLastWrite` of the old one; the other registries and the dispatcher are untouched |
| Indexer.CloudSearchIndexer.UpdateItemInIndex | src/main/java/org/si4t/cloudsearch/CloudSearchIndexer.java:147-161 | the update registry becomes `StageLastWrite` of the old one; the other registries and the dispatcher are untouched |
| Indexer.CloudSearchIndexer.Commit | src/main/java/org/si4t/cloudsearch/CloudSearchIndexer.java:171-214 | a filtered publication changes nothing, dispatches nothing and throws nothing. Otherwise the calls made are those of the commit plan over the registries, up to and including the first failing one. The result is that failure translated, or nothing. All four registries end empty. |
| Indexer.CloudSearchIndexer.CommitStages | src/main/java/org/si4t/cloudsearch/CloudSearchIndexer.java:177-183 | the try block: the calls made are the commit plan's, each registry visited in some order covering its keys, up to the first failure, which is returned |
| Indexer.CloudSearchIndexer.CommitAddContentToCloudSearch | src/main/java/org/si4t/cloudsearch/CloudSearchIndexer.java:238-262 | the calls made are the add plan of the registry's entries in some visiting order, up to the first failure; an empty registry dispatches nothing |
| Indexer.CloudSearchIndexer.RemoveItemsFromCloudSearch | src/main/java/org/si4t/cloudsearch/CloudSearchIndexer.java:264-290 | the calls made are the removal plan of the registry's entries in some visiting order, up to the first failure; an empty registry dispatches nothing |
| Indexer.CloudSearchIndexer.ProcessItemUpdates | src/main/java/org/si4t/cloudsearch/CloudSearchIndexer.java:374-377 | updates go through the add path, over the update registry |
| Indexer.CloudSearchIndexer.DispatchAddContentToCloudSearch | src/main/java/org/si4t/cloudsearch/CloudSearchIndexer.java:316-343 | each non-empty batch goes to the add entry point as a PERSIST package, in order, and the loop stops at the first exception |
| Indexer.CloudSearchIndexer.DispatchRemoveItemsFromCloudSearch | src/main/java/org/si4t/cloudsearch/CloudSearchIndexer.java:345-372 | each non-empty batch goes to the removal entry point as a PERSIST package, in order, and the loop stops at the first exception |
| Indexer.CloudSearchIndexer.ClearRegisters | src/main/java/org/si4t/cloudsearch/CloudSearchIndexer.java:385-391 | all four registries are empty |

## Left out

- `configure` (lines 53-103) reads the foreign configuration API. The
  constructor takes the endpoint, authentication mode, credentials, batch size
  and active publication ids directly. It requires a positive batch size,
  since a batch size of 0 makes line 250 divide by zero, an error nothing
  catches. Negative batch sizes are excluded too: line 99 parses them, and
  because Java's `%` keeps the sign of the dividend, the test at line 250 then
  cuts batches of |B| and raises nothing; the model does not cover that input.
- `destroy`, `addBinaryToIndex` and `removeBinaryFromIndex` do nothing, and
  `commitAddBinariesToCloudSearch` is commented out. Only the binary registry,
  which is cleared, is kept.
- The dispatcher singleton is network I/O through an SDK that is not part of
  this model. It is replaced by an oracle that records calls and answers from a
  supplied outcome function. The status string a call returns is only logged
  and is not modelled.
- Logging, the `batchIndex` log counter and `logException` have no effect on
  state and are not modelled.
- Concurrency is not modelled. The registries' thread safety and concurrent
  staging or commit are outside a sequential model.
- Java `null` ids and credentials are modelled as the empty string.
  `StringIsNullOrEmpty` treats `null` and `""` the same, so the staging
  behaviour is unchanged.
- Runtime exceptions other than the five caught kinds (for example a `null`
  item) are not modelled. They would propagate out of `commit` after the
  `finally` block.
- `DocumentBatch` objects are Java lists mutated in place after being added to
  `groupedDocuments`. The model builds the same sequence of batches by value,
  so aliasing is not represented.
- The staging calls (lines 127, 144 and 160) store the caller's item object by
  reference, so a later change to that object would show in the registry. The
  model stores each staged item as a value, so such later changes are not
  represented.
- The request and package are opaque wrappers in the source. The model keeps
  their fields only so that the contracts can state that every call carries the
  configured request and the PERSIST action.
- The source has no separate method for the body of `commit`'s try block. The
  model splits it out as `CommitStages` so that each method's proof stays
  small. Its behaviour is the source's.
