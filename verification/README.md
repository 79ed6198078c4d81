# Verification of the ingestion service's write path

The service keeps two stores in step without a shared transaction: `Document` rows in Postgres and points in one
Qdrant collection per bot. `UploadPipeline.execute` and `DeletePipeline.execute` change both, call by call, under a
polled advisory lock per (tenant, bot, document), and any call may fail. This project models those pipelines, the
chunker, the identifier codecs, the retry decorator, the collection operations, the lock and the hybrid search, and
proves what they guarantee.

`dafny verify dfyconfig.toml` checks everything.

## How the model is laid out

- `Text`, `Utf8`, `Seqs`, `Results`: whitespace, UTF-8 (RFC 3629), flat maps, `Option` and `Result`.
- `Naming`, `ChunkIds`, `ContentHash`: slugs, collection names, lock keys, chunk ids, the hashed byte stream.
- `Chunker`: truncation and the greedy merge, for an arbitrary tokenizer and splitter.
- `Stores`: rows, points, what one upload writes, and every store call as a function on both stores.
- `Effects`: what one request may do to its document, for every way it can end. This relation is the specification
  that the interleaved protocol and the pipelines share.
- `Protocol`: the state machine. Any number of processes, each with a program point; every store call is one atomic
  step; any process may be next; calls fail before or after their effect, and processes die.
- `Guarantees`, `Versions`, `Uniqueness`, `Ownership`, `Sharing`, `OwnHistory`, `Conservation`: theorems about every run.
  `Races` and `Limits`: their converses, and runs that show where they stop.
- `Serial`: a request served alone, as the protocol's own steps taken to their end. `Recovery`, `Dedup`: what one call
  leaves behind in any state, and what any sequence of calls keeps. `Answers`, `Items`: all that a call without failures
  answers and changes, and what an upload stores and hashes, written out without the functions that compute it.
- `Pipeline`: the two pipelines as imperative methods of a `Service` whose fields are the stores and the held locks.
  Each is proved to compute exactly what `Serial` says, so all theorems apply to it.
- `Retry`, `Collections`, `Locks`, `Ranking`, `Search`: the decorator, the Qdrant operations under nested retries with
  other processes at work, the polling lock, and the search. `Refinement` ties the Qdrant operations to the protocol's
  atomic steps.

## Fault models

Every theorem names the one that it holds for.

- `Arbitrary`: any call may fail before or after its effect, or the process may die there.
- `Clean`: the same, but a failed upsert has no effect and an upload's row save is answered once it is reached: the row
  is saved, or refused if the database does not accept it (`Stores.Storable`).
- `Lossless`: moreover nothing fails between the removal of points and the row save that accounts for it.

Agreement of the stores is lost under `Arbitrary` (`Limits.LostSaveBreaksAgreement`), and without any fault by an upload
whose row the database refuses (`Limits.RefusedRowBreaksAgreement`); `Effects.AgreementLostIff` has the exact condition.

The lock covers (tenant, bot, document) and the row key is the document alone, so two bots can be at one document at
once. The collision check protects the row and the agreement of the stores as long as no two of them are between reading
the row and saving it (`Sharing.NeverClash`), and only so long (`Races.ClashMovesRow`). The versions a reader sees and
the uniqueness of content need no such condition.

## Assumptions

- UUIDv5 is collision-free where stated (`CollisionFree`). SHA-256, the tokenizer and the splitter are arbitrary
  functions, and so, in the protocol, is the lock key: its collisions only make requests wait for each other.
- The database session that holds a lock lives as long as its request, and its end releases the lock.
- "Any stores" in a theorem means any rows and any points that sit under the UUIDv5 of their own chunk ids, which is
  how every upload writes them (`AllKeyed`).
- A Qdrant upsert and a Qdrant delete by filter are atomic. `get_or_create` and `update_or_create` are one step each.
- `.first()` on the content-match query may name any of the matches.
- `int(len * 0.95)` is floor(19·len/20) and `int(len * 600 / n)` is the integer quotient; doubles give these values for
  every length a string can have.
- The database refuses a row for a content hash over 80 characters, a source type over 20 or a file name over 500 (spaces
  beyond the limit are cut off), or a body whose `doc_id` is given: apps/documents/serializers.py:29 leaves a UUID there,
  and apps/documents/models.py:39 names no encoder for it (`Stores.Encodable`).
- Strings are sequences of Unicode scalar values, so that encoding them as UTF-8 cannot fail.

## Where the code and its documentation differ

The model follows the code.

- apps/ingestion/pipeline.py:3-4 lists the delete before chunking and embedding; the code deletes after both, so a
  replace that cannot be chunked or embedded leaves the old points (`Effects.UploadEffect`).
- apps/ingestion/chunker.py:54-57 says that chunks are contained in the content; that holds for chunks that nothing was
  merged into (`Chunker.UnmergedContained`), and a merged one can occur nowhere in it (`Chunker.MergedNotContained`).
- apps/ingestion/chunker.py:134 speaks of a binary search; the code cuts 5 percent at a time.
- apps/qdrant_core/collection.py:101-102 promises `QdrantOperationError` for an existing collection; the function lets
  the server's 409 through, and `get_or_create_collection` relies on that.
- apps/qdrant_core/collection.py:128-129 promises an error for a schema that differs from the expected one; the
  comparison looks at six parts only (`Collections.FittingIsNotExpected`).
- apps/qdrant_core/collection.py:191 promises the number of points deleted; when an attempt took effect and its answer
  was lost, the retry returns 0 (`Collections.Client.DeleteByDocId`).
- The repository's README.md:149 and README.md:526 promise deduplication across documents; it holds as long as no two
  uploads of one content are at once between query and save (`Uniqueness.OneActiveRowUnlessRivals`), and can fail for
  any two that are (`Races.RivalsDefeatDedup`).
- scripts/load_test.py:17 promises that the collection's count equals the sum of `chunks_created`; the script's sum leaves
  out its own warm-up upload (`Conservation.LoadTestMiscounts`).
- apps/documents/serializers.py:31-33 limits neither the file name nor the content hash, and apps/documents/models.py:32-34
  does; the row is saved after the upsert, so an upload that exceeds the limits leaves points without a row.
- tests/test_upload.py:88-102 expects an upload that names its document to be answered 201; by the code its row cannot be
  saved (`Recovery.NamedIsNeverStored`).
- apps/qdrant_core/collection.py:126 promises an idempotent creation; apps/qdrant_core/collection.py:142 catches the
  conflict in its HTTP form only, and config/settings.py:16 prefers gRPC, over which a lost race comes out as an error.
- apps/ingestion/pipeline.py:92-94 counts on re-uploads hitting the same points; a create after a lost row save does
  not clear the points that its own chunks do not hit (`Recovery.CreateRecoversIff` says exactly when that shows).

## Model

| member | source | states |
|---|---|---|
| Guarantees.HistoryIsSerial | apps/ingestion/pipeline.py:109-329 | Any faults, any interleaving, any lock-key function, each document under one bot: the critical sections of a document form a serial history, each with its request's specified effect, and at rest the document looks as that history left it. |
| Guarantees.OneWorker | apps/ingestion/locks.py:31-68 | Any run, any bots: at most one process at a time is inside the critical section of a document of a bot, and it holds the lock. |
| Guarantees.OnlyTheHolderWrites | apps/ingestion/pipeline.py:163-164 | Any run, any bots: a step that changes a document's points, or its row beyond `last_refreshed_at`, is taken under that document's lock; so the unlocked refresh of a content match never undoes a concurrent delete or replace. |
| OwnHistory.AgreementAnyBots | apps/ingestion/pipeline.py:113-307 | Clean faults, any interleaving, any bots, no two of which are between reading a document's row and saving it at once, rows that the database accepts: whenever none of a registered bot's processes is at work on a document, its own row and points agree. No row, another bot's or a deleted one means no points, an active one means none or exactly `chunk_count`, all with the row's hash. |
| OwnHistory.OwnHistoryIsSerial | apps/ingestion/pipeline.py:109-399 | Under the same condition and any faults, what a registered bot sees of a document has a serial history of its own critical sections, each with its specified effect, a collision being with a row that is not its own. |
| Sharing.RowsKeepTheirBots | apps/ingestion/pipeline.py:113-123 | Under the same condition, any faults, any interleaving, any bots: no step takes a row away or gives it to another bot. |
| Races.ClashMovesRow | apps/ingestion/pipeline.py:113-307 | The converse: wherever a run has two bots' acceptable uploads of one document between reading the row and saving it, with no duplicate to stop them, it can go on so that the row is one bot's and then the other's. |
| Guarantees.AgreementAtRest | apps/ingestion/pipeline.py:271-307 | The two stores agree on a document at rest when each document is requested under one bot, from any stores, owned or not. |
| Versions.NoVersionMixing | apps/ingestion/pipeline.py:231-288 | Clean faults, any interleaving, any bots requesting any document, rows that the database accepts: in every single state, inside the delete-then-upsert window too, all points of a document in a registered bot's collection carry one content hash. |
| Versions.ReadersSeeOldNoneOrNew | apps/ingestion/pipeline.py:271-288 | In every such state the points of a document at work are those at the acquisition of its lock, none, or exactly the upload's own. |
| Uniqueness.OneActiveRowUnlessRivals | apps/ingestion/pipeline.py:152-307 | Arbitrary faults, any interleaving: if no two uploads of one content by one bot under different documents are at once between content-match query and row save, at most one active row carries a content. |
| Races.RivalsDefeatDedup | apps/ingestion/pipeline.py:152-307 | The converse, under every fault model and from any stores: wherever a run has two such uploads that embedder and database accept, it can go on so that both are active. |
| Effects.AgreementLostIff | apps/ingestion/pipeline.py:280-307 | Whatever fails, a request takes an agreeing document to an agreeing one with exactly one exception: its upsert took effect and its row save did not. |
| Effects.EffectAgrees | apps/documents/models.py:31-41 | Under clean faults that exception is a row that the database refuses; an upload past its upsert leaves agreement if and only if its row is storable. |
| Effects.SavedAgrees | apps/ingestion/pipeline.py:271-307 | A completed upload leaves only its own points, as many as the row says, all with its hash, whatever a replaced row's points were. |
| Protocol.RunKeepsInv | apps/ingestion/pipeline.py:99-399 | The invariant of the state machine (locks held, progress of every holder, serial history of every document) holds in every state of every run under each fault model. |
| Protocol.FaultsMean | apps/ingestion/pipeline.py:271-307 | What each fault model lets happen at each call, and that a failed call leaves its effect exactly if it took effect. |
| Protocol.StepOwn | apps/ingestion/pipeline.py:110-329 | One step of a lock holder takes its own document exactly one stage further. |
| Protocol.StepElsewhere | apps/ingestion/pipeline.py:271-283 | One step leaves every other document's row and points alone, a content match's `last_refreshed_at` aside. |
| Ownership.CollectionsExclusive | apps/tenants/models.py:30 | Arbitrary faults, any interleaving: all points of a collection carry one tenant and bot, although the collection name is not injective. |
| Ownership.StepsStayHome | apps/ingestion/pipeline.py:71-80 | Arbitrary faults: every point that a step adds, changes or removes belongs to the bot of the request that takes it. |
| Ownership.RowsKeepShape | apps/ingestion/pipeline.py:290-307 | Arbitrary faults, any interleaving: no row disappears, and every row is active with 1 to 5000 chunks or deleted with none. |
| Ownership.RunOwned | apps/tenants/models.py:42-46 | The ownership invariant: bots registered under their unique names, rows and points under registered bots, in every reachable state. |
| Conservation.PointsEqualRows | apps/ingestion/pipeline.py:280-307 | Any bots without clashes: at rest after lossless runs in which the database accepts the rows, a bot's collection holds exactly the sum of `chunk_count` over its active rows. |
| Conservation.PointsEqualResponses | apps/ingestion/pipeline.py:280-329 | After fresh uploads only, by any bots, a bot's collection holds exactly the sum of `chunks_created` over all "created" responses to it. |
| Conservation.LoadTestMiscounts | scripts/load_test.py:128-211 | The load test leaves its warm-up's response out of the sum, so with no chunk lost the collection still exceeds the sum by the warm-up's chunks, and these are more than none. |
| Conservation.CountByDoc | scripts/load_test.py:205-206 | A collection's size is the sum of its documents' point counts. |
| Limits.LostSaveBreaksAgreement | apps/ingestion/pipeline.py:280-307 | Under arbitrary faults agreement is false: every first upload can end, with nobody at work, with points and no row. |
| Limits.RefusedRowBreaksAgreement | apps/documents/models.py:31-41 | Without any fault, every first upload whose row the database does not accept ends that way. |
| Limits.LongHashIsRefused | apps/documents/models.py:34 | A client's content hash of 81 characters makes such a row, whatever is uploaded with it. |
| Limits.RaceFlipsRow | apps/documents/models.py:21 | Clashes exist, and cost agreement: two bots that create the same document at once both succeed; the row ends with one, the other's points stay. |
| Limits.RaceDefeatsDedup | apps/ingestion/pipeline.py:152-162 | Such rivals exist: two first uploads of equal content under different ids can meet between query and save, and both end active. |
| Serial.PerformIsRun | apps/ingestion/pipeline.py:109-329 | What a request served alone computes is the end of a run of the protocol with one process, so every theorem about runs applies to it. |
| Recovery.CallHasEffect | apps/ingestion/pipeline.py:109-399 | From any stores, a call under any fault model has its request's specified effect on its document. |
| Recovery.CallFrame | apps/qdrant_core/collection.py:202-204 | From any stores, with any failures, a call changes no other document's row or points, save a matched duplicate's `last_refreshed_at`, and no other bot's collection. |
| Recovery.ReplaceRecovers | apps/ingestion/pipeline.py:271-307 | Whatever earlier failures left, an upload that answers "replaced" leaves exactly its own points, each with its payload, and a row that accounts for them. |
| Recovery.DeleteRecovers | apps/ingestion/pipeline.py:362-380 | Whatever earlier failures left, a successful delete leaves no points and a deleted row with chunk count 0. |
| Recovery.CreateRecoversIff | apps/ingestion/pipeline.py:280-307 | A create leaves exactly its own points if and only if each point that the document already had is overwritten by one of them. |
| Recovery.CallLosesAgreementIff | apps/ingestion/pipeline.py:280-307 | From an agreeing document, under any failures, a call loses agreement exactly if its upsert took effect and its row save did not. |
| Recovery.NamedIsNeverStored | apps/documents/models.py:39 | An upload whose body names its document is never answered "created" or "replaced", nor any other whose row the database does not accept. |
| Recovery.CallAgreesIff | apps/ingestion/pipeline.py:280-307 | From an agreeing document a call without lost upserts and row saves ends in agreement if and only if the database did not refuse its row; past the upsert, if and only if the row is storable, which the caller can check. |
| Recovery.RowKeepsItsBot | apps/ingestion/pipeline.py:113-123 | In serial runs a row stays with its bot, and a request about another bot's document is refused and changes neither row nor points. |
| Recovery.NeverRefusedByEmbedder | apps/ingestion/pipeline.py:221-229 | If no text takes more than 600 tokens a character, no upload hands the embedder a blank text. |
| Recovery.TurnedAwayIff | apps/ingestion/locks.py:31-54 | With the service's own lock key, a request is turned away for its names, nothing changed, exactly if a slug is malformed or the document id is empty, and as busy exactly if another session holds its lock throughout. |
| Answers.UploadIsAnswered | apps/ingestion/pipeline.py:110-329 | Every answer that an upload without failures can get, exactly when it gets it, and all that it then changes in both stores, written out: collection name, row fields, counts, limits, which points stay and which are written. |
| Answers.DeleteIsAnswered | apps/ingestion/pipeline.py:349-380 | The same of a delete. |
| Answers.DeleteCounts | apps/ingestion/pipeline.py:360-399 | Whatever fails around it, a delete that is answered with a count tells how many points the document had, unless its removal was answered only on a retry, and then 0; and whether the row was deleted already. |
| Items.UploadStoresItems | apps/ingestion/pipeline.py:198-269 | Every item keeps its own text: after a replace, or a create of a document without points, the document's points are exactly those of the chunks of each item's own content, every payload field included. |
| Items.ItemsApart | apps/ingestion/pipeline.py:200-207 | The points of one item do not depend on the other items. |
| Items.HashOfItems | apps/ingestion/pipeline.py:125-127 | The hash is the client's, stripped, unless it is missing or blank; then that of all items' contents, each ended by 0x1f. |
| Items.SameHashIff | apps/ingestion/pipeline.py:83-88 | Two bodies without a client's hash, on whose streams SHA-256 does not collide, have one hash exactly if cutting their items' contents at U+001F gives one list. |
| Items.SameHashIffSameItems | apps/ingestion/pipeline.py:83-88 | For contents free of U+001F: exactly if they agree item by item. |
| Recovery.ContendIff | apps/qdrant_core/naming.py:27-29 | Two requests contend for one lock exactly if the first eight bytes of their digests agree. |
| Dedup.OneActiveRow | apps/ingestion/pipeline.py:152-162 | After any serial history with any failures, at most one active row per tenant, bot and content hash: calls served one after the other have no rivals. |
| Dedup.RepeatIsNoChange | apps/ingestion/pipeline.py:129-185 | Repeating a successful upload, under the same id, a fresh one or any of the bot's own, answers "no_change" with the same document and counts, and moves that row's `last_refreshed_at` and nothing else. |
| Dedup.UploadAgain | apps/ingestion/pipeline.py:113-185 | While a document carries a content, every calm upload of it yields that document, and exactly an id of another bot is refused instead. |
| Dedup.CallSound | apps/ingestion/pipeline.py:290-307 | A call keeps contents unique, and the document that a successful upload reports is active with that content and these counts. |
| Pipeline.Service.Upload | apps/ingestion/pipeline.py:101-329 | The imperative upload computes exactly `Serial.Serve` of its request on the stores, the row that the database refuses included, and holds the locks it held before, on every exit. |
| Pipeline.Service.Delete | apps/ingestion/pipeline.py:341-399 | The imperative delete computes exactly `Serial.Serve` of its request, and holds the locks it held before. |
| Pipeline.Flatten | apps/ingestion/pipeline.py:198-207 | The nested loop lists the chunks of all items, item by item. |
| Pipeline.BuildPoints | apps/ingestion/pipeline.py:238-269 | One point per chunk, in order, each under the UUIDv5 of its own chunk id. |
| Pipeline.PiecesArePoints | apps/ingestion/pipeline.py:238-269 | The loop's chunk list and the specified points correspond one to one. |
| Pipeline.NoBlankText | apps/ingestion/embedder.py:100-104 | The embedder accepts a list exactly if no text is blank. |
| Stores.ContentIdentified | apps/ingestion/payload.py:31-65 | The points of an upload carry its bot, document and hash under their own chunk ids, and no two share an id. |
| Stores.PlanDistinct | apps/ingestion/pipeline.py:91-96 | Chunk indices that count up per item give pairwise different point ids. |
| Stores.UpsertFresh | apps/ingestion/pipeline.py:280-283 | Distinct points into an empty document are stored one for one, so `chunk_count` is what is stored. |
| Stores.UpsertLocal | apps/ingestion/pipeline.py:280-283 | An upsert acts on its own document's points only, even in a shared collection. |
| Naming.CollisionShape | apps/qdrant_core/naming.py:7-14 | Exactly when two slug pairs share a collection name. |
| Naming.SharedNameContainsSeparator | apps/qdrant_core/naming.py:7-14 | If they do, the longer tenant and the longer bot both contain `__b_`. |
| Naming.StraddleImpossible | apps/tenants/validators.py:5 | The two separators cannot overlap, because a bot slug starts with an alphanumeric. |
| Naming.NameInjective | apps/qdrant_core/naming.py:7-14 | The name is injective wherever tenants, or bots, avoid `__b_`. |
| Naming.NameCollision | apps/qdrant_core/naming.py:14 | Two bots that share a name, and that name. |
| Naming.CollectionName | apps/qdrant_core/naming.py:7-14 | Succeeds exactly on slugs, and fits the 100-character column. |
| Naming.SlugPattern | apps/tenants/validators.py:5 | A slug is a lower-case letter or digit and then 2 to 39 of these and underscores. |
| Naming.SharedLockKey | apps/qdrant_core/naming.py:27-29 | The two integers are equal for two documents exactly if the first eight bytes of their digests are. |
| Naming.LockTextInjective | apps/qdrant_core/naming.py:27 | What is hashed for the lock identifies tenant, bot and document. |
| ChunkIds.ChunkIdRoundTrip | apps/ingestion/payload.py:31-32 | Parsing a chunk id gives back document, item and chunk, for every document id. |
| ChunkIds.ChunkIdInjective | apps/ingestion/payload.py:31-32 | Different documents, items or chunks have different chunk ids. |
| ContentHash.Preimage | apps/ingestion/pipeline.py:83-88 | The loop feeds the hash the UTF-8 of all contents, each ended by 0x1f. |
| ContentHash.SplitRecovers | apps/ingestion/pipeline.py:83-88 | Splitting the stream at 0x1f recovers the contents if and only if none contains U+001F. |
| ContentHash.PreimageExact | apps/ingestion/pipeline.py:83-88 | Exactly which content lists feed the hash the same bytes. |
| ContentHash.PreimageInjective | apps/ingestion/pipeline.py:83-88 | Lists free of U+001F are told apart by the hashed bytes. |
| ContentHash.PreimageCollision | apps/ingestion/pipeline.py:86-87 | With U+001F inside a content, different uploads feed the hash the same bytes. |
| ContentHash.HexInjective | apps/ingestion/pipeline.py:88 | Printing a digest loses nothing. |
| Utf8.EncodeInjective | apps/ingestion/pipeline.py:86 | UTF-8 loses nothing. |
| Chunker.ChunkItem | apps/ingestion/chunker.py:46-130 | The imperative chunker computes the specified chunks. |
| Chunker.MergePieces | apps/ingestion/chunker.py:78-108 | The merge loop, overwriting the last chunk or appending, computes the chunks of the greedy groups. |
| Chunker.GroupsGreedy | apps/ingestion/chunker.py:86-97 | The groups partition the pieces in order, only pieces under 50 characters are merged into one, and one stands alone only where merging would exceed 600 tokens. |
| Chunker.GreedyUnique | apps/ingestion/chunker.py:86-97 | There is no other grouping with these properties. |
| Chunker.ChunkTexts | apps/ingestion/chunker.py:75-119 | The chunk texts of an item, of which no function of the chunker is part: of the split pieces those survive, in order, that are not blank and of which truncation leaves something; the texts are the space-joins of their greedy groups, or, if none survives, the truncated content. |
| Chunker.GreedyMeans | apps/ingestion/chunker.py:86-97 | What greedy means, in numbers: under 50 characters, at most 600 tokens. |
| Chunker.SplitterArguments | apps/ingestion/chunker.py:19-29 | The chunk size and overlap in characters that the splitter is given for each source type. |
| Chunker.ChunksAreGreedyGroups | apps/ingestion/chunker.py:78-108 | When a piece survives truncation, the chunk texts are the space-joins of that grouping of the surviving pieces. |
| Chunker.UnmergedContained | apps/ingestion/chunker.py:54-57 | If the splitter returns parts of the content, a chunk that no piece was merged into is a part of the content. |
| Chunker.MergedNotContained | apps/ingestion/chunker.py:86-97 | A concrete splitter output whose merged chunk occurs nowhere in the content. |
| Chunker.ChunksDescribed | apps/ingestion/chunker.py:91-118 | Every chunk has its position as index, its length as `char_count`, its token count, and that is at most 600. |
| Chunker.ChunksVisible | apps/ingestion/embedder.py:100-104 | With at most 600 tokens a character no chunk is blank. |
| Chunker.Truncate | apps/ingestion/chunker.py:133-144 | The shrink loop terminates for every tokenizer and computes the specified truncation. |
| Chunker.TruncatedFits | apps/ingestion/chunker.py:133-144 | Truncation yields a prefix of at most 600 tokens and leaves a text that fits alone. |
| Chunker.TruncatedKeeps | apps/ingestion/chunker.py:138-144 | How much it keeps: floor(600·length/tokens) characters but for whitespace at their end, and as long as they take more than 600 tokens, 95 percent of them, again but for whitespace. |
| Chunker.TruncatesOnce | apps/ingestion/chunker.py:138-144 | That determines the result. |
| Chunker.FirstCutKept | apps/ingestion/chunker.py:140-141 | If the first cut fits, the result is that cut, and without whitespace in the text it has floor(600·length/tokens) characters. |
| Chunker.TruncatedVisible | apps/ingestion/chunker.py:140-143 | Truncation of a text with a visible, fitting start is empty if and only if it has more than 600 tokens a character. |
| Chunker.ShrinksPrefix | apps/ingestion/chunker.py:142-143 | After j cuts at most 0.95^j of the length is left. |
| Chunker.ShrinkCountLeast | apps/ingestion/chunker.py:142-143 | The loop stops at the first cut that fits. |
| Retry.WithRetry | apps/qdrant_core/client.py:69-108 | Delivers the first success or final failure after exactly the calls up to it; gives up after exactly `attempts` transient ones; sleeps between calls only. |
| Retry.WhatIsRetried | apps/qdrant_core/client.py:48-66 | Which failures are retried, one by one, and that what the decorator raises when it gives up is not. |
| Retry.SleptBounds | apps/qdrant_core/client.py:94-104 | The total sleep is within a fifth of the sum without jitter. |
| Retry.GeometricSeries | apps/qdrant_core/client.py:104 | That sum is initial·(backoff^m − 1)/(backoff − 1). |
| Collections.Client.GetOrCreate | apps/qdrant_core/collection.py:124-148 | Over HTTP or gRPC the nested decorators make at most three create calls, none if the collection exists; success means a fitting schema, a mismatch a schema that does not fit; nothing existing is changed; a 409 never comes out, and nothing that does is retried further out; it fails otherwise only if a call did, and gives up only after three attempts. |
| Collections.Client.CreateForBot | apps/qdrant_core/collection.py:97-121 | One to three create calls; success means the schema and all eight indexes; a 409 means that the collection exists, and comes only over HTTP. |
| Collections.IndexesListed | apps/qdrant_core/collection.py:55-64 | The eight payload indexes by name. |
| Collections.Client.DeleteByDocId | apps/qdrant_core/collection.py:187-213 | The document loses all its points or none; success means all; the count is theirs unless an earlier attempt took effect and its answer was lost, then 0; no other document or collection is touched; it fails only if a call did, and gives up only after three attempts. |
| Refinement.RemovingRefined | apps/ingestion/pipeline.py:362-368 | What that promises is the protocol's atomic removal step of a delete, under one of its faults. |
| Refinement.ClearingRefined | apps/ingestion/pipeline.py:271-278 | The same for the removal in a replace. |
| Refinement.CollectingRefined | apps/ingestion/pipeline.py:187-194 | What `GetOrCreate` promises is the protocol's atomic collection step, and leaves the collection there for the upsert. |
| Collections.CompareSchema | apps/qdrant_core/collection.py:151-184 | The diff holds exactly the justified complaints and is empty exactly for a fitting schema. |
| Collections.FittingIsNotExpected | apps/qdrant_core/collection.py:151-184 | A schema that passes the comparison without being the expected one. |
| Locks.Poll | apps/ingestion/locks.py:31-54 | Tries at least once and at most ceil(timeout/interval) + 1 times; the deciding try is the last. |
| Locks.DecidesMeans | apps/ingestion/locks.py:34-54 | Which that is: the first that is granted or fails, or that is refused at the deadline or after it, all before having been refused earlier. |
| Locks.Session.UploadLock | apps/ingestion/locks.py:56-68 | On every exit, also when a statement of the code inside raises, the session holds what it held before and unlocks equal acquisitions; the first exception comes out. |
| Locks.DeadlinePasses | apps/ingestion/locks.py:32-39 | With a monotone clock and sleeps of one interval the deadline has passed by that many polls. |
| Ranking.TopScores | apps/qdrant_core/search.py:158-168 | Two rankings of the same candidates have equal scores in equal places, however ties are broken. |
| Ranking.TopUnique | apps/qdrant_core/search.py:158-168 | Without ties the ranking is determined. |
| Search.BuildFilter | apps/qdrant_core/search.py:100-115 | Selects exactly the active points of the given source types; any tag or category excludes everything, because payloads store neither. |
| Search.DuplicationIsWeight | apps/qdrant_core/search.py:118-143 | Plain reciprocal rank fusion over w dense and v sparse copies is w/(k + rank) + v/(k + rank). |
| Search.FusionIsWeighted | apps/qdrant_core/search.py:80-88 | The fusion node ranks the candidates by that weighted score. |
| Search.FusionIsLossless | apps/qdrant_core/search.py:45-51 | The fusion limit never cuts a candidate. |
| Search.AnswerIsTop | apps/qdrant_core/search.py:80-97 | The answer is the top k by ColBERT score of all eligible candidates, as if there were no fusion. |
| Search.EligibleMeans | apps/qdrant_core/search.py:47-51 | Eligible is what one of the two lists of 50 names, the filter lets through and scores 0.0 or more. |
| Search.ShareMeans | apps/qdrant_core/search.py:8-11 | What a list adds to an id: one over k plus its rank there, or nothing. |
| Search.ServiceWeights | apps/qdrant_core/search.py:50-51 | The service's weights: three to one. |
| Search.UploadsAreWanted | apps/ingestion/payload.py:47-65 | Every uploaded point passes the filter of a search, unless that asks for other source types, or for tags or a category. |
| Search.WeightsAreIrrelevant | apps/qdrant_core/search.py:50-51 | Other positive weights and other tie-breaking give the same scores in the same places. |
| Search.Search | apps/qdrant_core/search.py:58-97 | Each error exactly when its cause is the first, an answer exactly when there is none. Every hit scores 0.0 or more, best first; each wanted point that one of the lists names and that scores 0.0 or more is a hit, or else there are top_k hits and none scores less. |
| Search.ExecuteQuery | apps/qdrant_core/search.py:146-179 | Under the retry decorator: an answer exactly if one of three attempts is answered with only transient failures before it, and then those hits, each with its payload and score. |
| Search.HitsAreOneBots | apps/qdrant_core/naming.py:7-14 | All hits are of the bot registered under the collection name, hence the caller's own exactly if the caller is that bot. |

## Left out

- Guarantees.HistoryIsSerial: speaks of runs in which each document is requested under one bot; with several bots the history is each bot's own, without clashes (`OwnHistory.OwnHistoryIsSerial`).
- Guarantees.AgreementAtRest: likewise; with several bots see `OwnHistory.AgreementAnyBots`, which in turn starts from owned stores.
- HTTP views, serializers, gRPC handler and server, admin, health checks, metrics, logging: request plumbing.
- BGE-M3, its tokenizer and the text splitter: unseen libraries, modelled as arbitrary functions.
- Qdrant's approximate neighbour search: arbitrary deterministic lists that satisfy the filter and the limit.
- Vectors of points, `uploaded_at` and the wall-clock value of `last_refreshed_at` (a counter here).
- Deletion of tenants and bots, `drop_collection`, migrations, Celery and deployment: outside the two pipelines.
- Liveness: whether a polling request ever gets its lock depends on the scheduler.
- Pipeline.Service.Upload: the embeddings themselves are not computed, and all causes of a failed call share one outcome, since the pipelines leave the same state behind; a lock held throughout the polling is `Busy`.
- Protocol.RunKeepsInv: two-store agreement is not claimed for arbitrary faults, nor deduplication for rival uploads; `Limits` shows that the code does not provide either.
- Collections.Client.GetOrCreate: does not promise the payload indexes, because a creation whose index calls failed is taken over on the retry without them; the texts of the diff are not modelled.
- Search.Search: the duplicated dense prefetches are taken to return one and the same list.
- Locks.Session.UploadLock: the code inside is a list of statements that pass or raise; a failing unlock statement is not modelled; the end of the session releases the lock then.
