# document-vector-pipeline, modelled in Dafny

document-vector-pipeline is a pair of Azure Functions, one for Azure SQL and one for Azure Cosmos DB.
When a document lands in a blob container, the function does the following:

1. It turns the document into numbered text chunks.
2. It groups the chunks into batches of at most ten.
3. It asks an embedding service for one embedding per chunk. Rate-limited (429) and unauthorised (401)
   calls are retried every 10 seconds, up to 100 calls.
4. It stores the chunks with their embeddings.
   - The SQL variant inserts one row per chunk into a bracket-sanitised `[schema].[table]`.
   - The Cosmos DB variant upserts each batch.

This project models the logic between the blob I/O and the external services. The services become
function-typed parameters.

- `Partition` defines the fixed-size grouping once (`ChunkBy`, the behaviour of `Enumerable.Chunk`). It proves
  that the grouping is the unique order-preserving partition into non-empty groups of at most `n` elements,
  where only the last group may be short, and that the number of groups is the ceiling of `|xs| / n`.
- `Chunker` models `DocumentChunker`:
  - the priority chain that picks the source units (lines, paragraphs, 41-word units, whole content);
  - the 41-word regrouping loop `SplitWords`, proved equal to "groups of 41 words joined by single spaces";
  - the numbering of the splitter's pieces 0, 1, 2, …
- `EmbeddingRetry` models the retry loop, which is the same in both variants.
  - The provider is a total function of the request and the attempt index.
  - The loop records a trace of `Call` and `Delay` events.
  - The loop is proved equal to a reference run (`ExpectedRun`) built from the first non-transient attempt.
  - From the reference run the model derives the call and delay counts, the retry classification, the
    100-call ceiling, and the unreachability of the in-loop "max retry attempts" branch.
- `SqlNames` models `string.Trim` and `SantizeDatabaseObjectName`.
- `SqlPipeline` models the SQL variant:
  - the accumulator loop that builds the batches;
  - the row loop that maps chunks and embeddings to `Document` records, including the out-of-range failure
    when fewer embeddings than chunks come back;
  - the class that holds the configured table name and the `embeddingDimensions` field.
- `CosmosPipeline` models the Cosmos DB variant:
  - `Path.GetExtension`;
  - the case-sensitive `.txt`/`.md` dispatch;
  - `Chunk(10)` batching;
  - one retry run per batch followed by an upsert of that batch with its embeddings;
  - the class with its `embeddingDimensions` field.

`Parallel.ForEachAsync` is modelled as a sequential loop over the batches in order. The loop stops at the
first batch whose processing throws: its embedding failed (both variants) or its row loop ran out of
embeddings (SQL).

One behaviour of the code, stated here rather than as a defect: a run whose every attempt is transient makes
100 calls and also waits 100 times. That includes a 10-second wait after the last call and before the final
failure (`EmbeddingRetry.AllTransientExhausts`).

## Model

| member | source | states |
|---|---|---|
| `Partition.ChunkByIsPartition` | AzureCosmosDB/csharp/DocumentVectorPipelineFunctions/BlobTriggerFunction.cs:101 | Concatenating the groups gives back the input. Every group is non-empty and holds at most `n` elements. Every group but the last holds exactly `n`. |
| `Partition.PartitionIsChunkBy` | AzureCosmosDB/csharp/DocumentVectorPipelineFunctions/BlobTriggerFunction.cs:101 | Any partition with those properties equals `ChunkBy(xs, n)`, so both batching implementations meet one unique specification. |
| `Partition.ChunkByCount` | AzureCosmosDB/csharp/DocumentVectorPipelineFunctions/BlobTriggerFunction.cs:101 | The number of groups `g` is the least with `|xs| <= g * n`, the ceiling of `|xs| / n`. |
| `Chunker.FixedSizeChunking` | AzureCosmosDB/csharp/DocumentVectorPipelineFunctions/DocumentChunker.cs:22-65 | A missing analysis result yields no chunks. Otherwise there is exactly one chunk per splitter piece, with its text unchanged and chunk number `i` for the `i`-th piece. |
| `Chunker.SelectUnits` | AzureCosmosDB/csharp/DocumentVectorPipelineFunctions/DocumentChunker.cs:44-60 | The priority chain. If the first page has lines, the units are all pages' lines in page-then-line order. Else the paragraphs, if any. Else the 41-word units, if the first page has words. Else the single content string. |
| `Chunker.NumberChunks` | AzureCosmosDB/csharp/DocumentVectorPipelineFunctions/DocumentChunker.cs:62-64 | The captured counter numbers the pieces 0, 1, 2, … in emission order. It gives one chunk per piece, with the text unchanged. |
| `Chunker.SplitWords` | AzureCosmosDB/csharp/DocumentVectorPipelineFunctions/DocumentChunker.cs:70-98 | The loop's output equals the consecutive 41-word groups of all pages' words, each joined by single spaces. The word count is not reset at page boundaries. |
| `Chunker.SpacedIsJoined` | AzureCosmosDB/csharp/DocumentVectorPipelineFunctions/DocumentChunker.cs:78-83 | Appending every word followed by a space and then dropping the last character gives the words joined by single spaces, with no trailing space. |
| `Chunker.WordGroupsPartition` | AzureCosmosDB/csharp/DocumentVectorPipelineFunctions/DocumentChunker.cs:72-90 | The units' word lists concatenate to all words in page-then-word order. Each is non-empty. All but the last hold exactly 41 words. |
| `Chunker.WordUnitCount` | AzureCosmosDB/csharp/DocumentVectorPipelineFunctions/DocumentChunker.cs:84-97 | `W` words give `ceil(W / 41)` units. No empty unit trails a multiple of 41. |
| `Configuration.GetValue` | AzureCosmosDB/csharp/DocumentVectorPipelineFunctions/BlobTriggerFunction.cs:60-64 | A present setting gives its value. An absent one gives the default. |
| `EmbeddingRetry.FirstSettled` | AzureSQL/csharp/DocumentVectorPipelineFunctions/BlobTriggerFunction.cs:164-188 | The first attempt below 100 whose outcome is not a 429/401 client error, with every earlier attempt transient. It is absent exactly when all 100 attempts are transient. |
| `EmbeddingRetry.GenerateEmbeddingsWithRetry` | AzureSQL/csharp/DocumentVectorPipelineFunctions/BlobTriggerFunction.cs:157-192 | The loop's result and trace of calls and delays equal the reference run. It never ends in the in-loop "max retry attempts" failure. |
| `EmbeddingRetry.RunBounds` | AzureCosmosDB/csharp/DocumentVectorPipelineFunctions/BlobTriggerFunction.cs:129-156 | Every run makes between 1 and 100 calls, each with the batch's own request, and no more delays than calls. Every delay is 10 000 ms. The ceiling branch is never taken. |
| `EmbeddingRetry.TransientsThenSuccess` | AzureSQL/csharp/DocumentVectorPipelineFunctions/BlobTriggerFunction.cs:164-183 | `k < 100` transient failures and then a success give `k + 1` calls and `k` delays, and return the provider's embeddings unchanged. |
| `EmbeddingRetry.NonRetryableStops` | AzureSQL/csharp/DocumentVectorPipelineFunctions/BlobTriggerFunction.cs:167-187 | After k < 100 transient failures, a failure that is not transient ends the run at once. A client error other than 429/401 fails with that status, and any other exception fails as unhandled. The run has `k + 1` calls and `k` delays, and the call that failed is the last event. |
| `EmbeddingRetry.AllTransientExhausts` | AzureCosmosDB/csharp/DocumentVectorPipelineFunctions/BlobTriggerFunction.cs:130-156 | When every attempt is transient, the run ends in the post-loop failure after 100 calls and 100 delays. |
| `SqlNames.Trim` | AzureSQL/csharp/DocumentVectorPipelineFunctions/BlobTriggerFunction.cs:204 | The trimmed string neither starts nor ends with a .NET white-space character; `SqlNames.TrimRemovesOnlyEdges` states what else it keeps. |
| `SqlNames.TrimRemovesOnlyEdges` | AzureSQL/csharp/DocumentVectorPipelineFunctions/BlobTriggerFunction.cs:204 | The result is the input with only its leading and trailing white space removed: a contiguous slice of the input, with everything before and after that slice .NET white space. |
| `SqlNames.SanitizeDatabaseObjectName` | AzureSQL/csharp/DocumentVectorPipelineFunctions/BlobTriggerFunction.cs:202-209 | The result always starts with `[` and ends with `]`. A trimmed name that already does is returned as is. Any other name becomes `[` + trimmed name + `]`. |
| `SqlNames.SanitizeIdempotent` | AzureSQL/csharp/DocumentVectorPipelineFunctions/BlobTriggerFunction.cs:202-209 | Sanitising a sanitised name changes nothing. |
| `SqlPipeline.Texts` | AzureSQL/csharp/DocumentVectorPipelineFunctions/BlobTriggerFunction.cs:169 | The request texts are the batch's chunk texts in batch order. |
| `SqlPipeline.BuildBatches` | AzureSQL/csharp/DocumentVectorPipelineFunctions/BlobTriggerFunction.cs:84-109 | The accumulator loop builds exactly `ChunkBy(textChunks, 10)`, which concatenates back to the chunks in batches of 1 to 10, all but the last full. `totalChunksCount` ends at the number of chunks. Zero chunks give zero batches. |
| `SqlPipeline.StoreBatch` | AzureSQL/csharp/DocumentVectorPipelineFunctions/BlobTriggerFunction.cs:124-147 | No rows when no embeddings came back. Otherwise row `i` carries chunk `i`'s number as ChunkId, its text and page number, the document URL, and the serialised embedding `i`, all into the sanitised table. It fails out of range when there are fewer embeddings than chunks. |
| `SqlPipeline.ProcessBatch` | AzureSQL/csharp/DocumentVectorPipelineFunctions/BlobTriggerFunction.cs:117-151 | An empty batch does nothing. Otherwise one retry run, then the row loop only if embedding succeeded. |
| `SqlPipeline.ProcessBatches` | AzureSQL/csharp/DocumentVectorPipelineFunctions/BlobTriggerFunction.cs:115-152 | Batches are processed in order. A completed run stored every batch and holds all their rows in order. A failed run names the first batch that did not store. |
| `SqlPipeline.RowsFollowChunks` | AzureSQL/csharp/DocumentVectorPipelineFunctions/BlobTriggerFunction.cs:129-143 | When every batch stored a row per chunk, the document's rows, in order, line up one to one with its chunks: ChunkId, text, page number, URL and table. |
| `SqlPipeline.BlobTriggerFunction.constructor` | AzureSQL/csharp/DocumentVectorPipelineFunctions/BlobTriggerFunction.cs:31-44 | Schema and table names come from the environment, defaulting to `dbo` and `documents`. Dimensions start at 1536. |
| `SqlPipeline.BlobTriggerFunction.HandleBlobCreateEvent` | AzureSQL/csharp/DocumentVectorPipelineFunctions/BlobTriggerFunction.cs:62-155 | The handler sets the dimensions field from the configuration (default 1536) and counts every chunk. It processes the 10-chunk batches of the document's chunks as `ProcessBatches` states. |
| `CosmosPipeline.GetExtension` | AzureCosmosDB/csharp/DocumentVectorPipelineFunctions/BlobTriggerFunction.cs:66 | The extension is empty, or a period followed by characters other than periods and separators, and the name ends with it. |
| `CosmosPipeline.ExtensionIffSuffix` | AzureCosmosDB/csharp/DocumentVectorPipelineFunctions/BlobTriggerFunction.cs:66-75 | The extension equals a given extension exactly when the name ends with it. |
| `CosmosPipeline.DispatchByName` | AzureCosmosDB/csharp/DocumentVectorPipelineFunctions/BlobTriggerFunction.cs:66-99 | A name goes to the text-line chunker exactly when it ends in `.txt`, to the markdown chunker exactly when it ends in `.md`, and otherwise to the analyser (`.TXT` included, since the comparison is case-sensitive). |
| `CosmosPipeline.Texts` | AzureCosmosDB/csharp/DocumentVectorPipelineFunctions/BlobTriggerFunction.cs:134 | The request texts are the batch's chunk texts in batch order. |
| `CosmosPipeline.ProcessCurrentBatch` | AzureCosmosDB/csharp/DocumentVectorPipelineFunctions/BlobTriggerFunction.cs:113-120 | The batch is embedded once through the retry loop, and every call sends its texts. On success the upsert receives that same batch with the returned embeddings. On failure there is no upsert. |
| `CosmosPipeline.ProcessBatches` | AzureCosmosDB/csharp/DocumentVectorPipelineFunctions/BlobTriggerFunction.cs:104-108 | Batches are processed in order, each embedded exactly once up to the first failure. Every embedded batch is upserted with its own embeddings. A failed run names the failing batch and upserts nothing from it on. |
| `CosmosPipeline.BlobTriggerFunction.constructor` | AzureCosmosDB/csharp/DocumentVectorPipelineFunctions/BlobTriggerFunction.cs:17-38 | The collaborators are stored, and dimensions start at 1536. |
| `CosmosPipeline.BlobTriggerFunction.HandleBlobCreateEvent` | AzureCosmosDB/csharp/DocumentVectorPipelineFunctions/BlobTriggerFunction.cs:56-111 | The handler takes dimensions from the configuration (default 1536), and maximum tokens per chunk and overlap (defaults 250 and 0). It chunks by the extension's route and processes `Chunk(10)` of the chunks as `ProcessBatches` states. |

## Left out

- `TextChunker.SplitPlainTextParagraphs` is a Semantic Kernel library call and appears as a function parameter (`Splitter`). No token bound or overlap property is claimed for it.
- `DocumentChunker.ChunkTextLines`, `DocumentChunker.ChunkMarkdownLines` and the SQL variant's `TextChunker.FixedSizeChunking` (with `PageNumberIfKnown`) are not part of this model. They are function parameters.
- Program.cs is not part of this model. It is dependency-injection wiring and client construction.
- Blob and stream I/O are not modelled: `Run`'s `ExistsAsync` dispatch, `DownloadToAsync`, `OpenReadAsync`, `ReadAllLinesAsync` and the document analyser call. The blob is an input value carrying its name, URI, lines and analysis result.
- `HandleBlobDeleteEventAsync` is a logging stub in both variants and is not modelled.
- Logging is not modelled.
- Concurrency is not modelled: `Parallel.ForEachAsync` with degree 50, and the cancellation tokens. Batches run sequentially and the run stops at the first failing batch. With real parallelism, batches that were already running could still store rows after that failure.
- `EnsureDocumentTableExistsAsync` (the SQL DDL) and the SQL connection are left out. An insert is a recorded `Insert` value that always succeeds, and the identity column `Id` is not modelled.
- The Cosmos DB client wrapper is not part of this model. An upsert is a recorded `Upsert` value that always succeeds.
- `Task.Delay` is a `Delay(10000)` trace event. No time passes.
- The embedding provider is a total function of the request and the attempt index within one retry run. The model does not capture responses that depend on wall-clock time or on other batches.
- Embedding vectors are opaque `seq<real>`. Their JSON serialisation is a function parameter.
- Configuration values are integers that are present or absent. `GetValue` throwing on an unparsable setting is not modelled.
- Null collections in the analysis result (`Pages`, `Lines`, `Words`, `Paragraphs`) are modelled as empty sequences.
- `CosmosPipeline.GetExtension` treats `/` and `\` as directory separators (the Windows set). Volume separators and invalid-path-character checks are not modelled.
- `Chunker.NumberChunks` numbers the pieces once. The lazy C# sequence would continue counting from where it stopped if it were enumerated twice. The Cosmos DB handler enumerates it once (`AddRange`).
- The `MaxDegreeOfParallelism` constant is declared but has no effect in a sequential model.
