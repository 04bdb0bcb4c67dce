/** The Azure SQL variant of the blob trigger: chunks of an analysed document are grouped into
    batches of ten by an accumulator loop, each batch is embedded through the retry loop, and
    every chunk of a batch becomes one row inserted into the document table. */
module SqlPipeline {
  import opened Wrappers
  import opened Partition
  import opened Configuration
  import opened EmbeddingRetry
  import opened SqlNames
  import Chunker

  const MaxBatchSize: nat := 10
  const MaxDegreeOfParallelism: nat := 50
  const DimensionsSetting: string := "AzureOpenAIModelDimensions"
  const SchemaVariable: string := "DocumentTableSchema"
  const TableVariable: string := "DocumentTableName"
  const DefaultSchemaName: string := "dbo"
  const DefaultTableName: string := "documents"

  /** A chunk as this variant's own chunker produces it. */
  datatype TextChunk = TextChunk(text: string, chunkNumber: int, pageNumberIfKnown: Option<int>)

  /** One row of the document table; its identity column is assigned by the database. */
  datatype Document = Document(chunkId: int, documentUrl: string, embedding: string, chunkText: string,
                               pageNumber: Option<int>)

  /** One insert statement: the qualified table name and the row. */
  datatype Insert = Insert(table: string, row: Document)

  datatype BatchOutcome =
    | Stored
    | EmbeddingFailed(failure: Failure)
    | IndexOutOfRange    // fewer embeddings than chunks: the row loop indexes past the end

  datatype RunOutcome = Completed | BatchFailed(index: nat, outcome: BatchOutcome)

  /** What processing one batch needs besides the batch: the document's URL, the qualified
      table name, the dimensions, the provider and the JSON serialiser for vectors. */
  datatype BatchContext = BatchContext(documentUrl: string, table: string, dimensions: int,
                                       provider: Provider, serialize: seq<real> -> string)

  datatype BatchResult = BatchResult(inserts: seq<Insert>, outcome: BatchOutcome, trace: seq<Event>)

  /** The texts sent to the provider: the batch's chunk texts in batch order.  The same rule
      as in the Cosmos DB variant, stated again because this variant's `TextChunk` also carries
      a page number. */
  function Texts(batch: seq<TextChunk>): (texts: seq<string>)
    ensures |texts| == |batch| && forall i :: 0 <= i < |batch| ==> texts[i] == batch[i].text
  {
    seq(|batch|, i requires 0 <= i < |batch| => batch[i].text)
  }

  function ToInsert(ctx: BatchContext, chunk: TextChunk, embedding: Embedding): Insert
  {
    Insert(ctx.table, Document(chunk.chunkNumber, ctx.documentUrl, ctx.serialize(embedding.vector),
                               chunk.text, chunk.pageNumberIfKnown))
  }

  /** The rows inserted for an embedded batch: none for an empty embedding list, otherwise one
      per chunk as far as there are embeddings. */
  function Rows(ctx: BatchContext, batch: seq<TextChunk>, embeddings: seq<Embedding>): seq<Insert>
  {
    if |embeddings| == 0 then []
    else
      var n := if |embeddings| < |batch| then |embeddings| else |batch|;
      seq(n, i requires 0 <= i < n => ToInsert(ctx, batch[i], embeddings[i]))
  }

  function StoreOutcome(batch: seq<TextChunk>, embeddings: seq<Embedding>): BatchOutcome
  {
    if 0 < |embeddings| < |batch| then IndexOutOfRange else Stored
  }

  /** What processing one batch does: skip an empty batch, embed it through the retry loop,
      and insert its rows when embeddings came back. */
  function BatchRun(ctx: BatchContext, batch: seq<TextChunk>): BatchResult
  {
    if |batch| == 0 then BatchResult([], Stored, [])
    else
      var run := ExpectedRun(ctx.provider, Request(Texts(batch), ctx.dimensions));
      match run.result
      case Failed(f) => BatchResult([], EmbeddingFailed(f), run.trace)
      case Embedded(e) => BatchResult(Rows(ctx, batch, e), StoreOutcome(batch, e), run.trace)
  }

  /** The rows of the batches before `n`, in batch order. */
  function InsertsBefore(ctx: BatchContext, batches: seq<seq<TextChunk>>, n: nat): seq<Insert>
    requires n <= |batches|
  {
    Flatten(seq(n, i requires 0 <= i < n => BatchRun(ctx, batches[i]).inserts))
  }

  /** Batches processed in order until one fails: a completed run stored every batch and
      inserted all their rows; a failed run names the first batch that did not store, and
      holds the rows of the batches before it and the rows that batch inserted before failing. */
  ghost predicate IsRunOf(ctx: BatchContext, batches: seq<seq<TextChunk>>, outcome: RunOutcome, inserts: seq<Insert>)
  {
    match outcome
    case Completed =>
      && (forall i :: 0 <= i < |batches| ==> BatchRun(ctx, batches[i]).outcome == Stored)
      && inserts == InsertsBefore(ctx, batches, |batches|)
    case BatchFailed(j, o) =>
      && j < |batches|
      && (forall i :: 0 <= i < j ==> BatchRun(ctx, batches[i]).outcome == Stored)
      && o == BatchRun(ctx, batches[j]).outcome && o != Stored
      && inserts == InsertsBefore(ctx, batches, j + 1)
  }

  /** The accumulator loop: a chunk is added to the current batch, which is handed over at ten
      chunks; at the end a non-empty remainder is handed over too. */
  method BuildBatches(textChunks: seq<TextChunk>) returns (listOfBatches: seq<seq<TextChunk>>, totalChunksCount: nat)
    ensures listOfBatches == ChunkBy(textChunks, MaxBatchSize)
    ensures totalChunksCount == |textChunks|
    ensures textChunks == [] ==> listOfBatches == []
  {
    listOfBatches := [];
    totalChunksCount := 0;
    var batchChunkTexts: seq<TextChunk> := [];
    var i := 0;
    while i <= |textChunks|
      invariant 0 <= i <= |textChunks|
      invariant totalChunksCount == i
      invariant |batchChunkTexts| < MaxBatchSize && |batchChunkTexts| <= i
      invariant batchChunkTexts == textChunks[i - |batchChunkTexts|..i]
      invariant WholeGroups(textChunks[..i - |batchChunkTexts|], MaxBatchSize)
      invariant listOfBatches == ChunkBy(textChunks[..i - |batchChunkTexts|], MaxBatchSize)
      decreases |textChunks| - i
    {
      ghost var done := textChunks[..i - |batchChunkTexts|];
      if i == |textChunks| {
        assert done + batchChunkTexts == textChunks;
        if |batchChunkTexts| > 0 {
          ChunkBySnoc(done, batchChunkTexts, MaxBatchSize);
          listOfBatches := listOfBatches + [batchChunkTexts];
        } else {
          assert done == textChunks;
        }
        batchChunkTexts := [];
        assert listOfBatches == ChunkBy(textChunks, MaxBatchSize);
        break;
      }
      batchChunkTexts := batchChunkTexts + [textChunks[i]];
      totalChunksCount := totalChunksCount + 1;
      if |batchChunkTexts| >= MaxBatchSize {
        assert done + batchChunkTexts == textChunks[..i + 1];
        ChunkBySnoc(done, batchChunkTexts, MaxBatchSize);
        WholeGroupsSnoc(done, batchChunkTexts, MaxBatchSize);
        listOfBatches := listOfBatches + [batchChunkTexts];
        batchChunkTexts := [];
      }
      i := i + 1;
    }
  }

  /** The row loop of one embedded batch (nothing when no embeddings came back). */
  method StoreBatch(ctx: BatchContext, batch: seq<TextChunk>, embeddings: seq<Embedding>)
    returns (inserts: seq<Insert>, outcome: BatchOutcome)
    ensures inserts == Rows(ctx, batch, embeddings) && outcome == StoreOutcome(batch, embeddings)
    ensures |embeddings| == 0 ==> inserts == [] && outcome == Stored
    ensures |embeddings| >= |batch| ==> |inserts| == |batch| && outcome == Stored
    ensures forall i :: 0 <= i < |inserts| ==>
      && inserts[i].table == ctx.table
      && inserts[i].row.chunkId == batch[i].chunkNumber
      && inserts[i].row.documentUrl == ctx.documentUrl
      && inserts[i].row.embedding == ctx.serialize(embeddings[i].vector)
      && inserts[i].row.chunkText == batch[i].text
      && inserts[i].row.pageNumber == batch[i].pageNumberIfKnown
  {
    inserts := [];
    outcome := Stored;
    if |embeddings| > 0 {
      for index := 0 to |batch|
        invariant index <= |embeddings|
        invariant inserts == seq(index, i requires 0 <= i < index => ToInsert(ctx, batch[i], embeddings[i]))
      {
        if index >= |embeddings| {
          outcome := IndexOutOfRange;
          return;
        }
        inserts := inserts + [ToInsert(ctx, batch[index], embeddings[index])];
      }
    }
  }

  /** One batch: embedded through the retry loop, then stored. */
  method ProcessBatch(ctx: BatchContext, batch: seq<TextChunk>) returns (result: BatchResult)
    ensures result == BatchRun(ctx, batch)
    ensures |batch| == 0 ==> result.trace == [] && result.inserts == []
    ensures result.outcome.EmbeddingFailed? ==> result.inserts == []
  {
    result := BatchResult([], Stored, []);
    if |batch| > 0 {
      var embedded, trace := GenerateEmbeddingsWithRetry(Texts(batch), ctx.dimensions, ctx.provider);
      match embedded
      case Failed(f) =>
        result := BatchResult([], EmbeddingFailed(f), trace);
      case Embedded(embeddings) =>
        var inserts, outcome := StoreBatch(ctx, batch, embeddings);
        result := BatchResult(inserts, outcome, trace);
    }
  }

  /** The batches, one after the other; the first batch that fails ends the run. */
  method ProcessBatches(ctx: BatchContext, batches: seq<seq<TextChunk>>) returns (outcome: RunOutcome, inserts: seq<Insert>)
    ensures IsRunOf(ctx, batches, outcome, inserts)
  {
    inserts := [];
    for i := 0 to |batches|
      invariant forall k :: 0 <= k < i ==> BatchRun(ctx, batches[k]).outcome == Stored
      invariant inserts == InsertsBefore(ctx, batches, i)
    {
      var result := ProcessBatch(ctx, batches[i]);
      InsertsBeforeStep(ctx, batches, i);
      inserts := inserts + result.inserts;
      if result.outcome != Stored {
        outcome := BatchFailed(i, result.outcome);
        return;
      }
    }
    outcome := Completed;
  }

  lemma InsertsBeforeStep(ctx: BatchContext, batches: seq<seq<TextChunk>>, n: nat)
    requires n < |batches|
    ensures InsertsBefore(ctx, batches, n + 1) == InsertsBefore(ctx, batches, n) + BatchRun(ctx, batches[n]).inserts
  {
    var f := i requires 0 <= i < |batches| => BatchRun(ctx, batches[i]).inserts;
    var before := seq(n, i requires 0 <= i < n => f(i));
    var x := BatchRun(ctx, batches[n]).inserts;
    assert seq(n + 1, i requires 0 <= i < n + 1 => BatchRun(ctx, batches[i]).inserts) == before + [x];
    assert seq(n, i requires 0 <= i < n => BatchRun(ctx, batches[i]).inserts) == before;
    FlattenAppend(before, [x]);
    assert Flatten([x]) == x + Flatten([]);
  }

  /** Chunk numbering survives into the table: when every batch of a document inserted one row
      per chunk, the rows, in order, are the document's chunks, each row carrying its chunk's
      number as ChunkId, its text, its page number and the document's URL. */
  lemma {:induction false} RowsFollowChunks(ctx: BatchContext, chunks: seq<TextChunk>, batches: seq<seq<TextChunk>>)
    requires batches == ChunkBy(chunks, MaxBatchSize)
    requires forall i :: 0 <= i < |batches| ==> |BatchRun(ctx, batches[i]).inserts| == |batches[i]|
    ensures var inserts := InsertsBefore(ctx, batches, |batches|);
      && |inserts| == |chunks|
      && forall k :: 0 <= k < |chunks| ==>
        && inserts[k].table == ctx.table
        && inserts[k].row.chunkId == chunks[k].chunkNumber
        && inserts[k].row.documentUrl == ctx.documentUrl
        && inserts[k].row.chunkText == chunks[k].text
        && inserts[k].row.pageNumber == chunks[k].pageNumberIfKnown
  {
    ChunkByIsPartition(chunks, MaxBatchSize);
    var rows := seq(|batches|, i requires 0 <= i < |batches| => BatchRun(ctx, batches[i]).inserts);
    var rel := (c: TextChunk, r: Insert) =>
      r.table == ctx.table && r.row.chunkId == c.chunkNumber && r.row.documentUrl == ctx.documentUrl
      && r.row.chunkText == c.text && r.row.pageNumber == c.pageNumberIfKnown;
    forall i | 0 <= i < |batches| ensures |batches[i]| == |rows[i]| {
      assert rows[i] == BatchRun(ctx, batches[i]).inserts;
    }
    forall i, j | 0 <= i < |batches| && 0 <= j < |batches[i]| ensures rel(batches[i][j], rows[i][j]) {
      var b := batches[i];
      assert rows[i] == BatchRun(ctx, b).inserts;
      assert |b| > 0;
      var run := ExpectedRun(ctx.provider, Request(Texts(b), ctx.dimensions));
      assert run.result.Embedded?;
      var e := run.result.embeddings;
      assert rows[i] == Rows(ctx, b, e);
      assert |e| >= |b|;
      assert rows[i][j] == ToInsert(ctx, b[j], e[j]);
    }
    FlattenAligned(batches, rows, rel);
    forall k | 0 <= k < |chunks|
      ensures rel(chunks[k], InsertsBefore(ctx, batches, |batches|)[k])
    {
      assert rel(Flatten(batches)[k], Flatten(rows)[k]);
    }
  }

  /** The SQL variant's trigger function.  `embeddingDimensions` is a field that the create
      handler overwrites from the configuration before any batch is embedded. */
  class BlobTriggerFunction {
    const configuration: Settings
    const tableSchemaName: string
    const tableName: string
    const provider: Provider
    const fixedSizeChunking: Chunker.AnalyzeResult -> seq<TextChunk>
    const serialize: seq<real> -> string
    var embeddingDimensions: int

    /** Schema and table names come from the environment, with defaults when a variable is
        not set. */
    constructor(configuration: Settings, environment: map<string, string>, provider: Provider,
                fixedSizeChunking: Chunker.AnalyzeResult -> seq<TextChunk>, serialize: seq<real> -> string)
      ensures this.configuration == configuration && this.provider == provider
      ensures this.fixedSizeChunking == fixedSizeChunking && this.serialize == serialize
      ensures tableSchemaName == if SchemaVariable in environment then environment[SchemaVariable] else DefaultSchemaName
      ensures tableName == if TableVariable in environment then environment[TableVariable] else DefaultTableName
      ensures embeddingDimensions == DefaultDimensions
    {
      this.configuration := configuration;
      this.provider := provider;
      this.fixedSizeChunking := fixedSizeChunking;
      this.serialize := serialize;
      tableSchemaName := if SchemaVariable in environment then environment[SchemaVariable] else DefaultSchemaName;
      tableName := if TableVariable in environment then environment[TableVariable] else DefaultTableName;
      embeddingDimensions := DefaultDimensions;
    }

    function ContextFor(documentUrl: string): BatchContext
      reads this
    {
      BatchContext(documentUrl, QualifiedTableName(tableSchemaName, tableName), embeddingDimensions,
                   provider, serialize)
    }

    /** A newly created blob: read the dimensions setting, chunk the analysed document, batch
        the chunks and process the batches in order. */
    method HandleBlobCreateEvent(documentUrl: string, analysis: Chunker.AnalyzeResult)
      returns (outcome: RunOutcome, inserts: seq<Insert>, totalChunksCount: nat)
      modifies this
      ensures embeddingDimensions == GetValue(configuration, DimensionsSetting, DefaultDimensions)
      ensures totalChunksCount == |fixedSizeChunking(analysis)|
      ensures IsRunOf(ContextFor(documentUrl), ChunkBy(fixedSizeChunking(analysis), MaxBatchSize), outcome, inserts)
    {
      embeddingDimensions := GetValue(configuration, DimensionsSetting, DefaultDimensions);
      var textChunks := fixedSizeChunking(analysis);
      var listOfBatches;
      listOfBatches, totalChunksCount := BuildBatches(textChunks);
      outcome, inserts := ProcessBatches(ContextFor(documentUrl), listOfBatches);
    }
  }
}
