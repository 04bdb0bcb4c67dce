/** The Azure Cosmos DB variant of the blob trigger: the blob's extension chooses how it is
    chunked (plain-text lines, markdown lines, or the document analyser followed by the fixed
    size chunker), the chunks are grouped ten at a time, and each batch is embedded through the
    retry loop and handed, with its embeddings, to the Cosmos DB upsert. */
module CosmosPipeline {
  import opened Wrappers
  import opened Partition
  import opened Configuration
  import opened EmbeddingRetry
  import opened Chunker

  const MaxBatchSize: nat := 10
  const MaxDegreeOfParallelism: nat := 50
  const DimensionsSetting: string := "AzureOpenAIModelDimensions"
  const MaxTokensPerChunkSetting: string := "MaxTokensPerChunk"
  const OverlapTokensSetting: string := "OverlapTokens"

  /** The directory separators `Path.GetExtension` stops at. */
  predicate IsDirectorySeparator(c: char)
  {
    c == '/' || c == '\\'
  }

  /** No extension separator and no directory separator. */
  predicate PlainTail(s: string)
  {
    forall k :: 0 <= k < |s| ==> s[k] != '.' && !IsDirectorySeparator(s[k])
  }

  /** A non-empty extension as `Path.GetExtension` returns it: a period followed by at least
      one character, none of them a period or a directory separator. */
  predicate IsExtension(e: string)
  {
    |e| >= 2 && e[0] == '.' && PlainTail(e[1..])
  }

  predicate EndsWith(s: string, suffix: string)
  {
    |s| >= |suffix| && s[|s| - |suffix|..] == suffix
  }

  /** The scan of `Path.GetExtension` over `path[..i]`, from the end backwards, once the
      characters from `i` on have been passed over. */
  function ExtensionFrom(path: string, i: nat): (ext: string)
    requires i <= |path| && PlainTail(path[i..])
    ensures ext == "" || (IsExtension(ext) && EndsWith(path, ext) && |path| - |ext| < i)
    decreases i
  {
    if i == 0 then ""
    else if path[i - 1] == '.' then (if i != |path| then path[i - 1..] else "")
    else if IsDirectorySeparator(path[i - 1]) then ""
    else
      assert path[i - 1..] == [path[i - 1]] + path[i..];
      ExtensionFrom(path, i - 1)
  }

  /** `Path.GetExtension`: from the last period of the last path segment to the end, or
      nothing when there is no such period or it is the last character. */
  function GetExtension(path: string): (ext: string)
    ensures ext == "" || (IsExtension(ext) && EndsWith(path, ext))
  {
    ExtensionFrom(path, |path|)
  }

  /** A name has a given extension exactly when it ends with it. */
  lemma ExtensionIffSuffix(path: string, e: string)
    requires IsExtension(e)
    ensures GetExtension(path) == e <==> EndsWith(path, e)
  {
    if EndsWith(path, e) {
      ScanReachesPeriod(path, e, |path|);
    }
  }

  lemma {:induction false} ScanReachesPeriod(path: string, e: string, i: nat)
    requires IsExtension(e) && EndsWith(path, e)
    requires |path| - |e| < i <= |path|
    ensures ExtensionFrom(path, i) == e
    decreases i
  {
    var d := |path| - |e|;
    if i - 1 == d {
      assert path[i - 1] == e[0];
      assert path[i..] == e[1..];
    } else {
      assert path[i - 1..] == e[i - 1 - d..];
      assert path[i - 1] == e[i - 1 - d] == e[1..][i - 2 - d];
      ScanReachesPeriod(path, e, i - 1);
    }
  }

  datatype Route = TextLines | MarkdownLines | Analyzer

  /** Exact, case-sensitive comparison of the extension. */
  function RouteOf(extension: string): Route
  {
    if extension == ".txt" then TextLines
    else if extension == ".md" then MarkdownLines
    else Analyzer
  }

  /** `.txt` names go to the plain-text line chunker, `.md` names to the markdown line chunker,
      every other name (`.TXT` included) to the analyser and the fixed size chunker. */
  lemma DispatchByName(name: string)
    ensures RouteOf(GetExtension(name)) == TextLines <==> EndsWith(name, ".txt")
    ensures RouteOf(GetExtension(name)) == MarkdownLines <==> EndsWith(name, ".md")
    ensures RouteOf(GetExtension(name)) == Analyzer <==> !EndsWith(name, ".txt") && !EndsWith(name, ".md")
  {
    assert ".txt"[1..] == "txt" && ".md"[1..] == "md";
    ExtensionIffSuffix(name, ".txt");
    ExtensionIffSuffix(name, ".md");
    if EndsWith(name, ".txt") {
      assert name[|name| - 3..] == "txt";
    }
  }

  /** The blob as far as this model needs it: its name, its absolute URI, its lines when read
      as text, and what the document analyser returns for it. */
  datatype Blob = Blob(name: string, uri: string, lines: seq<string>, analysis: AnalyzeResult)

  /** The line chunkers for text and markdown files, which are not part of this model. */
  type LineChunker = (seq<string>, int, int) -> seq<TextChunk>

  /** One call of the Cosmos DB upsert: the document URI, a batch and its embeddings. */
  datatype Upsert = Upsert(documentUri: string, chunks: seq<TextChunk>, embeddings: seq<Embedding>)

  datatype RunOutcome = Completed | BatchFailed(index: nat, failure: Failure)

  /** The chunks of a blob, by the route its extension selects. */
  function ExtractChunks(blob: Blob, maxTokensPerChunk: int, overlapTokens: int,
                         textLines: LineChunker, markdownLines: LineChunker, split: Splitter): seq<TextChunk>
  {
    match RouteOf(GetExtension(blob.name))
    case TextLines => textLines(blob.lines, maxTokensPerChunk, overlapTokens)
    case MarkdownLines => markdownLines(blob.lines, maxTokensPerChunk, overlapTokens)
    case Analyzer => Chunks(Some(blob.analysis), maxTokensPerChunk, overlapTokens, split)
  }

  /** The texts sent to the provider: the batch's chunk texts in batch order. */
  function Texts(batch: seq<TextChunk>): (texts: seq<string>)
    ensures |texts| == |batch| && forall i :: 0 <= i < |batch| ==> texts[i] == batch[i].text
  {
    seq(|batch|, i requires 0 <= i < |batch| => batch[i].text)
  }

  datatype BatchContext = BatchContext(documentUri: string, dimensions: int, provider: Provider)

  /** The retry run of one batch. */
  function BatchRun(ctx: BatchContext, batch: seq<TextChunk>): Run
  {
    ExpectedRun(ctx.provider, Request(Texts(batch), ctx.dimensions))
  }

  /** Batches processed in order until one fails: every embedded batch is upserted once, with
      the embeddings its own run returned; a failed run names the first batch whose embedding
      failed and upserts nothing from it on.  `runs` holds one retry run per batch attempted:
      every batch up to the failing one is embedded exactly once, and no later batch is. */
  ghost predicate IsRunOf(ctx: BatchContext, batches: seq<seq<TextChunk>>, outcome: RunOutcome,
                          upserts: seq<Upsert>, runs: seq<Run>)
  {
    && (outcome.Completed? ==> |upserts| == |batches| == |runs|)
    && (outcome.BatchFailed? ==> |runs| == outcome.index + 1)
    && (forall i :: 0 <= i < |runs| ==> i < |batches| && runs[i] == BatchRun(ctx, batches[i]))
    && (outcome.BatchFailed? ==>
          && outcome.index == |upserts| < |batches|
          && BatchRun(ctx, batches[outcome.index]).result == Failed(outcome.failure))
    && |upserts| <= |batches|
    && forall i :: 0 <= i < |upserts| ==>
         && BatchRun(ctx, batches[i]).result.Embedded?
         && upserts[i] == Upsert(ctx.documentUri, batches[i], BatchRun(ctx, batches[i]).result.embeddings)
  }

  /** One batch: embedded once through the retry loop, every call sending the batch's texts;
      on success the same batch and the returned embeddings go to the upsert. */
  method ProcessCurrentBatch(ctx: BatchContext, batch: seq<TextChunk>)
    returns (result: EmbedResult, trace: seq<Event>, upsert: Option<Upsert>)
    ensures Run(result, trace) == BatchRun(ctx, batch)
    ensures forall e :: e in trace ==> e == Call(Request(Texts(batch), ctx.dimensions)) || e == Delay(RetryDelayMs)
    ensures result.Embedded? ==> upsert == Some(Upsert(ctx.documentUri, batch, result.embeddings))
    ensures result.Failed? ==> upsert == None
  {
    result, trace := GenerateEmbeddingsWithRetry(Texts(batch), ctx.dimensions, ctx.provider);
    RunBounds(ctx.provider, Request(Texts(batch), ctx.dimensions));
    upsert := None;
    if result.Embedded? {
      upsert := Some(Upsert(ctx.documentUri, batch, result.embeddings));
    }
  }

  /** The batches, one after the other; the first failing batch ends the run. */
  method ProcessBatches(ctx: BatchContext, batches: seq<seq<TextChunk>>)
    returns (outcome: RunOutcome, upserts: seq<Upsert>, runs: seq<Run>)
    ensures IsRunOf(ctx, batches, outcome, upserts, runs)
  {
    upserts := [];
    runs := [];
    for i := 0 to |batches|
      invariant |upserts| == i == |runs|
      invariant forall k :: 0 <= k < i ==> runs[k] == BatchRun(ctx, batches[k])
      invariant forall k :: 0 <= k < i ==>
        && BatchRun(ctx, batches[k]).result.Embedded?
        && upserts[k] == Upsert(ctx.documentUri, batches[k], BatchRun(ctx, batches[k]).result.embeddings)
    {
      var result, trace, upsert := ProcessCurrentBatch(ctx, batches[i]);
      runs := runs + [Run(result, trace)];
      if result.Failed? {
        outcome := BatchFailed(i, result.failure);
        return;
      }
      upserts := upserts + [upsert.value];
    }
    outcome := Completed;
  }

  /** The Cosmos DB variant's trigger function.  `embeddingDimensions` is a field that the
      create handler overwrites from the configuration before any batch is embedded. */
  class BlobTriggerFunction {
    const configuration: Settings
    const provider: Provider
    const chunkTextLines: LineChunker
    const chunkMarkdownLines: LineChunker
    const splitPlainTextParagraphs: Splitter
    var embeddingDimensions: int

    constructor(configuration: Settings, provider: Provider, chunkTextLines: LineChunker,
                chunkMarkdownLines: LineChunker, splitPlainTextParagraphs: Splitter)
      ensures this.configuration == configuration && this.provider == provider
      ensures this.chunkTextLines == chunkTextLines && this.chunkMarkdownLines == chunkMarkdownLines
      ensures this.splitPlainTextParagraphs == splitPlainTextParagraphs
      ensures embeddingDimensions == DefaultDimensions
    {
      this.configuration := configuration;
      this.provider := provider;
      this.chunkTextLines := chunkTextLines;
      this.chunkMarkdownLines := chunkMarkdownLines;
      this.splitPlainTextParagraphs := splitPlainTextParagraphs;
      embeddingDimensions := DefaultDimensions;
    }

    /** A newly created blob: read the settings (maximum tokens per chunk 250 and overlap 0
        when absent), chunk by extension, group the chunks ten at a time and process the
        groups in order. */
    method HandleBlobCreateEvent(blob: Blob)
      returns (outcome: RunOutcome, textChunks: seq<TextChunk>, upserts: seq<Upsert>, runs: seq<Run>)
      modifies this
      ensures embeddingDimensions == GetValue(configuration, DimensionsSetting, DefaultDimensions)
      ensures textChunks == ExtractChunks(blob,
                GetValue(configuration, MaxTokensPerChunkSetting, DefaultMaxTokensPerChunk),
                GetValue(configuration, OverlapTokensSetting, DefaultOverlapTokens),
                chunkTextLines, chunkMarkdownLines, splitPlainTextParagraphs)
      ensures IsRunOf(BatchContext(blob.uri, embeddingDimensions, provider),
                      ChunkBy(textChunks, MaxBatchSize), outcome, upserts, runs)
    {
      embeddingDimensions := GetValue(configuration, DimensionsSetting, DefaultDimensions);
      var maxTokensPerChunk := GetValue(configuration, MaxTokensPerChunkSetting, DefaultMaxTokensPerChunk);
      var overlapTokens := GetValue(configuration, OverlapTokensSetting, DefaultOverlapTokens);
      var extension := GetExtension(blob.name);
      textChunks := [];
      if extension == ".txt" {
        textChunks := textChunks + chunkTextLines(blob.lines, maxTokensPerChunk, overlapTokens);
      } else if extension == ".md" {
        textChunks := textChunks + chunkMarkdownLines(blob.lines, maxTokensPerChunk, overlapTokens);
      } else {
        var chunks := FixedSizeChunking(Some(blob.analysis), maxTokensPerChunk, overlapTokens, splitPlainTextParagraphs);
        textChunks := textChunks + chunks;
      }
      var listOfBatches := ChunkBy(textChunks, MaxBatchSize);
      outcome, upserts, runs := ProcessBatches(BatchContext(blob.uri, embeddingDimensions, provider), listOfBatches);
    }
  }
}
