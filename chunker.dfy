/** The document chunker of the Cosmos DB variant: choosing the source units of an analysed
    document (page lines, paragraphs, regrouped words or the whole content), handing them to the
    text splitter and numbering the pieces it returns. */
module Chunker {
  import opened Wrappers
  import opened Partition

  const DefaultMaxTokensPerChunk: int := 250
  const DefaultOverlapTokens: int := 0

  /** A unit built from words is flushed once it holds more than this many words. */
  const MaxChunkWordCount: nat := 40

  /** Hence every unit built from words, except possibly the last, holds this many. */
  const WordsPerUnit: nat := MaxChunkWordCount + 1

  /** A page of the analyser's output, reduced to the contents of its lines and of its words. */
  datatype Page = Page(lines: seq<string>, words: seq<string>)

  /** The analyser's output: its full text, its pages and the contents of its paragraphs. */
  datatype AnalyzeResult = AnalyzeResult(content: string, pages: seq<Page>, paragraphs: seq<string>)

  datatype TextChunk = TextChunk(text: string, chunkNumber: int)

  /** The four places the source units can come from, in priority order. */
  datatype UnitSource = PageLines | Paragraphs | PageWords | WholeContent

  /** The text splitter (a library call outside this model): units, maximum tokens per chunk
      and overlap tokens to the pieces of text it returns. */
  type Splitter = (seq<string>, int, int) -> seq<string>

  /** The first applicable source: lines when the first page has lines, else paragraphs, else
      words when the first page has words, else the whole content. */
  function SourceOf(r: AnalyzeResult): UnitSource
  {
    if |r.pages| > 0 && |r.pages[0].lines| > 0 then PageLines
    else if |r.paragraphs| > 0 then Paragraphs
    else if |r.pages| > 0 && |r.pages[0].words| > 0 then PageWords
    else WholeContent
  }

  function LinesOf(pages: seq<Page>): seq<seq<string>>
  {
    seq(|pages|, i requires 0 <= i < |pages| => pages[i].lines)
  }

  function WordsOf(pages: seq<Page>): seq<seq<string>>
  {
    seq(|pages|, i requires 0 <= i < |pages| => pages[i].words)
  }

  /** Every word of every page, in page order and then word order. */
  function AllWords(pages: seq<Page>): seq<string>
  {
    Flatten(WordsOf(pages))
  }

  /** Words joined by single spaces. */
  function Join(ws: seq<string>): string
  {
    if |ws| == 0 then ""
    else if |ws| == 1 then ws[0]
    else Join(ws[..|ws| - 1]) + " " + ws[|ws| - 1]
  }

  /** Every word followed by one space: the string builder's contents after appending them. */
  function Spaced(ws: seq<string>): string
  {
    if ws == [] then "" else Spaced(ws[..|ws| - 1]) + ws[|ws| - 1] + " "
  }

  function JoinAll(gs: seq<seq<string>>): seq<string>
  {
    seq(|gs|, i requires 0 <= i < |gs| => Join(gs[i]))
  }

  /** The word lists of the units built from words: consecutive groups of `WordsPerUnit`. */
  function WordGroups(pages: seq<Page>): seq<seq<string>>
  {
    ChunkBy(AllWords(pages), WordsPerUnit)
  }

  /** The units built from words: each group's words joined by single spaces. */
  function WordUnits(pages: seq<Page>): seq<string>
  {
    JoinAll(WordGroups(pages))
  }

  /** The source units the splitter receives. */
  function Units(r: AnalyzeResult): seq<string>
  {
    match SourceOf(r)
    case PageLines => Flatten(LinesOf(r.pages))
    case Paragraphs => r.paragraphs
    case PageWords => WordUnits(r.pages)
    case WholeContent => [r.content]
  }

  /** The splitter's pieces, numbered 0, 1, 2, ... in the order it returns them. */
  function Numbered(pieces: seq<string>): seq<TextChunk>
  {
    seq(|pieces|, i requires 0 <= i < |pieces| => TextChunk(pieces[i], i))
  }

  /** The chunks of an analysed document: nothing for a missing result. */
  function Chunks(result: Option<AnalyzeResult>, maxTokensPerChunk: int, overlapTokens: int,
                  split: Splitter): seq<TextChunk>
  {
    match result
    case None => []
    case Some(r) => Numbered(split(Units(r), maxTokensPerChunk, overlapTokens))
  }

  /** Dropping the last character of `Spaced(ws)` leaves the words joined by single spaces. */
  lemma {:induction false} SpacedIsJoined(ws: seq<string>)
    requires |ws| > 0
    ensures Spaced(ws) == Join(ws) + " "
    decreases |ws|
  {
    if |ws| == 1 {
      assert ws[..0] == [];
    } else {
      SpacedIsJoined(ws[..|ws| - 1]);
      assert ws[..|ws| - 1][..|ws| - 2] == ws[..|ws| - 2];
    }
  }

  /** The word units: every group but the last holds exactly 41 words, none is empty, and
      their word lists, concatenated, are all the pages' words in order. */
  lemma WordGroupsPartition(pages: seq<Page>)
    ensures IsPartition(WordGroups(pages), AllWords(pages), WordsPerUnit)
    ensures |WordUnits(pages)| == |WordGroups(pages)|
    ensures forall i :: 0 <= i < |WordUnits(pages)| ==> WordUnits(pages)[i] == Join(WordGroups(pages)[i])
  {
    ChunkByIsPartition(AllWords(pages), WordsPerUnit);
  }

  /** `W` words give ceil(W / 41) units; in particular no empty unit trails a multiple of 41. */
  lemma WordUnitCount(pages: seq<Page>)
    ensures |WordUnits(pages)| == (|AllWords(pages)| + MaxChunkWordCount) / WordsPerUnit
  {
    ChunkByCount(AllWords(pages), WordsPerUnit);
  }

  /** The regrouping loop over the pages' words.  A unit is flushed, without its trailing
      space, as soon as it holds more than `MaxChunkWordCount` words; the count runs on across
      page boundaries; what remains at the end is flushed the same way. */
  method SplitWords(pages: seq<Page>) returns (units: seq<string>)
    ensures units == WordUnits(pages)
  {
    var sb: string := "";
    var wordCount: nat := 0;
    ghost var seen: seq<string> := [];
    units := [];
    for p := 0 to |pages|
      invariant seen == AllWords(pages[..p])
      invariant SplitState(seen, wordCount, sb, units)
    {
      var page := pages[p];
      for w := 0 to |page.words|
        invariant seen == AllWords(pages[..p]) + page.words[..w]
        invariant SplitState(seen, wordCount, sb, units)
      {
        var word := page.words[w];
        if wordCount < MaxChunkWordCount {
          AppendWord(seen, wordCount, sb, units, word);
        } else {
          FlushUnit(seen, wordCount, sb, units, word);
        }
        sb := sb + word + " ";
        wordCount := wordCount + 1;
        seen := seen + [word];
        assert page.words[..w + 1] == page.words[..w] + [word];
        if wordCount > MaxChunkWordCount {
          sb := sb[..|sb| - 1];
          var chunk := sb;
          sb := "";
          wordCount := 0;
          units := units + [chunk];
        }
      }
      assert page.words[..|page.words|] == page.words;
      AllWordsSnoc(pages, p);
    }
    assert pages[..|pages|] == pages;
    FlushRemainder(seen, wordCount, sb, units);
    if |sb| > 0 {
      sb := sb[..|sb| - 1];
      var chunk := sb;
      units := units + [chunk];
    }
  }

  /** The loop state of `SplitWords` after reading the words `seen`: the units flushed so far
      are the joined whole groups of the words before the last `wordCount`, and the builder
      holds those last words, each followed by a space. */
  ghost predicate SplitState(seen: seq<string>, wordCount: nat, sb: string, units: seq<string>)
  {
    && wordCount <= MaxChunkWordCount
    && wordCount <= |seen|
    && WholeGroups(seen[..|seen| - wordCount], WordsPerUnit)
    && units == JoinAll(ChunkBy(seen[..|seen| - wordCount], WordsPerUnit))
    && sb == Spaced(seen[|seen| - wordCount..])
  }

  /** One more word below the flush threshold only grows the builder. */
  lemma AppendWord(seen: seq<string>, wordCount: nat, sb: string, units: seq<string>, word: string)
    requires SplitState(seen, wordCount, sb, units) && wordCount < MaxChunkWordCount
    ensures SplitState(seen + [word], wordCount + 1, sb + word + " ", units)
  {
    var seen' := seen + [word];
    var pending := seen[|seen| - wordCount..];
    assert seen'[..|seen'| - (wordCount + 1)] == seen[..|seen| - wordCount];
    assert seen'[|seen'| - (wordCount + 1)..] == pending + [word];
    assert (pending + [word])[..|pending|] == pending;
  }

  /** The word that takes the builder over the threshold flushes it, minus its last space. */
  lemma FlushUnit(seen: seq<string>, wordCount: nat, sb: string, units: seq<string>, word: string)
    requires SplitState(seen, wordCount, sb, units) && wordCount == MaxChunkWordCount
    ensures var sb' := sb + word + " ";
      |sb'| > 0 && SplitState(seen + [word], 0, "", units + [sb'[..|sb'| - 1]])
  {
    var seen' := seen + [word];
    var done := seen[..|seen| - wordCount];
    var pending := seen[|seen| - wordCount..];
    var group := pending + [word];
    assert group[..|pending|] == pending;
    assert Spaced(group) == sb + word + " ";
    SpacedIsJoined(group);
    ChunkBySnoc(done, group, WordsPerUnit);
    WholeGroupsSnoc(done, group, WordsPerUnit);
    assert done + group == seen';
    assert seen'[..|seen'| - 0] == seen';
    assert seen'[|seen'| - 0..] == [];
    var gs := ChunkBy(done, WordsPerUnit);
    assert JoinAll(gs + [group]) == JoinAll(gs) + [Join(group)];
  }

  /** After the last word, a non-empty builder is the final unit, again minus its last space. */
  lemma FlushRemainder(seen: seq<string>, wordCount: nat, sb: string, units: seq<string>)
    requires SplitState(seen, wordCount, sb, units)
    ensures |sb| > 0 ==> units + [sb[..|sb| - 1]] == JoinAll(ChunkBy(seen, WordsPerUnit))
    ensures |sb| == 0 ==> units == JoinAll(ChunkBy(seen, WordsPerUnit))
  {
    var done := seen[..|seen| - wordCount];
    var pending := seen[|seen| - wordCount..];
    assert done + pending == seen;
    if wordCount > 0 {
      SpacedIsJoined(pending);
      ChunkBySnoc(done, pending, WordsPerUnit);
      var gs := ChunkBy(done, WordsPerUnit);
      assert JoinAll(gs + [pending]) == JoinAll(gs) + [Join(pending)];
    } else {
      assert pending == [];
      assert done == seen;
    }
  }

  lemma AllWordsSnoc(pages: seq<Page>, p: nat)
    requires p < |pages|
    ensures AllWords(pages[..p + 1]) == AllWords(pages[..p]) + pages[p].words
  {
    assert WordsOf(pages[..p + 1]) == WordsOf(pages[..p]) + [pages[p].words];
    FlattenAppend(WordsOf(pages[..p]), [pages[p].words]);
    assert Flatten([pages[p].words]) == pages[p].words + Flatten([]);
  }

  /** The priority chain that picks the source units. */
  method SelectUnits(r: AnalyzeResult) returns (lines: seq<string>)
    ensures lines == Units(r)
    ensures |r.pages| > 0 && |r.pages[0].lines| > 0 ==> lines == Flatten(LinesOf(r.pages))
    ensures !(|r.pages| > 0 && |r.pages[0].lines| > 0) && |r.paragraphs| > 0 ==> lines == r.paragraphs
    ensures (!(|r.pages| > 0 && |r.pages[0].lines| > 0) && |r.paragraphs| == 0
             && |r.pages| > 0 && |r.pages[0].words| > 0) ==> lines == WordUnits(r.pages)
    ensures !(|r.pages| > 0 && (|r.pages[0].lines| > 0 || |r.pages[0].words| > 0)) && |r.paragraphs| == 0
            ==> lines == [r.content]
  {
    if |r.pages| > 0 && |r.pages[0].lines| > 0 {
      lines := Flatten(LinesOf(r.pages));
    } else if |r.paragraphs| > 0 {
      lines := r.paragraphs;
    } else if |r.pages| > 0 && |r.pages[0].words| > 0 {
      lines := SplitWords(r.pages);
    } else {
      lines := [r.content];
    }
  }

  /** Numbering with a counter that starts at 0 and is incremented once per piece. */
  method NumberChunks(pieces: seq<string>) returns (chunks: seq<TextChunk>)
    ensures chunks == Numbered(pieces)
    ensures |chunks| == |pieces|
    ensures forall i :: 0 <= i < |chunks| ==> chunks[i].text == pieces[i] && chunks[i].chunkNumber == i
  {
    var chunkNumber := 0;
    chunks := [];
    while chunkNumber < |pieces|
      invariant 0 <= chunkNumber <= |pieces|
      invariant chunks == Numbered(pieces[..chunkNumber])
    {
      chunks := chunks + [TextChunk(pieces[chunkNumber], chunkNumber)];
      chunkNumber := chunkNumber + 1;
    }
    assert pieces[..|pieces|] == pieces;
  }

  /** Source units through the splitter; one chunk per piece, its text unchanged, numbered in
      emission order.  A missing analysis result gives no chunks. */
  method FixedSizeChunking(result: Option<AnalyzeResult>, maxTokensPerChunk: int, overlapTokens: int,
                           split: Splitter)
    returns (chunks: seq<TextChunk>)
    ensures chunks == Chunks(result, maxTokensPerChunk, overlapTokens, split)
    ensures result.None? ==> chunks == []
    ensures result.Some? ==>
      var pieces := split(Units(result.value), maxTokensPerChunk, overlapTokens);
      |chunks| == |pieces| &&
      forall i :: 0 <= i < |chunks| ==> chunks[i] == TextChunk(pieces[i], i)
  {
    if result == None {
      return [];
    }
    var lines := SelectUnits(result.value);
    chunks := NumberChunks(split(lines, maxTokensPerChunk, overlapTokens));
  }
}
