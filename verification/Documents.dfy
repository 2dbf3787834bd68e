/**
 A document and its versions. Content is only ever appended as a new version; each version
 has the chunks the chunker makes of its content, or none yet.
 */
module Documents {
  import opened Utf8
  import opened Chunking

  /** SHA-256 is taken to tell contents apart: a digest stands for what it was made of. */
  datatype Digest = Sha256(of: Text)

  /** A chunk row; its index is its place. */
  datatype ChunkRow = ChunkRow(content: Text, contentHash: Digest, tokenCount: nat, startToken: nat)

  datatype Version = Version(content: Text, contentHash: Digest, chunks: seq<ChunkRow>)

  datatype Extraction = Ready | Queued | Processing | Succeeded | NeedsOcr | Failed

  datatype Document = Document(versions: map<int, Version>, currentVersion: int, contentHash: Digest, extraction: Extraction)

  datatype Outcome = Saved | Unchanged | Stale | VersionMissing

  /** A tokenizer: it cuts the encoding of any text into tokens. */
  ghost predicate IsTokenizer(tok: Text -> seq<Token>) {
    forall t: Text :: Concat(tok(t)) == Encode(t)
  }

  lemma TokensWellFormed(tok: Text -> seq<Token>, t: Text)
    requires IsTokenizer(tok)
    ensures WellFormed(Concat(tok(t)))
  {
    assert Concat(tok(t)) == Encode(t);
  }

  const TARGET_TOKENS: nat := 750
  const OVERLAP_RATIO: real := 0.12

  function RowOf(c: Chunk): ChunkRow { ChunkRow(c.content, Sha256(c.content), c.tokenCount, c.startToken) }

  function RowsOf(chunks: seq<Chunk>): seq<ChunkRow> {
    seq(|chunks|, i requires 0 <= i < |chunks| => RowOf(chunks[i]))
  }

  /** The chunks of a text at the default settings. */
  ghost function ChunksOfText(tok: Text -> seq<Token>, t: Text): seq<Chunk>
    requires IsTokenizer(tok)
  {
    TokensWellFormed(tok, t);
    Drafts(tok(t), TARGET_TOKENS, OverlapTokens(TARGET_TOKENS, OVERLAP_RATIO))
  }

  /** Each chunk becomes one row, in its place, with the digest of its text. */
  lemma RowsAreChunks(chunks: seq<Chunk>)
    ensures |RowsOf(chunks)| == |chunks|
    ensures forall i | 0 <= i < |chunks| ::
              && RowsOf(chunks)[i].content == chunks[i].content && RowsOf(chunks)[i].contentHash == Sha256(chunks[i].content)
              && RowsOf(chunks)[i].tokenCount == chunks[i].tokenCount && RowsOf(chunks)[i].startToken == chunks[i].startToken
  {}

  /** The default chunks have up to 750 tokens and overlap by 90. */
  lemma DefaultChunks(tok: Text -> seq<Token>, t: Text)
    requires IsTokenizer(tok)
    ensures WellFormed(Concat(tok(t))) && ChunksOfText(tok, t) == Drafts(tok(t), 750, 90)
  {
    hide IsTokenizer, Drafts, WellFormed, Concat, OverlapTokens;
    TokensWellFormed(tok, t);
    DefaultOverlap();
  }

  lemma DefaultOverlap()
    ensures OverlapTokens(TARGET_TOKENS, OVERLAP_RATIO) == 90 && TARGET_TOKENS == 750
  {}

  // ------------------------------------------------------------------- operations

  ghost function CreateContent(tok: Text -> seq<Token>, content: Text): Document
    requires IsTokenizer(tok)
  {
    Document(map[1 := Version(content, Sha256(content), RowsOf(ChunksOfText(tok, content)))], 1, Sha256(content), Ready)
  }

  /** A file's document starts with an empty version, before it is parsed. */
  function CreateUpload(): Document {
    Document(map[1 := Version([], Sha256([]), [])], 1, Sha256([]), Queued)
  }

  ghost function AppendContent(tok: Text -> seq<Token>, d: Document, expected: int, content: Text): (Document, Outcome)
    requires IsTokenizer(tok)
  {
    if d.currentVersion !in d.versions then (d, VersionMissing)
    else if d.versions[d.currentVersion].content == content then (d, Unchanged)
    else if d.currentVersion != expected then (d, Stale)
    else
      var next := d.currentVersion + 1;
      (d.(versions := d.versions[next := Version(content, Sha256(content), RowsOf(ChunksOfText(tok, content)))],
          currentVersion := next, contentHash := Sha256(content)), Saved)
  }

  function SaveExtraction(d: Document, text: Text, chunks: seq<Chunk>, extraction: Extraction): (Document, Outcome) {
    if d.currentVersion !in d.versions then (d, VersionMissing)
    else
      var d1 := if d.versions[d.currentVersion].content == text then d
                else d.(versions := d.versions[d.currentVersion + 1 := Version(text, Sha256(text), [])],
                        currentVersion := d.currentVersion + 1, contentHash := Sha256(text));
      var current := d1.versions[d1.currentVersion];
      (d1.(extraction := extraction,
           versions := if current.chunks == [] then d1.versions[d1.currentVersion := current.(chunks := RowsOf(chunks))] else d1.versions),
       Saved)
  }

  /** Chunks a current version that has content and no chunks, on an active source. */
  ghost function Backfill(tok: Text -> seq<Token>, d: Document, sourceActive: bool): Document
    requires IsTokenizer(tok)
  {
    if sourceActive && d.extraction in {Ready, Succeeded} && d.currentVersion in d.versions
       && d.versions[d.currentVersion].content != [] && d.versions[d.currentVersion].chunks == []
    then
      var current := d.versions[d.currentVersion];
      d.(versions := d.versions[d.currentVersion := current.(chunks := RowsOf(ChunksOfText(tok, current.content)))])
    else d
  }

  // ---------------------------------------------------------- what every document keeps

  /** Versions are 1 to the current one, neighbours differ, hashes and chunks are those of the content. */
  ghost predicate Consistent(tok: Text -> seq<Token>, d: Document)
    requires IsTokenizer(tok)
  {
    && d.currentVersion >= 1
    && (forall n :: n in d.versions <==> 1 <= n <= d.currentVersion)
    && (forall n | n in d.versions :: d.versions[n].contentHash == Sha256(d.versions[n].content))
    && d.contentHash == d.versions[d.currentVersion].contentHash
    && (forall n | n in d.versions && n + 1 in d.versions :: d.versions[n].content != d.versions[n + 1].content)
    && (forall n | n in d.versions :: d.versions[n].chunks == [] || d.versions[n].chunks == RowsOf(ChunksOfText(tok, d.versions[n].content)))
  }

  /** Versions are never dropped or altered; chunks are filled in once. */
  ghost predicate Extends(d: Document, e: Document) {
    && d.currentVersion <= e.currentVersion
    && forall n | n in d.versions ::
         && n in e.versions && e.versions[n].content == d.versions[n].content && e.versions[n].contentHash == d.versions[n].contentHash
         && (d.versions[n].chunks != [] ==> e.versions[n].chunks == d.versions[n].chunks)
  }

  datatype Edit =
    | Append(expected: int, content: Text)
    | Extract(text: Text, needsOcr: bool)
    | Fill(sourceActive: bool)
    | Mark(extraction: Extraction)

  /** An edit; the worker extracts with the chunks of the text it extracted. */
  ghost function Apply(tok: Text -> seq<Token>, d: Document, e: Edit): Document
    requires IsTokenizer(tok)
  {
    match e
    case Append(expected, content) => AppendContent(tok, d, expected, content).0
    case Extract(text, needsOcr) => SaveExtraction(d, text, ChunksOfText(tok, text), if needsOcr then NeedsOcr else Succeeded).0
    case Fill(sourceActive) => Backfill(tok, d, sourceActive)
    case Mark(extraction) => d.(extraction := extraction)
  }

  ghost function ApplyAll(tok: Text -> seq<Token>, d: Document, edits: seq<Edit>): Document
    requires IsTokenizer(tok)
  {
    if edits == [] then d else Apply(tok, ApplyAll(tok, d, edits[..|edits| - 1]), edits[|edits| - 1])
  }

  lemma NewDocumentsConsistent(tok: Text -> seq<Token>, content: Text)
    requires IsTokenizer(tok)
    ensures Consistent(tok, CreateContent(tok, content)) && Consistent(tok, CreateUpload())
  {
    hide ChunksOfText, RowsOf, IsTokenizer;
  }

  lemma AppendKeeps(tok: Text -> seq<Token>, d: Document, expected: int, content: Text)
    requires IsTokenizer(tok) && Consistent(tok, d)
    ensures var e := AppendContent(tok, d, expected, content).0; Consistent(tok, e) && Extends(d, e)
    ensures AppendContent(tok, d, expected, content).1 != VersionMissing
  {
    hide ChunksOfText, RowsOf, IsTokenizer;
  }

  lemma ExtractKeeps(tok: Text -> seq<Token>, d: Document, text: Text, extraction: Extraction)
    requires IsTokenizer(tok) && Consistent(tok, d)
    ensures var e := SaveExtraction(d, text, ChunksOfText(tok, text), extraction).0;
            && Consistent(tok, e) && Extends(d, e)
            && e.versions[e.currentVersion].content == text
            && e.versions[e.currentVersion].chunks == RowsOf(ChunksOfText(tok, text))
  {
    hide ChunksOfText, RowsOf, IsTokenizer;
  }

  lemma BackfillKeeps(tok: Text -> seq<Token>, d: Document, sourceActive: bool)
    requires IsTokenizer(tok) && Consistent(tok, d)
    ensures var e := Backfill(tok, d, sourceActive); Consistent(tok, e) && Extends(d, e)
  {
    hide ChunksOfText, RowsOf, IsTokenizer;
  }

  /** However a document is edited, it stays consistent and keeps every version it had. */
  lemma {:induction false} EditsKeepVersions(tok: Text -> seq<Token>, d: Document, edits: seq<Edit>)
    requires IsTokenizer(tok) && Consistent(tok, d)
    ensures Consistent(tok, ApplyAll(tok, d, edits)) && Extends(d, ApplyAll(tok, d, edits))
  {
    hide ChunksOfText, RowsOf, IsTokenizer, AppendContent, SaveExtraction, Backfill;
    if edits != [] {
      var before := ApplyAll(tok, d, edits[..|edits| - 1]);
      EditsKeepVersions(tok, d, edits[..|edits| - 1]);
      match edits[|edits| - 1]
      case Append(expected, content) => AppendKeeps(tok, before, expected, content);
      case Extract(text, needsOcr) => ExtractKeeps(tok, before, text, if needsOcr then NeedsOcr else Succeeded);
      case Fill(sourceActive) => BackfillKeeps(tok, before, sourceActive);
      case Mark(_) =>
    }
  }

  lemma {:induction false} EditsJoin(tok: Text -> seq<Token>, d: Document, before: seq<Edit>, more: seq<Edit>)
    requires IsTokenizer(tok)
    ensures ApplyAll(tok, d, before + more) == ApplyAll(tok, ApplyAll(tok, d, before), more)
    decreases |more|
  {
    hide IsTokenizer, Apply;
    if more == [] {
      assert before + more == before;
    } else {
      assert (before + more)[..|before + more| - 1] == before + more[..|more| - 1];
      EditsJoin(tok, d, before, more[..|more| - 1]);
    }
  }

  /** Of two moments of a document's history, the later one has every version of the earlier. */
  lemma {:induction false} LaterExtendsEarlier(tok: Text -> seq<Token>, d: Document, edits: seq<Edit>, i: nat, j: nat)
    requires IsTokenizer(tok) && Consistent(tok, d) && i <= j <= |edits|
    ensures Consistent(tok, ApplyAll(tok, d, edits[..i])) && Consistent(tok, ApplyAll(tok, d, edits[..j]))
    ensures Extends(ApplyAll(tok, d, edits[..i]), ApplyAll(tok, d, edits[..j]))
  {
    hide IsTokenizer, ApplyAll, Consistent, Extends;
    EditsKeepVersions(tok, d, edits[..i]);
    EditsKeepVersions(tok, d, edits[..j]);
    assert edits[..j] == edits[..i] + edits[i..j];
    EditsJoin(tok, d, edits[..i], edits[i..j]);
    EditsKeepVersions(tok, ApplyAll(tok, d, edits[..i]), edits[i..j]);
  }

  /**
   Which write is saved. A writer has read a document; edits follow; then it writes against the
   version it read. If the content differs from the current one, the write is saved exactly when
   no version was added since, as the next version with that content and its chunks; else it is
   stale and changes nothing. If the content is the current one, nothing changes either.
   */
  lemma {:induction false} WriteAgainstRead(tok: Text -> seq<Token>, d: Document, edits: seq<Edit>, content: Text)
    requires IsTokenizer(tok) && Consistent(tok, d)
    ensures var now := ApplyAll(tok, d, edits);
            && now.currentVersion in now.versions && d.currentVersion <= now.currentVersion
            && var (e, outcome) := AppendContent(tok, now, d.currentVersion, content);
            && (now.versions[now.currentVersion].content == content ==> outcome == Unchanged && e == now)
            && (now.versions[now.currentVersion].content != content ==>
                  && (outcome == Saved <==> now.currentVersion == d.currentVersion)
                  && (outcome == Saved ==>
                        && e.currentVersion == d.currentVersion + 1 && e.currentVersion in e.versions
                        && e.versions == now.versions[e.currentVersion := Version(content, Sha256(content), RowsOf(ChunksOfText(tok, content)))]
                        && e.contentHash == Sha256(content) && e.extraction == now.extraction)
                  && (outcome != Saved ==> outcome == Stale && e == now))
  {
    hide IsTokenizer, ChunksOfText, RowsOf, ApplyAll;
    EditsKeepVersions(tok, d, edits);
  }

  /** What an extraction adds: one version with the text if the current one differs, none otherwise, and its outcome. */
  lemma ExtractAdds(tok: Text -> seq<Token>, d: Document, text: Text, extraction: Extraction)
    requires IsTokenizer(tok) && Consistent(tok, d)
    ensures var (e, outcome) := SaveExtraction(d, text, ChunksOfText(tok, text), extraction);
            && outcome == Saved && e.extraction == extraction
            && e.currentVersion == d.currentVersion + (if d.versions[d.currentVersion].content == text then 0 else 1)
            && e.currentVersion in e.versions && e.versions[e.currentVersion].content == text && e.contentHash == Sha256(text)
  {
    hide IsTokenizer, ChunksOfText, RowsOf;
  }

  /** What a backfill completes: on an active source a readable current version has its chunks afterwards; elsewhere nothing changes. */
  lemma BackfillCompletes(tok: Text -> seq<Token>, d: Document, sourceActive: bool)
    requires IsTokenizer(tok) && Consistent(tok, d)
    ensures var e := Backfill(tok, d, sourceActive); var content := d.versions[d.currentVersion].content;
            && e == d.(versions := e.versions) && e.currentVersion in e.versions
            && (sourceActive && d.extraction in {Ready, Succeeded} && content != [] ==>
                  e.versions[e.currentVersion].chunks == RowsOf(ChunksOfText(tok, content)))
            && (!sourceActive || d.extraction !in {Ready, Succeeded} || content == [] ==> e == d)
  {
    hide IsTokenizer, ChunksOfText, RowsOf;
  }

  /** What a document starts with. */
  lemma DocumentsStart(tok: Text -> seq<Token>, content: Text)
    requires IsTokenizer(tok)
    ensures var d := CreateContent(tok, content);
            && d.currentVersion == 1 && d.versions.Keys == {1} && d.versions[1].content == content && d.extraction == Ready
            && d.versions[1].chunks == RowsOf(ChunksOfText(tok, content))
    ensures var d := CreateUpload();
            d.currentVersion == 1 && d.versions.Keys == {1} && d.versions[1].content == [] && d.versions[1].chunks == [] && d.extraction == Queued
  {
    hide IsTokenizer, ChunksOfText, RowsOf;
  }

  /** No lost update: of two different contents written against the same version only the first is saved. */
  lemma SecondWriterIsStale(tok: Text -> seq<Token>, d: Document, expected: int, first: Text, second: Text)
    requires IsTokenizer(tok) && Consistent(tok, d) && first != second
    requires AppendContent(tok, d, expected, first).1 == Saved
    ensures var e := AppendContent(tok, d, expected, first).0; AppendContent(tok, e, expected, second) == (e, Stale)
  {
    hide ChunksOfText, RowsOf, IsTokenizer;
  }

  /** Repeating a write changes nothing, whichever version it was made against. */
  lemma RepeatedWriteIsUnchanged(tok: Text -> seq<Token>, d: Document, expected: int, content: Text, again: int)
    requires IsTokenizer(tok) && Consistent(tok, d)
    requires AppendContent(tok, d, expected, content).1 in {Saved, Unchanged}
    ensures var e := AppendContent(tok, d, expected, content).0; AppendContent(tok, e, again, content) == (e, Unchanged)
  {
    hide ChunksOfText, RowsOf, IsTokenizer;
  }

  // -------------------------------------------------------------------- the rows

  /** The rows of one document, edited in place. */
  class Rows {
    const tok: Text -> seq<Token>
    var versions: map<int, Version>
    var currentVersion: int
    var contentHash: Digest
    var extraction: Extraction

    function View(): Document
      reads this
    {
      Document(versions, currentVersion, contentHash, extraction)
    }

    ghost predicate Valid()
      reads this
    {
      IsTokenizer(tok) && Consistent(tok, View())
    }

    /** create_document. */
    constructor FromContent(tok: Text -> seq<Token>, content: Text)
      requires IsTokenizer(tok)
      ensures Valid() && this.tok == tok && View() == CreateContent(tok, content)
    {
      hide IsTokenizer, ChunksOfText, Drafts, Consistent;
      TokensWellFormed(tok, content);
      this.tok := tok;
      versions, currentVersion, contentHash, extraction := map[1 := Version(content, Sha256(content), [])], 1, Sha256(content), Ready;
      new;
      AddChunks(1);
      assert versions == map[1 := Version(content, Sha256(content), RowsOf(ChunksOfText(tok, content)))];
      NewDocumentsConsistent(tok, content);
    }

    /** add_uploaded_document. */
    constructor FromUpload(tok: Text -> seq<Token>)
      requires IsTokenizer(tok)
      ensures Valid() && this.tok == tok && View() == CreateUpload()
    {
      this.tok := tok;
      versions, currentVersion, contentHash, extraction := map[1 := Version([], Sha256([]), [])], 1, Sha256([]), Queued;
      new;
      NewDocumentsConsistent(tok, []);
    }

    /** add_content_chunks: one row a chunk, in order. */
    method AddChunks(number: int)
      requires IsTokenizer(tok) && number in versions && versions[number].chunks == []
      modifies this`versions
      ensures versions == old(versions)[number := old(versions)[number].(chunks := RowsOf(ChunksOfText(tok, old(versions)[number].content)))]
    {
      hide Drafts;
      var content := versions[number].content;
      TokensWellFormed(tok, content);
      assert Concat(tok(content)) == Encode(content);
      var drafts := ChunkText(content, tok(content), TARGET_TOKENS, OVERLAP_RATIO);
      hide IsTokenizer;
      var rows: seq<ChunkRow> := [];
      for index := 0 to |drafts.value|
        invariant versions == old(versions) && rows == RowsOf(drafts.value)[..index]
      {
        var draft := drafts.value[index];
        rows := rows + [ChunkRow(draft.content, Sha256(draft.content), draft.tokenCount, draft.startToken)];
      }
      assert rows == RowsOf(drafts.value);
      versions := versions[number := versions[number].(chunks := rows)];
    }

    /** append_content: the same content changes nothing; other content needs the version it was made against. */
    method Append(expected: int, content: Text) returns (outcome: Outcome)
      requires Valid()
      modifies this
      ensures Valid() && (View(), outcome) == AppendContent(tok, old(View()), expected, content)
      ensures Extends(old(View()), View())
    {
      hide IsTokenizer, ChunksOfText, Consistent, Extends, RowsOf;
      AppendKeeps(tok, View(), expected, content);
      if currentVersion !in versions { return VersionMissing; }
      if versions[currentVersion].content == content { return Unchanged; }
      if currentVersion != expected { return Stale; }
      NextIsFree(tok, View());
      var next := currentVersion + 1;
      versions := versions[next := Version(content, Sha256(content), [])];
      AddChunks(next);
      currentVersion := next;
      contentHash := Sha256(content);
      assert versions == old(versions)[next := versions[next]];
      outcome := Saved;
    }

    /** save_extraction. */
    method Extract(text: Text, chunks: seq<Chunk>, status: Extraction) returns (outcome: Outcome)
      requires Valid()
      modifies this
      ensures (View(), outcome) == SaveExtraction(old(View()), text, chunks, status)
      ensures chunks == ChunksOfText(tok, text) ==> Valid() && Extends(old(View()), View())
    {
      hide IsTokenizer, ChunksOfText, Consistent, Extends;
      ExtractKeeps(tok, View(), text, status);
      if currentVersion !in versions { return VersionMissing; }
      if versions[currentVersion].content != text {
        var digest := Sha256(text);
        versions := versions[currentVersion + 1 := Version(text, digest, [])];
        currentVersion := currentVersion + 1;
        contentHash := digest;
      }
      extraction := status;
      if versions[currentVersion].chunks == [] {
        ghost var before := versions;
        var rows: seq<ChunkRow> := [];
        for index := 0 to |chunks|
          invariant View() == Document(before, currentVersion, contentHash, status) && currentVersion in before
          invariant currentVersion == SaveExtraction(old(View()), text, chunks, status).0.currentVersion
          invariant contentHash == SaveExtraction(old(View()), text, chunks, status).0.contentHash
          invariant rows == RowsOf(chunks)[..index]
        {
          rows := rows + [ChunkRow(chunks[index].content, Sha256(chunks[index].content), chunks[index].tokenCount, chunks[index].startToken)];
        }
        assert rows == RowsOf(chunks);
        versions := versions[currentVersion := versions[currentVersion].(chunks := rows)];
      }
      outcome := Saved;
    }

    /** backfill_current_chunks, for one document. */
    method FillChunks(sourceActive: bool)
      requires Valid()
      modifies this`versions
      ensures Valid() && View() == Backfill(tok, old(View()), sourceActive) && Extends(old(View()), View())
    {
      hide IsTokenizer, ChunksOfText, Consistent, Extends;
      BackfillKeeps(tok, View(), sourceActive);
      if sourceActive && extraction in {Ready, Succeeded} && currentVersion in versions
         && versions[currentVersion].content != [] && versions[currentVersion].chunks == [] {
        AddChunks(currentVersion);
      }
    }
  }

  lemma NextIsFree(tok: Text -> seq<Token>, d: Document)
    requires IsTokenizer(tok) && Consistent(tok, d)
    ensures d.currentVersion + 1 !in d.versions
  {}
}
