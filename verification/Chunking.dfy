/**
 The text chunker. Chunks are cut at token boundaries where the bytes so far are complete
 UTF-8, so every chunk decodes; neighbouring chunks overlap by a share of the target size.

 The tokens of a text are given: byte strings whose concatenation is the text's encoding.
 */
module Chunking {
  import opened Wrappers
  import opened Utf8

  type Token = seq<Byte>

  datatype Chunk = Chunk(content: Text, tokenCount: nat, startToken: nat)

  datatype Error = InvalidSettings

  function Concat(tokens: seq<Token>): seq<Byte> {
    if tokens == [] then [] else Concat(tokens[..|tokens| - 1]) + tokens[|tokens| - 1]
  }

  /** The bytes of tokens i up to, not including, j. */
  function Bytes(tokens: seq<Token>, i: nat, j: nat): seq<Byte>
    requires i <= j <= |tokens|
  {
    Concat(tokens[i..j])
  }

  lemma {:induction false} BytesSplit(tokens: seq<Token>, i: nat, j: nat, k: nat)
    requires i <= j <= k <= |tokens|
    ensures Bytes(tokens, i, k) == Bytes(tokens, i, j) + Bytes(tokens, j, k)
  {
    if j == k {
      assert tokens[j..k] == [];
    } else {
      BytesSplit(tokens, i, j, k - 1);
      assert tokens[i..k][..k - i - 1] == tokens[i..k - 1];
      assert tokens[j..k][..k - j - 1] == tokens[j..k - 1];
    }
  }

  lemma BytesEnds(tokens: seq<Token>, index: nat)
    requires index < |tokens|
    ensures Bytes(tokens, 0, index + 1) == Bytes(tokens, 0, index) + tokens[index]
    ensures Bytes(tokens, 0, |tokens|) == Concat(tokens)
  {
    assert tokens[0..|tokens|] == tokens && tokens[0..index + 1][..index] == tokens[0..index];
  }

  // ---------------------------------------------------------------- boundaries

  /** A place between tokens where the bytes so far are well-formed UTF-8. */
  ghost predicate IsBoundary(tokens: seq<Token>, k: int) {
    0 <= k <= |tokens| && WellFormed(Bytes(tokens, 0, k))
  }

  /** The boundaries among the first n tokens. */
  ghost function Boundaries(tokens: seq<Token>, n: nat): set<nat> {
    set k | 0 <= k <= n && IsBoundary(tokens, k)
  }

  /** The list holds exactly the places of `cuts`, in order. */
  ghost predicate Lists(list: seq<nat>, cuts: set<nat>) {
    && (forall i, j | 0 <= i < j < |list| :: list[i] < list[j])
    && (forall k :: k in list <==> k in cuts)
  }

  lemma ListsOneMore(list: seq<nat>, cuts: set<nat>, k: nat)
    requires Lists(list, cuts) && forall c | c in cuts :: c < k
    ensures Lists(list + [k], cuts + {k})
  {
    forall i, j | 0 <= i < j < |list + [k]| ensures (list + [k])[i] < (list + [k])[j] {
      assert list[i] in list;
    }
  }

  /** Feeding token `index` after the tokens before it leaves nothing pending exactly at a boundary. */
  lemma {:induction false} PendingAfter(tokens: seq<Token>, index: nat)
    requires index < |tokens| && WellFormed(Concat(tokens))
    ensures Bytes(tokens, 0, index + 1) == Bytes(tokens, 0, index) + tokens[index]
    ensures Drain(Bytes(tokens, 0, index)).Drained?
    ensures Drain(Bytes(tokens, 0, index + 1)) ==
            Prepend(Drain(Bytes(tokens, 0, index)).text, Drain(Drain(Bytes(tokens, 0, index)).rest + tokens[index]))
    ensures Drain(Bytes(tokens, 0, index + 1)).Drained?
    ensures Drain(Bytes(tokens, 0, index + 1)).rest == [] <==> IsBoundary(tokens, index + 1)
  {
    hide Drain, Bytes, WellFormed, Prepend;
    var seen, now := Bytes(tokens, 0, index), Bytes(tokens, 0, index + 1);
    BytesEnds(tokens, index);
    BytesSplit(tokens, 0, index, |tokens|);
    BytesSplit(tokens, 0, index + 1, |tokens|);
    PrefixOfWellFormed(seen, Bytes(tokens, index, |tokens|));
    PrefixOfWellFormed(now, Bytes(tokens, index + 1, |tokens|));
    DrainAppend(seen, tokens[index]);
    DecodesIffWellFormed(now);
  }

  lemma {:induction false} EdgesAreBoundaries(tokens: seq<Token>)
    requires WellFormed(Concat(tokens))
    ensures IsBoundary(tokens, 0) && IsBoundary(tokens, |tokens|)
    ensures Drain(Bytes(tokens, 0, 0)) == Drained([], [])
  {
    assert tokens[0..|tokens|] == tokens;
    assert Encode([]) == Bytes(tokens, 0, 0);
  }

  /** Feeds the tokens to an incremental decoder and notes where nothing is pending. */
  method FindBoundaries(tokens: seq<Token>) returns (boundaries: seq<nat>)
    requires WellFormed(Concat(tokens))
    ensures Lists(boundaries, Boundaries(tokens, |tokens|))
  {
    hide Drain, IsBoundary, Lists, Bytes;
    EdgesAreBoundaries(tokens);
    boundaries := [0];
    OnlyZero(tokens);
    var decoder := new IncrementalDecoder();
    for index := 0 to |tokens|
      invariant fresh(decoder)
      invariant Lists(boundaries, Boundaries(tokens, index))
      invariant Drain(Bytes(tokens, 0, index)).Drained?
      invariant decoder.pending == Drain(Bytes(tokens, 0, index)).rest
    {
      PendingAfter(tokens, index);
      var _ := decoder.Decode(tokens[index]);
      ghost var before, after := Boundaries(tokens, index), Boundaries(tokens, index + 1);
      if decoder.pending == [] {
        ListsOneMore(boundaries, before, index + 1);
        assert after == before + {index + 1};
        boundaries := boundaries + [index + 1];
      } else {
        assert after == before;
      }
    }
  }

  lemma OnlyZero(tokens: seq<Token>)
    requires IsBoundary(tokens, 0)
    ensures Lists([0], Boundaries(tokens, 0))
  {}

  // ---------------------------------------------------------- searching boundaries

  /** The largest cut between lo and hi, both included. */
  ghost function LargestIn(cuts: set<nat>, lo: nat, hi: int): (r: Option<nat>)
    ensures r.Some? ==> r.value in cuts && lo <= r.value <= hi
    ensures forall b | b in cuts && lo <= b <= hi :: r.Some? && b <= r.value
    decreases hi - lo
  {
    if hi < lo then None else if hi in cuts then Some(hi) else LargestIn(cuts, lo, hi - 1)
  }

  /** The smallest cut above x; n is one. */
  ghost function NextAfter(cuts: set<nat>, x: nat, n: nat): (r: nat)
    requires n in cuts && x < n
    ensures r in cuts && x < r <= n
    ensures forall b | b in cuts && x < b :: r <= b
    decreases n - x
  {
    if x + 1 in cuts then x + 1 else NextAfter(cuts, x + 1, n)
  }

  /** bisect.bisect_right: how many elements are at most x. */
  method BisectRight(s: seq<nat>, x: int) returns (pos: nat)
    requires forall i, j | 0 <= i < j < |s| :: s[i] < s[j]
    ensures pos <= |s|
    ensures forall i | 0 <= i < pos :: s[i] <= x
    ensures forall i | pos <= i < |s| :: x < s[i]
  {
    var lo, hi := 0, |s|;
    while lo < hi
      invariant 0 <= lo <= hi <= |s|
      invariant forall i | 0 <= i < lo :: s[i] <= x
      invariant forall i | hi <= i < |s| :: x < s[i]
    {
      var mid := (lo + hi) / 2;
      if x < s[mid] { hi := mid; } else { lo := mid + 1; }
    }
    pos := lo;
  }

  // ------------------------------------------------------------------- the cuts

  datatype Span = Span(start: nat, end: nat)

  /** Where a chunk that starts at `start` ends: the largest cut within the target size, else the next one. */
  ghost function EndFrom(cuts: set<nat>, n: nat, target: nat, start: nat): (end: nat)
    requires n in cuts && start < n
    ensures start < end <= n && end in cuts
  {
    var within := LargestIn(cuts, start + 1, if start + target < n then start + target else n);
    if within.Some? then within.value else NextAfter(cuts, start, n)
  }

  /** Where the next chunk starts: the largest cut that leaves the overlap, if it moves forward. */
  ghost function StartFrom(cuts: set<nat>, overlap: nat, span: Span): (next: nat)
    requires span.end in cuts && span.start < span.end
    ensures span.start < next <= span.end && next in cuts
  {
    var back := LargestIn(cuts, span.start + 1, span.end - overlap);
    if back.Some? then back.value else span.end
  }

  /** The spans of the chunks from `start` on. */
  ghost function Spans(cuts: set<nat>, n: nat, target: nat, overlap: nat, start: nat): (r: seq<Span>)
    requires n in cuts && start < n
    decreases n - start
  {
    var span := Span(start, EndFrom(cuts, n, target, start));
    [span] + if span.end == n then [] else Spans(cuts, n, target, overlap, StartFrom(cuts, overlap, span))
  }

  // ----------------------------------------------------- what the cuts guarantee

  ghost predicate Sound(cuts: set<nat>, n: nat, target: nat, span: Span) {
    && span.start in cuts && span.start < span.end <= n && n in cuts
    && span.end == EndFrom(cuts, n, target, span.start)
  }

  /** Every span is sound, each starts where the one before says, and only the last reaches the end. */
  ghost predicate Chained(cuts: set<nat>, n: nat, target: nat, overlap: nat, s: seq<Span>) {
    && (forall i | 0 <= i < |s| :: Sound(cuts, n, target, s[i]))
    && (forall i | 0 <= i < |s| - 1 :: s[i].end < n && s[i + 1].start == StartFrom(cuts, overlap, s[i]))
    && s != [] && s[|s| - 1].end == n
  }

  lemma {:induction false} SpansChained(cuts: set<nat>, n: nat, target: nat, overlap: nat, start: nat)
    requires n in cuts && start < n && start in cuts
    ensures Spans(cuts, n, target, overlap, start) != []
    ensures Spans(cuts, n, target, overlap, start)[0].start == start
    ensures Chained(cuts, n, target, overlap, Spans(cuts, n, target, overlap, start))
    decreases n - start
  {
    var span := Span(start, EndFrom(cuts, n, target, start));
    if span.end < n {
      var next := StartFrom(cuts, overlap, span);
      SpansChained(cuts, n, target, overlap, next);
      ChainedCons(cuts, n, target, overlap, span, Spans(cuts, n, target, overlap, next));
    }
  }

  lemma ChainedCons(cuts: set<nat>, n: nat, target: nat, overlap: nat, span: Span, rest: seq<Span>)
    requires Sound(cuts, n, target, span) && span.end < n
    requires Chained(cuts, n, target, overlap, rest) && rest[0].start == StartFrom(cuts, overlap, span)
    ensures Chained(cuts, n, target, overlap, [span] + rest)
  {
    var s := [span] + rest;
    forall i | 0 <= i < |s| ensures Sound(cuts, n, target, s[i]) {
      if i > 0 { assert s[i] == rest[i - 1]; }
    }
    forall i | 0 <= i < |s| - 1 ensures s[i].end < n && s[i + 1].start == StartFrom(cuts, overlap, s[i]) {
      if i > 0 { assert s[i] == rest[i - 1] && s[i + 1] == rest[i]; }
    }
  }

  /** One step on: the start moves forward, the end does not move back, and the chunks share nothing or at least the overlap. */
  lemma StepForward(cuts: set<nat>, n: nat, target: nat, overlap: nat, a: Span, b: Span)
    requires Sound(cuts, n, target, a) && Sound(cuts, n, target, b)
    requires b.start == StartFrom(cuts, overlap, a)
    ensures a.start < b.start <= a.end <= b.end
    ensures b.start < a.end ==> a.end - b.start >= overlap
  {
    if b.start < a.end <= a.start + target {
      assert LargestIn(cuts, b.start + 1, if b.start + target < n then b.start + target else n).Some?;
    }
  }

  /** Two steps on, the end has moved. */
  lemma TwoStepsForward(cuts: set<nat>, n: nat, target: nat, overlap: nat, a: Span, b: Span, c: Span)
    requires Sound(cuts, n, target, a) && Sound(cuts, n, target, b) && Sound(cuts, n, target, c)
    requires b.start == StartFrom(cuts, overlap, a) && c.start == StartFrom(cuts, overlap, b)
    ensures a.end < c.end
  {
    StepForward(cuts, n, target, overlap, a, b);
    StepForward(cuts, n, target, overlap, b, c);
    if b.end == a.end {
      assert LargestIn(cuts, b.start + 1, b.end - overlap).None?;
    }
  }

  // -------------------------------------------------------- chunks and their text

  /** The text of tokens i up to, not including, j; nothing where those bytes do not decode. */
  ghost function TextOf(tokens: seq<Token>, i: nat, j: nat): Text
    requires i <= j <= |tokens|
  {
    if Decode(Bytes(tokens, i, j)).Some? then Decode(Bytes(tokens, i, j)).value else []
  }

  /** Every slice between two boundaries decodes, and texts of neighbouring slices concatenate. */
  lemma SliceText(tokens: seq<Token>, i: nat, j: nat, k: nat)
    requires i <= j <= k
    requires IsBoundary(tokens, i) && IsBoundary(tokens, j) && IsBoundary(tokens, k)
    ensures Decode(Bytes(tokens, i, j)).Some?
    ensures TextOf(tokens, i, k) == TextOf(tokens, i, j) + TextOf(tokens, j, k)
  {
    hide Decode, Bytes;
    BytesSplit(tokens, 0, i, j);
    BytesSplit(tokens, 0, i, k);
    BytesSplit(tokens, i, j, k);
    DecodeConcat(Bytes(tokens, 0, i), Bytes(tokens, i, j));
    DecodeConcat(Bytes(tokens, 0, i), Bytes(tokens, i, k));
    DecodeConcat(Bytes(tokens, i, j), Bytes(tokens, j, k));
  }

  ghost predicate Within(tokens: seq<Token>, s: seq<Span>) {
    forall i | 0 <= i < |s| :: s[i].start <= s[i].end <= |tokens|
  }

  ghost function ChunkOf(tokens: seq<Token>, span: Span): Chunk
    requires span.start <= span.end <= |tokens|
  {
    Chunk(TextOf(tokens, span.start, span.end), span.end - span.start, span.start)
  }

  ghost function ChunksOf(tokens: seq<Token>, s: seq<Span>): (r: seq<Chunk>)
    requires Within(tokens, s)
    ensures |r| == |s|
  {
    if s == [] then [] else [ChunkOf(tokens, s[0])] + ChunksOf(tokens, s[1..])
  }

  lemma {:induction false} ChunksOfAt(tokens: seq<Token>, s: seq<Span>, i: nat)
    requires Within(tokens, s) && i < |s|
    ensures ChunksOf(tokens, s)[i] == ChunkOf(tokens, s[i])
  {
    hide ChunkOf;
    if i > 0 { ChunksOfAt(tokens, s[1..], i - 1); }
  }

  /** The spans of a tokenized text. */
  ghost function Layout(tokens: seq<Token>, target: nat, overlap: nat): (s: seq<Span>)
    requires WellFormed(Concat(tokens))
    ensures Within(tokens, s)
    ensures tokens == [] ==> s == []
    ensures tokens != [] ==> s != [] && s[0].start == 0 && Chained(Boundaries(tokens, |tokens|), |tokens|, target, overlap, s)
  {
    if tokens == [] then []
    else
      EdgesAreBoundaries(tokens);
      SpansChained(Boundaries(tokens, |tokens|), |tokens|, target, overlap, 0);
      Spans(Boundaries(tokens, |tokens|), |tokens|, target, overlap, 0)
  }

  /** The chunks of a tokenized text. */
  ghost function Drafts(tokens: seq<Token>, target: nat, overlap: nat): seq<Chunk>
    requires WellFormed(Concat(tokens))
  {
    ChunksOf(tokens, Layout(tokens, target, overlap))
  }

  /** The end of a chunk, in tokens, as its metadata gives it. */
  function EndToken(c: Chunk): nat { c.startToken + c.tokenCount }

  // --------------------------------------------------------------- main results

  lemma BoundaryIsCut(tokens: seq<Token>, k: nat)
    ensures k in Boundaries(tokens, |tokens|) <==> IsBoundary(tokens, k)
  {
    hide WellFormed;
  }

  /** One chunk and the cuts around it. */
  lemma DraftAt(tokens: seq<Token>, target: nat, overlap: nat, i: nat)
    requires WellFormed(Concat(tokens)) && i < |Drafts(tokens, target, overlap)|
    ensures i < |Layout(tokens, target, overlap)|
    ensures Drafts(tokens, target, overlap)[i] == ChunkOf(tokens, Layout(tokens, target, overlap)[i])
    ensures Sound(Boundaries(tokens, |tokens|), |tokens|, target, Layout(tokens, target, overlap)[i])
    ensures i + 1 == |Layout(tokens, target, overlap)| <==> Layout(tokens, target, overlap)[i].end == |tokens|
    ensures i + 1 < |Layout(tokens, target, overlap)| ==>
              Layout(tokens, target, overlap)[i + 1].start == StartFrom(Boundaries(tokens, |tokens|), overlap, Layout(tokens, target, overlap)[i])
  {
    hide WellFormed, IsBoundary, Boundaries, Layout, ChunkOf, Sound;
    ChunksOfAt(tokens, Layout(tokens, target, overlap), i);
  }

  /** Coverage, one chunk: it is cut at boundaries, and only the last reaches the last token. */
  lemma ChunkEdges(tokens: seq<Token>, target: nat, overlap: nat, i: nat)
    requires WellFormed(Concat(tokens)) && i < |Drafts(tokens, target, overlap)|
    ensures var c := Drafts(tokens, target, overlap);
            && IsBoundary(tokens, c[i].startToken) && IsBoundary(tokens, EndToken(c[i])) && c[i].tokenCount >= 1
            && Decode(Bytes(tokens, c[i].startToken, EndToken(c[i]))) == Some(c[i].content)
            && (EndToken(c[i]) == |tokens| <==> i == |c| - 1)
            && (i == 0 ==> c[i].startToken == 0)
  {
    hide WellFormed, IsBoundary, Boundaries, Layout, Drafts, Decode, Bytes;
    DraftAt(tokens, target, overlap, i);
    var span := Layout(tokens, target, overlap)[i];
    BoundaryIsCut(tokens, span.start);
    BoundaryIsCut(tokens, span.end);
    SliceText(tokens, span.start, span.end, span.end);
    SameCount(tokens, target, overlap);
  }

  lemma SameCount(tokens: seq<Token>, target: nat, overlap: nat)
    requires WellFormed(Concat(tokens))
    ensures |Drafts(tokens, target, overlap)| == |Layout(tokens, target, overlap)|
  {
    hide WellFormed, Layout;
  }

  /** Coverage, two neighbours: starts move forward, ends do not move back, and no token lies between two chunks. */
  lemma ChunksAdvance(tokens: seq<Token>, target: nat, overlap: nat, i: nat)
    requires WellFormed(Concat(tokens)) && overlap < target && i + 1 < |Drafts(tokens, target, overlap)|
    ensures var c := Drafts(tokens, target, overlap);
            c[i].startToken < c[i + 1].startToken <= EndToken(c[i]) <= EndToken(c[i + 1])
  {
    hide WellFormed, IsBoundary, Boundaries, Layout, Drafts, Sound, TextOf;
    DraftAt(tokens, target, overlap, i);
    DraftAt(tokens, target, overlap, i + 1);
    var s := Layout(tokens, target, overlap);
    SameCount(tokens, target, overlap);
    StepForward(Boundaries(tokens, |tokens|), |tokens|, target, overlap, s[i], s[i + 1]);
  }

  /** Progress: at most two chunks share an end. */
  lemma ChunkEndsMove(tokens: seq<Token>, target: nat, overlap: nat, i: nat)
    requires WellFormed(Concat(tokens)) && overlap < target && i + 2 < |Drafts(tokens, target, overlap)|
    ensures EndToken(Drafts(tokens, target, overlap)[i]) < EndToken(Drafts(tokens, target, overlap)[i + 2])
  {
    hide WellFormed, IsBoundary, Boundaries, Layout, Drafts, Sound, TextOf;
    DraftAt(tokens, target, overlap, i);
    DraftAt(tokens, target, overlap, i + 1);
    DraftAt(tokens, target, overlap, i + 2);
    var s := Layout(tokens, target, overlap);
    SameCount(tokens, target, overlap);
    TwoStepsForward(Boundaries(tokens, |tokens|), |tokens|, target, overlap, s[i], s[i + 1], s[i + 2]);
  }

  /** Size: a chunk is as large as the target allows, and passes the target only where no smaller cut decodes. */
  lemma ChunkSizes(tokens: seq<Token>, target: nat, overlap: nat, i: nat, k: nat)
    requires WellFormed(Concat(tokens)) && i < |Drafts(tokens, target, overlap)|
    requires IsBoundary(tokens, k)
    ensures var c := Drafts(tokens, target, overlap)[i];
            && (EndToken(c) < k ==> c.startToken + target < k)
            && (c.startToken < k < EndToken(c) ==> c.tokenCount <= target)
  {
    hide WellFormed, Boundaries, Layout, Drafts, TextOf, Bytes;
    DraftAt(tokens, target, overlap, i);
    BoundaryIsCut(tokens, k);
  }

  /** Overlap: neighbours share no tokens or at least the overlap; they share the least such amount a boundary allows. */
  lemma ChunkOverlaps(tokens: seq<Token>, target: nat, overlap: nat, i: nat, k: nat)
    requires WellFormed(Concat(tokens)) && overlap < target && i + 1 < |Drafts(tokens, target, overlap)|
    requires IsBoundary(tokens, k)
    ensures var c, d := Drafts(tokens, target, overlap)[i], Drafts(tokens, target, overlap)[i + 1];
            && (d.startToken == EndToken(c) || EndToken(c) - d.startToken >= overlap)
            && (c.startToken < k <= EndToken(c) - overlap ==> k <= d.startToken <= EndToken(c) - overlap)
  {
    hide WellFormed, Boundaries, Layout, Drafts, TextOf, Bytes;
    DraftAt(tokens, target, overlap, i);
    DraftAt(tokens, target, overlap, i + 1);
    var s := Layout(tokens, target, overlap);
    SameCount(tokens, target, overlap);
    StepForward(Boundaries(tokens, |tokens|), |tokens|, target, overlap, s[i], s[i + 1]);
    BoundaryIsCut(tokens, k);
  }

  function Drop(t: Text, k: nat): Text { if k <= |t| then t[k..] else [] }

  /** Joins chunks after removing from each the tokens that are already covered. */
  ghost function Rebuild(tokens: seq<Token>, chunks: seq<Chunk>, covered: nat): Text
    requires covered <= |tokens|
  {
    if chunks == [] then [] else
      var c := chunks[0];
      var again := if c.startToken <= covered then |TextOf(tokens, c.startToken, covered)| else 0;
      Drop(c.content, again) + if EndToken(c) <= |tokens| then Rebuild(tokens, chunks[1..], EndToken(c)) else []
  }

  /** A chunk without the tokens already covered is the text of the tokens it adds. */
  lemma DropCovered(tokens: seq<Token>, i: nat, j: nat, k: nat)
    requires i <= j <= k
    requires IsBoundary(tokens, i) && IsBoundary(tokens, j) && IsBoundary(tokens, k)
    ensures Drop(TextOf(tokens, i, k), |TextOf(tokens, i, j)|) == TextOf(tokens, j, k)
  {
    hide TextOf, IsBoundary;
    SliceText(tokens, i, j, k);
  }

  lemma ChainedTail(cuts: set<nat>, n: nat, target: nat, overlap: nat, s: seq<Span>)
    requires Chained(cuts, n, target, overlap, s) && overlap < target
    ensures s[0].start in cuts && s[0].end in cuts && s[0].start < s[0].end <= n
    ensures |s| == 1 ==> s[0].end == n
    ensures |s| > 1 ==> Chained(cuts, n, target, overlap, s[1..]) && s[1].start <= s[0].end <= s[1].end
  {
    assert Sound(cuts, n, target, s[0]);
    if |s| > 1 { StepForward(cuts, n, target, overlap, s[0], s[1]); }
  }

  lemma RebuildCons(tokens: seq<Token>, c: Chunk, rest: seq<Chunk>, covered: nat)
    requires c.startToken <= covered <= EndToken(c) <= |tokens|
    ensures Rebuild(tokens, [c] + rest, covered)
         == Drop(c.content, |TextOf(tokens, c.startToken, covered)|) + Rebuild(tokens, rest, EndToken(c))
  {
    hide TextOf, Drop;
    assert ([c] + rest)[1..] == rest;
  }

  lemma RebuildOneMore(tokens: seq<Token>, s: seq<Span>, covered: nat)
    requires s != [] && Within(tokens, s) && s[0].start <= covered <= s[0].end
    requires IsBoundary(tokens, s[0].start) && IsBoundary(tokens, covered) && IsBoundary(tokens, s[0].end)
    ensures Rebuild(tokens, ChunksOf(tokens, s), covered)
         == TextOf(tokens, covered, s[0].end) + Rebuild(tokens, ChunksOf(tokens, s[1..]), s[0].end)
  {
    hide IsBoundary, TextOf, Rebuild, Drop;
    DropCovered(tokens, s[0].start, covered, s[0].end);
    RebuildCons(tokens, ChunkOf(tokens, s[0]), ChunksOf(tokens, s[1..]), covered);
  }

  lemma {:induction false} RebuildFrom(tokens: seq<Token>, target: nat, overlap: nat, s: seq<Span>, covered: nat)
    requires WellFormed(Concat(tokens)) && overlap < target
    requires s != [] && Chained(Boundaries(tokens, |tokens|), |tokens|, target, overlap, s) && Within(tokens, s)
    requires s[0].start <= covered <= s[0].end && IsBoundary(tokens, covered)
    ensures Rebuild(tokens, ChunksOf(tokens, s), covered) == TextOf(tokens, covered, |tokens|)
    decreases |s|
  {
    hide WellFormed, IsBoundary, TextOf, Boundaries, Chained, ChunksOf;
    var n := |tokens|;
    ChainedTail(Boundaries(tokens, n), n, target, overlap, s);
    var a := s[0];
    BoundaryIsCut(tokens, a.start);
    BoundaryIsCut(tokens, a.end);
    EdgesAreBoundaries(tokens);
    RebuildOneMore(tokens, s, covered);
    SliceText(tokens, covered, a.end, n);
    if |s| == 1 {
      SliceText(tokens, n, n, n);
    } else {
      RebuildFrom(tokens, target, overlap, s[1..], a.end);
    }
  }

  /** Round trip: dropping what each chunk repeats gives back the text, exactly. */
  lemma ChunksRebuildText(text: Text, tokens: seq<Token>, target: nat, overlap: nat)
    requires Concat(tokens) == Encode(text) && overlap < target
    ensures WellFormed(Concat(tokens))
    ensures Rebuild(tokens, Drafts(tokens, target, overlap), 0) == text
  {
    DecodeEncode(text);
    assert tokens[0..|tokens|] == tokens;
    if tokens != [] {
      EdgesAreBoundaries(tokens);
      RebuildFrom(tokens, target, overlap, Layout(tokens, target, overlap), 0);
    }
  }

  // ------------------------------------------------------------------ the program

  /** The overlap in tokens; the ratio is taken as an exact number. */
  function OverlapTokens(target: nat, ratio: real): (overlap: nat)
    requires 1 <= target && 0.0 <= ratio < 1.0
    ensures overlap < target && overlap as real <= target as real * ratio
    ensures overlap + 1 == target || target as real * ratio < (overlap + 1) as real
  {
    var share := (target as real * ratio).Floor;
    if share < target - 1 then share else target - 1
  }

  /** The end of the chunk that starts at `start`, found by bisection. */
  method FindEnd(boundaries: seq<nat>, ghost cuts: set<nat>, n: nat, target: nat, start: nat) returns (end: nat)
    requires Lists(boundaries, cuts) && n in cuts && start < n
    ensures end == EndFrom(cuts, n, target, start)
  {
    var desiredEnd := if start + target < n then start + target else n;
    var after := BisectRight(boundaries, desiredEnd);
    ghost var within := LargestIn(cuts, start + 1, desiredEnd);
    if after >= 1 && boundaries[after - 1] > start {
      end := boundaries[after - 1];
      assert end in boundaries;
      assert within.value in boundaries;
    } else {
      assert forall b | b in boundaries && b <= desiredEnd :: b <= start;
      assert within.None?;
      var next := BisectRight(boundaries, start);
      assert n in boundaries;
      end := boundaries[next];
      assert end in boundaries;
      ghost var least := NextAfter(cuts, start, n);
      assert least in boundaries;
    }
  }

  /** The start of the chunk after `span`, found by bisection. */
  method FindStart(boundaries: seq<nat>, ghost cuts: set<nat>, overlap: nat, span: Span) returns (next: nat)
    requires Lists(boundaries, cuts) && span.end in cuts && span.start < span.end
    ensures next == StartFrom(cuts, overlap, span)
  {
    var nextStart := span.start + 1;
    var overlapBoundary := span.end - overlap;
    var after := BisectRight(boundaries, overlapBoundary);
    ghost var back := LargestIn(cuts, nextStart, overlapBoundary);
    if after >= 1 && boundaries[after - 1] >= nextStart {
      next := boundaries[after - 1];
      assert next in boundaries;
      assert back.value in boundaries;
    } else {
      next := span.end;
      assert forall b | b in boundaries && b <= overlapBoundary :: b < nextStart;
    }
  }

  /** The chunks from `start` on, as the loop makes them. */
  ghost function ChunksFrom(tokens: seq<Token>, cuts: set<nat>, target: nat, overlap: nat, start: nat): seq<Chunk>
    requires |tokens| in cuts && start < |tokens|
    decreases |tokens| - start
  {
    var span := Span(start, EndFrom(cuts, |tokens|, target, start));
    [ChunkOf(tokens, span)]
    + if span.end == |tokens| then [] else ChunksFrom(tokens, cuts, target, overlap, StartFrom(cuts, overlap, span))
  }

  lemma {:induction false} ChunksFromSpans(tokens: seq<Token>, cuts: set<nat>, target: nat, overlap: nat, start: nat)
    requires |tokens| in cuts && start < |tokens| && Within(tokens, Spans(cuts, |tokens|, target, overlap, start))
    ensures ChunksFrom(tokens, cuts, target, overlap, start) == ChunksOf(tokens, Spans(cuts, |tokens|, target, overlap, start))
    decreases |tokens| - start
  {
    hide ChunkOf, EndFrom, StartFrom;
    var span := Span(start, EndFrom(cuts, |tokens|, target, start));
    if span.end != |tokens| {
      var rest := Spans(cuts, |tokens|, target, overlap, StartFrom(cuts, overlap, span));
      assert Spans(cuts, |tokens|, target, overlap, start) == [span] + rest;
      assert forall i | 0 <= i < |rest| :: rest[i] == ([span] + rest)[i + 1];
      ChunksFromSpans(tokens, cuts, target, overlap, StartFrom(cuts, overlap, span));
    }
  }

  /** Cuts a text into chunks; `tokens` is what the tokenizer makes of it. */
  method ChunkText(text: Text, tokens: seq<Token>, targetTokens: int := 750, overlapRatio: real := 0.12)
    returns (r: Result<seq<Chunk>, Error>)
    requires Concat(tokens) == Encode(text)
    ensures WellFormed(Concat(tokens))
    ensures targetTokens < 1 || !(0.0 <= overlapRatio < 1.0) ==> r == Err(InvalidSettings)
    ensures targetTokens >= 1 && 0.0 <= overlapRatio < 1.0 ==>
              r == Ok(Drafts(tokens, targetTokens, OverlapTokens(targetTokens, overlapRatio)))
  {
    hide Decode, IsBoundary, Lists, Chained, Bytes, Concat, Boundaries, EndFrom, StartFrom;
    DecodeEncode(text);
    DecodesIffWellFormed(Encode(text));
    if targetTokens < 1 || !(0.0 <= overlapRatio < 1.0) {
      return Err(InvalidSettings);
    }
    if |tokens| == 0 {
      return Ok([]);
    }
    var overlap := OverlapTokens(targetTokens, overlapRatio);
    var boundaries := FindBoundaries(tokens);
    var chunks: seq<Chunk>, start, n := [], 0, |tokens|;
    ghost var cuts, all := Boundaries(tokens, n), Drafts(tokens, targetTokens, overlap);
    EdgesAreBoundaries(tokens);
    BoundaryIsCut(tokens, 0);
    BoundaryIsCut(tokens, n);
    ghost var layout := Layout(tokens, targetTokens, overlap);
    ChunksFromSpans(tokens, cuts, targetTokens, overlap, 0);
    var done := false;
    while start < n && !done
      invariant start <= n && start in cuts
      invariant done ==> chunks == all
      invariant !done ==> start < n && chunks + ChunksFrom(tokens, cuts, targetTokens, overlap, start) == all
      decreases n - start, !done
    {
      var end := FindEnd(boundaries, cuts, n, targetTokens, start);
      BoundaryIsCut(tokens, start);
      BoundaryIsCut(tokens, end);
      SliceText(tokens, start, end, end);
      var content := Decode(Bytes(tokens, start, end));
      chunks := chunks + [Chunk(content.value, end - start, start)];
      if end == n {
        done := true;
      } else {
        start := FindStart(boundaries, cuts, overlap, Span(start, end));
      }
    }
    r := Ok(chunks);
  }
}
