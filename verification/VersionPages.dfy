/**
 Listing the versions of a document page by page. The cursor is the last version number of
 a page, as a numeral in unpadded URL-safe base64; versions may be appended between pages.
 */
module VersionPages {
  import opened Wrappers
  import opened Utf8
  import opened Chunking
  import opened Documents
  import opened Decimal
  import opened Queries
  import Base64Url

  const MAX_VERSION: int := 2147483647

  datatype Error = InvalidCursor

  function EncodeCursor(version: nat): string {
    Base64Url.Encode(Numeral(version))
  }

  function DecodeCursor(cursor: string): Result<int, Error> {
    var raw := Base64Url.DecodeCanonical(cursor);
    if raw.None? then Err(InvalidCursor)
    else
      var version := ParseInt(raw.value);
      if version.None? || !(1 <= version.value <= MAX_VERSION) then Err(InvalidCursor) else Ok(version.value)
  }

  /** Every version number survives its cursor. */
  lemma CursorRoundTrip(version: nat)
    requires 1 <= version <= MAX_VERSION
    ensures DecodeCursor(EncodeCursor(version)) == Ok(version)
  {
    Base64Url.CanonicalIffEncoding(EncodeCursor(version));
    ParseNumeral(version);
  }

  /** An accepted cursor is one the program issues exactly when its bytes are plain digits: no sign, space, underscore or leading zero. */
  lemma {:induction false} IssuedIffPlain(cursor: string)
    requires DecodeCursor(cursor).Ok?
    ensures Base64Url.DecodeCanonical(cursor).Some?
    ensures cursor == EncodeCursor(DecodeCursor(cursor).value) <==> IsPlain(Base64Url.DecodeCanonical(cursor).value)
  {
    hide Base64Url.Encode, Base64Url.DecodeCanonical, ParseInt, Numeral, IsPlain;
    Base64Url.CanonicalIffEncoding(cursor);
    var raw := Base64Url.DecodeCanonical(cursor).value;
    var version := DecodeCursor(cursor).value;
    NumeralIffPlain(raw, version);
    Base64Url.CanonicalIffEncoding(EncodeCursor(version));
  }

  /** Which texts the program issues at all: the unpadded encodings of plain digits up to the greatest version. */
  lemma {:induction false} IssuedCursors(cursor: string)
    ensures (exists version: nat :: 1 <= version <= MAX_VERSION && cursor == EncodeCursor(version))
            <==> DecodeCursor(cursor).Ok? && IsPlain(Base64Url.DecodeCanonical(cursor).value)
  {
    hide Base64Url.Encode, Base64Url.DecodeCanonical, ParseInt, Numeral, IsPlain, DecodeCursor, EncodeCursor;
    if version: nat :| 1 <= version <= MAX_VERSION && cursor == EncodeCursor(version) {
      CursorRoundTrip(version);
      IssuedIffPlain(cursor);
    }
    if DecodeCursor(cursor).Ok? {
      InRangeWhenOk(cursor);
      IssuedIffPlain(cursor);
    }
  }

  lemma InRangeWhenOk(cursor: string)
    requires DecodeCursor(cursor).Ok?
    ensures 1 <= DecodeCursor(cursor).value <= MAX_VERSION && Base64Url.DecodeCanonical(cursor).Some?
  {
    hide Base64Url.DecodeCanonical, ParseInt;
  }

  lemma SevenSpelled()
    ensures Base64Url.Encode([55]) == "Nw" && Base64Url.Encode([43, 55]) == "Kzc"
  {}

  lemma SevenRead()
    ensures Numeral(7) == [55] && ParseInt([55]) == ParseInt([43, 55]) == Some(7)
  {
    assert StripRight(StripLeft([55])) == [55] && StripRight(StripLeft([43, 55])) == [43, 55] && [43, 55][1..] == [55];
    assert ParseDigits([55]) == Some(7);
  }

  /** The integer layer is not canonical: a sign or white space is accepted, so two cursors can mean one version. */
  lemma TwoCursorsForOneVersion()
    ensures "Nw" != "Kzc" && DecodeCursor("Nw") == DecodeCursor("Kzc") == Ok(7)
    ensures EncodeCursor(7) == "Nw"
  {
    hide Base64Url.Encode, Base64Url.DecodeCanonical, ParseInt, Numeral;
    SevenSpelled();
    SevenRead();
    Base64Url.CanonicalIffEncoding("Nw");
    Base64Url.CanonicalIffEncoding("Kzc");
  }

  // -------------------------------------------------------------------- one page

  ghost function Later(numbers: set<int>, after: Option<int>): set<int> {
    set n | n in numbers && (after.Some? ==> after.value < n)
  }

  /** The first `count` numbers after `after`, in order: the query with its ORDER BY and LIMIT. */
  ghost function Select(numbers: set<int>, after: Option<int>, count: nat): (rows: seq<int>)
    ensures |rows| <= count
    decreases count
  {
    if count == 0 || !(exists n :: n in Later(numbers, after)) then []
    else
      var n := Least(Later(numbers, after));
      [n] + Select(numbers, Some(n), count - 1)
  }

  datatype Page = Page(numbers: seq<int>, next: Option<string>)

  ghost function ListVersions(d: Document, limit: nat, cursor: Option<string>): Result<Page, Error>
    requires forall n | n in d.versions :: n >= 0
  {
    if cursor.Some? && DecodeCursor(cursor.value).Err? then Err(InvalidCursor)
    else
      var after := if cursor.Some? then Some(DecodeCursor(cursor.value).value) else None;
      SelectFrom(d.versions.Keys, after, limit + 1);
      var rows := Select(d.versions.Keys, after, limit + 1);
      if |rows| > limit then
        Ok(Page(rows[..limit], if limit == 0 then None else Some(EncodeCursor(rows[limit - 1]))))
      else Ok(Page(rows, None))
  }

  lemma {:induction false} SelectFrom(numbers: set<int>, after: Option<int>, count: nat)
    ensures forall i | 0 <= i < |Select(numbers, after, count)| :: Select(numbers, after, count)[i] in numbers
    decreases count
  {
    if count > 0 && exists n :: n in Later(numbers, after) {
      SelectFrom(numbers, Some(Least(Later(numbers, after))), count - 1);
    }
  }

  /** The numbers from a to b. */
  function Range(a: int, b: int): seq<int> {
    if b < a then [] else seq(b - a + 1, i => a + i)
  }

  /** Ranges that meet join; the front of a range is a range. */
  lemma RangesJoin(a: int, m: int, b: int)
    requires a <= m + 1 && m <= b
    ensures Range(a, m) + Range(m + 1, b) == Range(a, b) && Range(a, b)[..m + 1 - a] == Range(a, m)
  {
    assert |Range(a, b)| == |Range(a, m)| + |Range(m + 1, b)|;
  }

  lemma LaterRange(numbers: set<int>, last: nat, after: nat, start: Option<int>)
    requires forall n :: n in numbers <==> 1 <= n <= last
    requires start == Some(after) || (start == None && after == 0)
    ensures (exists n :: n in Later(numbers, start)) <==> after < last
    ensures after < last ==> Least(Later(numbers, start)) == after + 1
  {
    var later := Later(numbers, start);
    if after < last { assert after + 1 in later; }
  }

  lemma {:induction false} SelectRange(numbers: set<int>, last: nat, after: nat, start: Option<int>, count: nat)
    requires forall n :: n in numbers <==> 1 <= n <= last
    requires start == Some(after) || (start == None && after == 0)
    ensures Select(numbers, start, count) == Range(after + 1, if after + count < last then after + count else last)
    decreases count
  {
    hide Later, Least, Range;
    LaterRange(numbers, last, after, start);
    if count > 0 && after < last {
      SelectRange(numbers, last, after + 1, Some(after + 1), count - 1);
      RangesJoin(after + 1, after + 1, if after + count < last then after + count else last);
      OneRange(after + 1);
    } else {
      NoRange(after + 1, if after + count < last then after + count else last);
    }
  }

  lemma OneRange(a: int)
    ensures Range(a, a) == [a]
  {}

  lemma LastOfRange(a: int, b: int)
    requires a <= b
    ensures |Range(a, b)| == b - a + 1 && Range(a, b)[b - a] == b
  {}

  lemma NoRange(a: int, b: int)
    ensures b < a ==> Range(a, b) == []
    ensures a <= b ==> |Range(a, b)| == b - a + 1
  {}

  /** The version a request starts after, however its cursor is spelled. */
  function Start(cursor: Option<string>): Result<nat, Error> {
    if cursor.None? then Ok(0)
    else match DecodeCursor(cursor.value)
      case Err(_) => Err(InvalidCursor)
      case Ok(version) => Ok(version)
  }

  /**
   A page of a document, whatever the cursor: an error for one that is not accepted, else the
   versions after it, as many as asked for, and a cursor exactly when more follow; past the
   current version it is empty.
   */
  lemma PageOfDocument(d: Document, limit: nat, cursor: Option<string>)
    requires forall n :: n in d.versions <==> 1 <= n <= d.currentVersion
    requires 1 <= limit && 0 <= d.currentVersion <= MAX_VERSION
    ensures ListVersions(d, limit, cursor) ==
            match Start(cursor)
            case Err(_) => Err(InvalidCursor)
            case Ok(after) =>
              if after + limit < d.currentVersion then Ok(Page(Range(after + 1, after + limit), Some(EncodeCursor(after + limit))))
              else Ok(Page(Range(after + 1, d.currentVersion), None))
  {
    hide EncodeCursor, DecodeCursor, Select, Range;
    if Start(cursor).Ok? {
      var after := Start(cursor).value;
      if cursor.Some? { InRangeWhenOk(cursor.value); }
      var start := if cursor.Some? then Some(after) else None;
      SelectRange(d.versions.Keys, d.currentVersion, after, start, limit + 1);
      NoRange(after + 1, d.currentVersion);
      if after + limit < d.currentVersion {
        var rows := Range(after + 1, after + limit + 1);
        RangesJoin(after + 1, after + limit, after + limit + 1);
        NoRange(after + 1, after + limit + 1);
        LastOfRange(after + 1, after + limit);
        assert rows[limit - 1] == rows[..limit][limit - 1];
      }
      assert ListVersions(d, limit, cursor).Ok?;
    } else {
      assert ListVersions(d, limit, cursor) == Err(InvalidCursor);
    }
  }

  // ----------------------------------------------------------------- following cursors

  /** What a reader has after following cursors: the numbers seen, and the current version when the last page was read. */
  datatype Walked = Walked(numbers: seq<int>, last: Option<int>) | Rejected

  /** Reads page after page, the document in whatever state it then is, until no cursor comes back. */
  ghost function Walk(docs: seq<Document>, limits: seq<nat>, cursor: Option<string>): Walked
    requires |limits| == |docs|
    requires forall i, n | 0 <= i < |docs| && n in docs[i].versions :: n >= 0
  {
    if docs == [] then Walked([], None)
    else
      match ListVersions(docs[0], limits[0], cursor)
      case Err(_) => Rejected
      case Ok(page) =>
        if page.next.None? then Walked(page.numbers, Some(docs[0].currentVersion))
        else
          match Walk(docs[1..], limits[1..], page.next)
          case Rejected => Rejected
          case Walked(numbers, last) => Walked(page.numbers + numbers, last)
  }

  /** A document at successive moments: versions 1 to the current one, which only grows. */
  ghost predicate Appending(docs: seq<Document>) {
    && (forall i | 0 <= i < |docs| :: 0 <= docs[i].currentVersion <= MAX_VERSION)
    && (forall i, n | 0 <= i < |docs| :: n in docs[i].versions <==> 1 <= n <= docs[i].currentVersion)
    && (forall i, j | 0 <= i < j < |docs| :: docs[i].currentVersion <= docs[j].currentVersion)
  }

  lemma AppendingRest(docs: seq<Document>)
    requires Appending(docs) && docs != []
    ensures 0 <= docs[0].currentVersion <= MAX_VERSION && forall n :: n in docs[0].versions <==> 1 <= n <= docs[0].currentVersion
    ensures Appending(docs[1..])
    ensures |docs| > 1 ==> docs[0].currentVersion <= docs[1..][0].currentVersion && docs[1..][|docs| - 2] == docs[|docs| - 1]
    ensures docs[0].currentVersion <= docs[|docs| - 1].currentVersion
  {}

  lemma AppendingNat(docs: seq<Document>)
    requires Appending(docs)
    ensures forall i, n | 0 <= i < |docs| && n in docs[i].versions :: n >= 0
  {}

  /** One page read, from a document in a known state. */
  lemma WalkStep(docs: seq<Document>, limits: seq<nat>, after: nat, cursor: Option<string>)
    requires |limits| == |docs| && Appending(docs) && docs != [] && limits[0] >= 1 && after <= docs[0].currentVersion
    requires (cursor == None && after == 0) || (after >= 1 && cursor == Some(EncodeCursor(after)))
    requires forall i, n | 0 <= i < |docs| && n in docs[i].versions :: n >= 0
    ensures after + limits[0] >= docs[0].currentVersion ==>
              Walk(docs, limits, cursor) == Walked(Range(after + 1, docs[0].currentVersion), Some(docs[0].currentVersion))
    ensures after + limits[0] < docs[0].currentVersion ==>
              var rest := Walk(docs[1..], limits[1..], Some(EncodeCursor(after + limits[0])));
              rest.Walked? ==> Walk(docs, limits, cursor) == Walked(Range(after + 1, after + limits[0]) + rest.numbers, rest.last)
  {
    hide ListVersions, EncodeCursor, DecodeCursor, Range;
    AppendingRest(docs);
    hide Appending;
    if cursor.Some? { CursorRoundTrip(after); }
    PageOfDocument(docs[0], limits[0], cursor);
  }

  lemma {:induction false} WalkFrom(docs: seq<Document>, limits: seq<nat>, after: nat, cursor: Option<string>)
    requires |limits| == |docs| && Appending(docs) && forall i | 0 <= i < |limits| :: limits[i] >= 1
    requires docs != [] ==> after <= docs[0].currentVersion
    requires (cursor == None && after == 0) || (after >= 1 && cursor == Some(EncodeCursor(after)))
    requires forall i, n | 0 <= i < |docs| && n in docs[i].versions :: n >= 0
    ensures var w := Walk(docs, limits, cursor);
            && w.Walked?
            && w.numbers == Range(after + 1, after + |w.numbers|)
            && (w.last.Some? ==> after + |w.numbers| == w.last.value)
            && (w.last.None? ==> |w.numbers| >= |docs|)
            && (docs == [] ==> w.numbers == [])
            && (docs != [] ==> after + |w.numbers| <= docs[|docs| - 1].currentVersion)
    decreases |docs|
  {
    hide Walk, EncodeCursor, Range;
    if docs == [] {
      WalkOfNothing(cursor);
      NoRange(after + 1, after);
    } else {
      AppendingRest(docs);
      hide Appending;
      WalkStep(docs, limits, after, cursor);
      NoRange(after + 1, docs[0].currentVersion);
      if after + limits[0] < docs[0].currentVersion {
        WalkFrom(docs[1..], limits[1..], after + limits[0], Some(EncodeCursor(after + limits[0])));
        var rest := Walk(docs[1..], limits[1..], Some(EncodeCursor(after + limits[0])));
        RangesJoin(after + 1, after + limits[0], after + limits[0] + |rest.numbers|);
        NoRange(after + 1, after + limits[0]);
      }
    }
  }

  lemma WalkOfNothing(cursor: Option<string>)
    ensures Walk([], [], cursor) == Walked([], None)
  {}

  /**
   Following the cursors while versions are appended gives each version once, in order, up to
   the version that was current when the last page was read; and with more pages than there
   are versions the end is reached.
   */
  lemma WalkReadsEachVersionOnce(docs: seq<Document>, limits: seq<nat>)
    requires |limits| == |docs| && Appending(docs) && forall i | 0 <= i < |limits| :: limits[i] >= 1
    ensures var w := Walk(docs, limits, None);
            && w.Walked? && w.numbers == Range(1, |w.numbers|)
            && (w.last.Some? ==> |w.numbers| == w.last.value)
            && (docs != [] && |docs| > docs[|docs| - 1].currentVersion ==> w.last.Some?)
  {
    hide Walk, Range;
    AppendingNat(docs);
    WalkFrom(docs, limits, 0, None);
  }

  // ------------------------------------------------------ while the document is edited

  /** A document after each of the given numbers of edits. */
  ghost function Moments(tok: Text -> seq<Token>, d: Document, edits: seq<Edit>, counts: seq<nat>): (docs: seq<Document>)
    requires IsTokenizer(tok) && forall i | 0 <= i < |counts| :: counts[i] <= |edits|
    ensures |docs| == |counts| && forall i | 0 <= i < |docs| :: docs[i] == ApplyAll(tok, d, edits[..counts[i]])
  {
    seq(|counts|, i requires 0 <= i < |counts| => ApplyAll(tok, d, edits[..counts[i]]))
  }

  lemma MomentsAppend(tok: Text -> seq<Token>, d: Document, edits: seq<Edit>, counts: seq<nat>)
    requires IsTokenizer(tok) && Consistent(tok, d) && ApplyAll(tok, d, edits).currentVersion <= MAX_VERSION
    requires forall i | 0 <= i < |counts| :: counts[i] <= |edits|
    requires forall i, j | 0 <= i < j < |counts| :: counts[i] <= counts[j]
    ensures Appending(Moments(tok, d, edits, counts))
  {
    hide IsTokenizer, ApplyAll;
    var docs := Moments(tok, d, edits, counts);
    hide Moments;
    assert edits[..|edits|] == edits;
    forall i | 0 <= i < |docs|
      ensures 0 <= docs[i].currentVersion <= MAX_VERSION && forall n :: n in docs[i].versions <==> 1 <= n <= docs[i].currentVersion
    {
      LaterExtendsEarlier(tok, d, edits, counts[i], |edits|);
    }
    forall i, j | 0 <= i < j < |docs| ensures docs[i].currentVersion <= docs[j].currentVersion {
      LaterExtendsEarlier(tok, d, edits, counts[i], counts[j]);
    }
  }

  /**
   A reader follows the cursors while the document is edited in any way, any number of edits
   between two pages: each version is read once, in order, up to the one that was current when
   the last page was read.
   */
  lemma {:induction false} WalkWhileEdited(tok: Text -> seq<Token>, d: Document, edits: seq<Edit>, counts: seq<nat>, limits: seq<nat>)
    requires IsTokenizer(tok) && Consistent(tok, d) && ApplyAll(tok, d, edits).currentVersion <= MAX_VERSION
    requires forall i | 0 <= i < |counts| :: counts[i] <= |edits|
    requires forall i, j | 0 <= i < j < |counts| :: counts[i] <= counts[j]
    requires |limits| == |counts| && forall i | 0 <= i < |limits| :: limits[i] >= 1
    ensures var docs := Moments(tok, d, edits, counts);
            && (forall i, n | 0 <= i < |docs| && n in docs[i].versions :: n >= 0)
            && var w := Walk(docs, limits, None);
            && w.Walked? && w.numbers == Range(1, |w.numbers|)
            && (w.last.Some? ==> |w.numbers| == w.last.value)
            && (counts != [] && |counts| > docs[|docs| - 1].currentVersion ==> w.last.Some?)
  {
    hide IsTokenizer, ApplyAll, Moments, Walk, Range, Appending, Consistent;
    MomentsAppend(tok, d, edits, counts);
    AppendingNat(Moments(tok, d, edits, counts));
    WalkReadsEachVersionOnce(Moments(tok, d, edits, counts), limits);
  }
}
