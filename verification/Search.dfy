/**
 One page of search results: the candidates fused, a slice at the cursor's offset, the hits
 that are still visible, and the next cursor. The candidate lists are what the two queries
 returned; `vector` is None when the search is lexical or the semantic part failed.
 */
module Search {
  import opened Wrappers
  import opened Utf8
  import opened Fusion
  import opened SearchCursor

  const MAX_CANDIDATES: nat := 500

  datatype Hit = Hit(id: int, score: real)

  datatype Response = Response(hits: seq<Hit>, next: Option<string>, hybrid: bool, warned: bool)

  /** What the queries can return: at most 500 identifiers, none twice. */
  ghost predicate IsCandidates(list: seq<int>) { Distinct(list) && |list| <= MAX_CANDIDATES }

  function Min(a: nat, b: nat): nat { if a < b then a else b }

  /** A slice as Python takes it, cut at the end. */
  function Slice(ordered: seq<int>, from: nat, count: nat): seq<int> {
    ordered[Min(from, |ordered|)..Min(from + count, |ordered|)]
  }

  /** The identifiers of a page, and the cursor to the next one. */
  function Page(ordered: seq<int>, scope: Text, offset: nat, limit: nat): (seq<int>, Option<string>) {
    (Slice(ordered, offset, limit),
     if |Slice(ordered, offset, limit + 1)| > limit then Some(EncodeCursor(scope, offset + limit)) else None)
  }

  function Visible(ids: seq<int>, visible: set<int>): seq<int> {
    if ids == [] then []
    else Visible(ids[..|ids| - 1], visible) + if ids[|ids| - 1] in visible then [ids[|ids| - 1]] else []
  }

  function HitIds(hits: seq<Hit>): seq<int> { seq(|hits|, i requires 0 <= i < |hits| => hits[i].id) }

  /** search. */
  method SearchPage(scope: Text, cursor: Option<string>, limit: nat, hybrid: bool, lexical: seq<int>, vector: Option<seq<int>>, visible: set<int>)
    returns (r: Result<Response, Error>)
    requires IsCandidates(lexical) && (vector.Some? ==> hybrid && IsCandidates(vector.value))
    ensures r.Err? <==> Offset(scope, cursor).Err?
    ensures r.Ok? ==>
              var lists := if vector.Some? then [lexical, vector.value] else [lexical];
              var page := Page(Ordered(lists), scope, Offset(scope, cursor).value, limit);
              && HitIds(r.value.hits) == Visible(page.0, visible)
              && (forall i | 0 <= i < |r.value.hits| :: r.value.hits[i].score == Score(lists, r.value.hits[i].id))
              && (forall i, j | 0 <= i < j < |r.value.hits| ::
                    r.value.hits[i].score > r.value.hits[j].score
                    || (r.value.hits[i].score == r.value.hits[j].score && r.value.hits[i].id < r.value.hits[j].id))
              && r.value.next == page.1
              && r.value.hybrid == vector.Some? && (r.value.warned <==> hybrid && vector.None?)
  {
    hide IsCandidates, Score, Ordered, EncodeCursor, Offset, Visible, HitIds, Slice;
    var offset := Offset(scope, cursor);
    if offset.Err? { return Err(offset.error); }
    var lists := if vector.Some? then [lexical, vector.value] else [lexical];
    var ranked, ordered := Fuse(lists);
    var selected := Slice(ordered, offset.value, limit + 1);
    PrefixOfSlice(ordered, offset.value, limit);
    SliceWithin(ordered, offset.value, limit);
    var hits := Collect(lists, ranked, selected[..Min(limit, |selected|)], visible);
    VisibleSliceOrdered(lists, offset.value, limit, visible);
    HitsById(hits);
    var next := if |selected| > limit then Some(EncodeCursor(scope, offset.value + limit)) else None;
    r := Ok(Response(hits, next, vector.Some?, hybrid && vector.None?));
  }

  lemma HitsById(hits: seq<Hit>)
    ensures |HitIds(hits)| == |hits| && forall i | 0 <= i < |hits| :: HitIds(hits)[i] == hits[i].id
  {}

  /** The scores and the order of all candidates. */
  method Fuse(lists: seq<seq<int>>) returns (ranked: map<int, real>, ordered: seq<int>)
    ensures ordered == Ordered(lists)
    ensures forall id | id in ordered :: id in ranked && ranked[id] == Score(lists, id)
  {
    ranked := Rank(lists);
    ordered := Sort(ranked);
    hide Score, OrderOf;
    OrderIsUnion(lists);
  }

  /** The loop over a page: what is no longer visible is passed over. */
  method Collect(ghost lists: seq<seq<int>>, ranked: map<int, real>, page: seq<int>, visible: set<int>) returns (hits: seq<Hit>)
    requires forall id | id in page :: id in ranked && ranked[id] == Score(lists, id)
    ensures HitIds(hits) == Visible(page, visible)
    ensures forall i | 0 <= i < |hits| :: hits[i].score == Score(lists, hits[i].id)
  {
    hide Score;
    hits := [];
    for i := 0 to |page|
      invariant HitIds(hits) == Visible(page[..i], visible)
      invariant forall j | 0 <= j < |hits| :: hits[j].score == Score(lists, hits[j].id)
    {
      var id := page[i];
      assert page[..i + 1][..i] == page[..i] && page[..i + 1][i] == id;
      if id in visible {
        ghost var before := hits;
        hits := hits + [Hit(id, ranked[id])];
        assert HitIds(hits) == HitIds(before) + [id];
      }
    }
    assert page[..|page|] == page;
  }

  lemma PrefixOfSlice(ordered: seq<int>, from: nat, limit: nat)
    ensures var selected := Slice(ordered, from, limit + 1); selected[..Min(limit, |selected|)] == Slice(ordered, from, limit)
  {}

  lemma SliceWithin(ordered: seq<int>, from: nat, count: nat)
    ensures forall id | id in Slice(ordered, from, count) :: id in ordered
  {}

  // ------------------------------------------------------------------ following cursors

  /** The pages read, and whether the last had no cursor. */
  datatype Walked = Walked(ids: seq<int>, ended: bool) | Refused

  /** Follows the cursors over fixed candidates, with any page sizes. */
  function Walk(ordered: seq<int>, scope: Text, limits: seq<nat>, cursor: Option<string>): Walked {
    if limits == [] then Walked([], false)
    else
      match Offset(scope, cursor)
      case Err(_) => Refused
      case Ok(offset) =>
        var (ids, next) := Page(ordered, scope, offset, limits[0]);
        if next.None? then Walked(ids, true)
        else
          match Walk(ordered, scope, limits[1..], next)
          case Refused => Refused
          case Walked(rest, ended) => Walked(ids + rest, ended)
  }

  /** A cursor to an offset, None for the start. */
  predicate LeadsTo(scope: Text, cursor: Option<string>, offset: nat) {
    if cursor.None? then offset == 0 else cursor.value == EncodeCursor(scope, offset)
  }

  lemma PageAt(ordered: seq<int>, scope: Text, cursor: Option<string>, offset: nat, limit: nat)
    requires IsScope(scope) && LeadsTo(scope, cursor, offset) && offset <= |ordered| <= MAX_RANKED_CANDIDATES
    ensures Offset(scope, cursor) == Ok(offset)
    ensures Page(ordered, scope, offset, limit) ==
            if offset + limit < |ordered| then (ordered[offset..offset + limit], Some(EncodeCursor(scope, offset + limit)))
            else (ordered[offset..], None)
  {
    hide EncodeCursor;
    if cursor.Some? { AcceptedIffIssued(scope, cursor.value, offset); }
    assert ordered[offset..|ordered|] == ordered[offset..];
  }

  lemma SlicesJoin(s: seq<int>, i: nat, j: nat, k: nat)
    requires i <= j <= k <= |s|
    ensures s[i..j] + s[j..k] == s[i..k]
  {}

  lemma {:induction false} WalkFrom(ordered: seq<int>, scope: Text, limits: seq<nat>, cursor: Option<string>, offset: nat)
    requires IsScope(scope) && LeadsTo(scope, cursor, offset) && offset <= |ordered| <= MAX_RANKED_CANDIDATES
    requires forall i | 0 <= i < |limits| :: limits[i] >= 1
    ensures var w := Walk(ordered, scope, limits, cursor);
            && w.Walked?
            && (w.ended ==> w.ids == ordered[offset..])
            && (!w.ended ==> |limits| <= |w.ids| <= |ordered| - offset && w.ids == ordered[offset..offset + |w.ids|])
    decreases |limits|
  {
    hide Offset, EncodeCursor, Page;
    if limits != [] {
      PageAt(ordered, scope, cursor, offset, limits[0]);
      var next := offset + limits[0];
      if next < |ordered| {
        WalkFrom(ordered, scope, limits[1..], Some(EncodeCursor(scope, next)), next);
        var rest := Walk(ordered, scope, limits[1..], Some(EncodeCursor(scope, next)));
        assert ordered[offset..next] + ordered[next..] == ordered[offset..];
        if !rest.ended { SlicesJoin(ordered, offset, next, next + |rest.ids|); }
      }
    }
  }

  /**
   Every cursor issued is accepted, and following them with any page sizes reads the fused
   order from its start, each identifier once; with more pages than identifiers the end is reached.
   */
  lemma WalkPartitionsOrder(lexical: seq<int>, vector: Option<seq<int>>, scope: Text, limits: seq<nat>)
    requires IsScope(scope) && IsCandidates(lexical) && (vector.Some? ==> IsCandidates(vector.value))
    requires forall i | 0 <= i < |limits| :: limits[i] >= 1
    ensures var lists := if vector.Some? then [lexical, vector.value] else [lexical]; var ordered := Ordered(lists); var w := Walk(ordered, scope, limits, None);
            && w.Walked? && Distinct(w.ids)
            && (w.ended ==> w.ids == ordered && forall id :: id in w.ids <==> Found(lists, id))
            && (!w.ended ==> |w.ids| <= |ordered| && w.ids == ordered[..|w.ids|])
            && (|limits| > |ordered| ==> w.ended)
  {
    hide Ordered, Walk;
    var lists := if vector.Some? then [lexical, vector.value] else [lexical];
    OrderedLength(lists, MAX_CANDIDATES);
    OrderIsUnion(lists);
    WalkFrom(Ordered(lists), scope, limits, None, 0);
    assert Ordered(lists)[0..] == Ordered(lists);
  }

  /** Every issued cursor has an offset below 1000 and belongs to its request only. */
  lemma IssuedCursorAccepted(lexical: seq<int>, vector: Option<seq<int>>, scope: Text, offset: nat, limit: nat)
    requires IsScope(scope) && IsCandidates(lexical) && (vector.Some? ==> IsCandidates(vector.value))
    requires Page(Ordered(if vector.Some? then [lexical, vector.value] else [lexical]), scope, offset, limit).1.Some?
    ensures var c := Page(Ordered(if vector.Some? then [lexical, vector.value] else [lexical]), scope, offset, limit).1;
            && offset + limit < MAX_RANKED_CANDIDATES && Offset(scope, c) == Ok(offset + limit)
            && forall other: Text | IsScope(other) && other != scope :: Offset(other, c).Err?
  {
    hide Ordered, EncodeCursor, Offset;
    var lists := if vector.Some? then [lexical, vector.value] else [lexical];
    var c := Page(Ordered(lists), scope, offset, limit).1.value;
    OrderedLength(lists, MAX_CANDIDATES);
    assert c == EncodeCursor(scope, offset + limit);
    AcceptedIffIssued(scope, c, offset + limit);
    forall other: Text | IsScope(other) && other != scope ensures Offset(other, Some(c)).Err? {
      if Offset(other, Some(c)).Ok? {
        AcceptedIffIssued(other, c, Offset(other, Some(c)).value);
        CursorsDiffer(scope, offset + limit, other, Offset(other, Some(c)).value);
        assert false;
      }
    }
  }

  /** The hits of a page are its visible identifiers, none twice. */
  lemma {:induction false} VisibleMembers(ids: seq<int>, visible: set<int>)
    ensures forall id :: id in Visible(ids, visible) <==> id in ids && id in visible
    ensures Distinct(ids) ==> Distinct(Visible(ids, visible))
  {
    if ids != [] {
      var front, last := ids[..|ids| - 1], ids[|ids| - 1];
      VisibleMembers(front, visible);
      assert forall id :: id in ids <==> id in front || id == last;
    }
  }

  /** Place p of the page and place q of the page become these places of the hits, in the same order. */
  ghost predicate Comes(ids: seq<int>, hits: seq<int>, i: int, j: int) {
    0 <= i < j < |hits| && exists p, q :: 0 <= p < q < |ids| && ids[p] == hits[i] && ids[q] == hits[j]
  }

  /** The hits come in the order of the page. */
  lemma {:induction false} VisibleKeepsOrder(ids: seq<int>, visible: set<int>)
    ensures forall i, j | 0 <= i < j < |Visible(ids, visible)| :: Comes(ids, Visible(ids, visible), i, j)
  {
    if ids != [] {
      var front, last := ids[..|ids| - 1], ids[|ids| - 1];
      var hits, before := Visible(ids, visible), Visible(front, visible);
      VisibleKeepsOrder(front, visible);
      VisibleMembers(front, visible);
      forall i, j | 0 <= i < j < |hits| ensures Comes(ids, hits, i, j) {
        if j < |before| {
          assert Comes(front, before, i, j);
          var p, q :| 0 <= p < q < |front| && front[p] == before[i] && front[q] == before[j];
          assert ids[p] == hits[i] && ids[q] == hits[j];
        } else {
          assert before[i] in before;
          var p :| 0 <= p < |front| && front[p] == before[i];
          assert ids[p] == hits[i] && ids[|ids| - 1] == hits[j];
        }
      }
    }
  }

  /** A part of the fused order, thinned out, is still in order: scores never rise, and equal ones go by identifier. */
  lemma VisibleSliceOrdered(lists: seq<seq<int>>, from: nat, count: nat, visible: set<int>)
    ensures var hits := Visible(Slice(Ordered(lists), from, count), visible);
            forall i, j | 0 <= i < j < |hits| ::
              Score(lists, hits[i]) > Score(lists, hits[j]) || (Score(lists, hits[i]) == Score(lists, hits[j]) && hits[i] < hits[j])
  {
    hide Score, Ordered, Ranked;
    var ids := Slice(Ordered(lists), from, count);
    var hits := Visible(ids, visible);
    VisibleKeepsOrder(ids, visible);
    forall i, j | 0 <= i < j < |hits|
      ensures Score(lists, hits[i]) > Score(lists, hits[j]) || (Score(lists, hits[i]) == Score(lists, hits[j]) && hits[i] < hits[j])
    {
      assert Comes(ids, hits, i, j);
      var p, q :| 0 <= p < q < |ids| && ids[p] == hits[i] && ids[q] == hits[j];
      var start := Min(from, |Ordered(lists)|);
      OrderedByScore(lists, start + p, start + q);
    }
  }
}
