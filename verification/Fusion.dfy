/**
 Reciprocal-rank fusion. Each list gives an identifier 1/(60 + rank); identifiers are ordered
 by their sums, ties by identifier. Scores are exact rationals.
 */
module Fusion {

  /** What the entry at index k gives. */
  function Share(k: nat): real { 1.0 / (61 + k) as real }

  /** What a list gives an identifier, one share for each time it occurs. */
  function Gain(list: seq<int>, id: int): real {
    if list == [] then 0.0
    else Gain(list[..|list| - 1], id) + if list[|list| - 1] == id then Share(|list| - 1) else 0.0
  }

  function Score(lists: seq<seq<int>>, id: int): real {
    if lists == [] then 0.0 else Score(lists[..|lists| - 1], id) + Gain(lists[|lists| - 1], id)
  }

  predicate Found(lists: seq<seq<int>>, id: int) { exists k | 0 <= k < |lists| :: id in lists[k] }

  ghost predicate Distinct(list: seq<int>) { forall i, j | 0 <= i < j < |list| :: list[i] != list[j] }

  ghost predicate AllDistinct(lists: seq<seq<int>>) { forall k | 0 <= k < |lists| :: Distinct(lists[k]) }

  /** Every identifier found, with its score. */
  ghost function Ranked(lists: seq<seq<int>>): (ranked: map<int, real>)
    ensures forall id :: id in ranked <==> Found(lists, id)
    ensures forall id | id in ranked :: ranked[id] == Score(lists, id)
  {
    map k, id | 0 <= k < |lists| && id in lists[k] :: id := Score(lists, id)
  }

  lemma RankedUnique(lists: seq<seq<int>>, ranked: map<int, real>)
    requires forall id :: id in ranked <==> Found(lists, id)
    requires forall id :: (if id in ranked then ranked[id] else 0.0) == Score(lists, id)
    ensures ranked == Ranked(lists)
  {
    hide Found, Score, Ranked;
    forall id ensures id in ranked.Keys <==> id in Ranked(lists).Keys { assert id in ranked <==> Found(lists, id); }
    forall id | id in ranked ensures ranked[id] == Ranked(lists)[id] {
      assert (if id in ranked then ranked[id] else 0.0) == Score(lists, id);
    }
  }

  // ----------------------------------------------------------------- scoring

  /** The dictionary of scores, filled list by list and rank by rank. */
  method Rank(lists: seq<seq<int>>) returns (ranked: map<int, real>)
    ensures ranked == Ranked(lists)
  {
    hide Ranked;
    ranked := map[];
    assert forall id :: Score([], id) == 0.0;
    for n := 0 to |lists|
      invariant forall id :: id in ranked <==> Found(lists[..n], id)
      invariant forall id :: (if id in ranked then ranked[id] else 0.0) == Score(lists[..n], id)
    {
      var list := lists[n];
      ghost var before := ranked;
      for k := 0 to |list|
        invariant forall id :: id in ranked <==> id in before || id in list[..k]
        invariant forall id :: (if id in ranked then ranked[id] else 0.0) == (if id in before then before[id] else 0.0) + Gain(list[..k], id)
      {
        var id := list[k];
        assert list[..k + 1][..k] == list[..k] && list[..k + 1][k] == id;
        ranked := ranked[id := (if id in ranked then ranked[id] else 0.0) + 1.0 / (60 + (k + 1)) as real];
      }
      assert list[..|list|] == list;
      assert lists[..n + 1][..n] == lists[..n] && lists[..n + 1][n] == list;
      assert forall id :: Found(lists[..n + 1], id) <==> Found(lists[..n], id) || id in list;
    }
    assert lists[..|lists|] == lists;
    RankedUnique(lists, ranked);
  }

  // ---------------------------------------------------------------- the order

  predicate Precedes(ranked: map<int, real>, a: int, b: int)
    requires a in ranked && b in ranked
  {
    ranked[a] > ranked[b] || (ranked[a] == ranked[b] && a < b)
  }

  /** The keys in order, each once. */
  ghost predicate IsOrder(ranked: map<int, real>, keys: set<int>, ordered: seq<int>)
    requires keys <= ranked.Keys
  {
    && (forall id :: id in keys <==> id in ordered)
    && (forall i, j | 0 <= i < j < |ordered| :: Precedes(ranked, ordered[i], ordered[j]))
  }

  lemma {:induction false} BestExists(ranked: map<int, real>, keys: set<int>)
    requires keys <= ranked.Keys && exists id :: id in keys
    ensures exists b :: b in keys && forall id | id in keys && id != b :: Precedes(ranked, b, id)
    decreases |keys|
  {
    var a :| a in keys;
    var rest := keys - {a};
    if exists id :: id in rest {
      BestExists(ranked, rest);
      var b :| b in rest && forall id | id in rest && id != b :: Precedes(ranked, b, id);
      var best := if Precedes(ranked, a, b) then a else b;
      assert forall id | id in keys && id != best :: Precedes(ranked, best, id) by {
        forall id | id in keys && id != best ensures Precedes(ranked, best, id) {
          assert id == a || id in rest;
        }
      }
    } else {
      assert forall id | id in keys :: id == a || id in rest;
    }
  }

  ghost function OrderOf(ranked: map<int, real>, keys: set<int>): (ordered: seq<int>)
    requires keys <= ranked.Keys
    ensures IsOrder(ranked, keys, ordered)
    decreases |keys|
  {
    if exists id :: id in keys then
      BestExists(ranked, keys);
      var b :| b in keys && forall id | id in keys && id != b :: Precedes(ranked, b, id);
      PrependBest(ranked, keys, b, OrderOf(ranked, keys - {b}));
      [b] + OrderOf(ranked, keys - {b})
    else []
  }

  lemma PrependBest(ranked: map<int, real>, keys: set<int>, b: int, rest: seq<int>)
    requires keys <= ranked.Keys && b in keys && IsOrder(ranked, keys - {b}, rest)
    requires forall id | id in keys && id != b :: Precedes(ranked, b, id)
    ensures IsOrder(ranked, keys, [b] + rest)
  {
    var s := [b] + rest;
    forall id ensures id in keys <==> id in s { assert id in s <==> id == b || id in rest; }
    forall i, j | 0 <= i < j < |s| ensures Precedes(ranked, s[i], s[j]) {
      assert s[j] == rest[j - 1] && rest[j - 1] in rest;
    }
  }

  /** The fused order of lists of candidates. */
  ghost function Ordered(lists: seq<seq<int>>): seq<int> { OrderOf(Ranked(lists), Ranked(lists).Keys) }

  /** sorted. */
  method Sort(ranked: map<int, real>) returns (ordered: seq<int>)
    ensures ordered == OrderOf(ranked, ranked.Keys)
  {
    ordered := [];
    var rest := ranked.Keys;
    while exists id :: id in rest
      invariant rest <= ranked.Keys
      invariant forall id :: id in ranked.Keys <==> id in rest || id in ordered
      invariant forall i, j | 0 <= i < j < |ordered| :: Precedes(ranked, ordered[i], ordered[j])
      invariant forall i, id | 0 <= i < |ordered| && id in rest :: Precedes(ranked, ordered[i], id)
      decreases |rest|
    {
      BestExists(ranked, rest);
      var b :| b in rest && forall id | id in rest && id != b :: Precedes(ranked, b, id);
      ordered := ordered + [b];
      rest := rest - {b};
    }
    OrderUnique(ranked, ranked.Keys, ordered, OrderOf(ranked, ranked.Keys));
  }

  lemma SameElements(ranked: map<int, real>, keys: set<int>, s: seq<int>, id: int)
    requires keys <= ranked.Keys && IsOrder(ranked, keys, s)
    ensures id in keys <==> id in s
  {}

  /** There is one such order. */
  lemma {:induction false} OrderUnique(ranked: map<int, real>, keys: set<int>, s: seq<int>, t: seq<int>)
    requires keys <= ranked.Keys && IsOrder(ranked, keys, s) && IsOrder(ranked, keys, t)
    ensures s == t
    decreases |s|
  {
    if t != [] {
      SameElements(ranked, keys, t, t[0]);
      SameElements(ranked, keys, s, t[0]);
    }
    if s != [] {
      FirstIsBest(ranked, keys, s);
      SameElements(ranked, keys, t, s[0]);
      FirstIsBest(ranked, keys, t);
      assert s[0] == t[0];
      RestIsOrder(ranked, keys, s);
      RestIsOrder(ranked, keys, t);
      OrderUnique(ranked, keys - {s[0]}, s[1..], t[1..]);
    }
  }

  lemma FirstIsBest(ranked: map<int, real>, keys: set<int>, s: seq<int>)
    requires keys <= ranked.Keys && IsOrder(ranked, keys, s) && s != []
    ensures s[0] in keys && forall id | id in keys && id != s[0] :: Precedes(ranked, s[0], id)
  {
    assert s[0] in s;
    forall id | id in keys && id != s[0] ensures Precedes(ranked, s[0], id) {
      var i :| 0 <= i < |s| && s[i] == id;
    }
  }

  lemma RestIsOrder(ranked: map<int, real>, keys: set<int>, s: seq<int>)
    requires keys <= ranked.Keys && IsOrder(ranked, keys, s) && s != []
    ensures IsOrder(ranked, keys - {s[0]}, s[1..])
  {
    forall id ensures id in keys - {s[0]} <==> id in s[1..] {
      if id in s[1..] {
        var i :| 0 <= i < |s[1..]| && s[1..][i] == id;
        assert s[i + 1] == id && Precedes(ranked, s[0], s[i + 1]);
      }
    }
  }

  // ------------------------------------------------------------ what lists give

  lemma SharesDecrease(i: nat, j: nat)
    requires i < j
    ensures Share(i) > Share(j) > 0.0
  {
    Reciprocals((61 + i) as real, (61 + j) as real);
  }

  lemma Product(x: real, y: real)
    requires x > 0.0 && y > 0.0
    ensures x * y > 0.0
  {}

  lemma Reciprocals(x: real, y: real)
    requires 0.0 < x < y
    ensures 1.0 / x > 1.0 / y > 0.0
  {
    var p, q := 1.0 / x, 1.0 / y;
    assert p * x == 1.0 && q * y == 1.0;
    assert p > 0.0 && q > 0.0;
    assert p - q == p * (q * y) - q * (p * x) == (p * q) * (y - x);
    Product(p, q);
    Product(p * q, y - x);
  }

  lemma {:induction false} GainAbsent(list: seq<int>, id: int)
    requires id !in list
    ensures Gain(list, id) == 0.0
  {
    if list != [] { GainAbsent(list[..|list| - 1], id); }
  }

  /** In a list without repetition an identifier gains the share of its place. */
  lemma {:induction false} GainAt(list: seq<int>, k: nat)
    requires Distinct(list) && k < |list|
    ensures Gain(list, list[k]) == Share(k)
  {
    var front := list[..|list| - 1];
    if k == |list| - 1 { GainAbsent(front, list[k]); } else { GainAt(front, k); }
  }

  /** a is in the list, before b if b is there too. */
  ghost predicate Ahead(list: seq<int>, a: int, b: int) {
    b in list ==> exists i, j :: 0 <= i < j < |list| && list[i] == a && list[j] == b
  }

  lemma GainAhead(list: seq<int>, a: int, b: int)
    requires Distinct(list) && Ahead(list, a, b)
    ensures Gain(list, a) >= Gain(list, b) && (b in list ==> Gain(list, a) > Gain(list, b))
    ensures a in list ==> Gain(list, a) > 0.0
  {
    hide Gain;
    if a in list {
      var i :| 0 <= i < |list| && list[i] == a;
      GainAt(list, i);
      SharesDecrease(i, i + 1);
    } else {
      GainAbsent(list, a);
    }
    if b in list {
      var i, j :| 0 <= i < j < |list| && list[i] == a && list[j] == b;
      GainAt(list, i);
      GainAt(list, j);
      SharesDecrease(i, j);
    } else {
      GainAbsent(list, b);
    }
  }

  lemma {:induction false} ScoreAhead(lists: seq<seq<int>>, a: int, b: int)
    requires forall k | 0 <= k < |lists| :: Distinct(lists[k]) && Ahead(lists[k], a, b)
    ensures Score(lists, a) >= Score(lists, b) && (Found(lists, b) ==> Score(lists, a) > Score(lists, b))
  {
    hide Gain, Ahead, Distinct;
    if lists != [] {
      ScoreAhead(lists[..|lists| - 1], a, b);
      GainAhead(lists[|lists| - 1], a, b);
    }
  }

  // ---------------------------------------------------------------- main results

  /** The order is a permutation of the union, each identifier once. */
  lemma OrderIsUnion(lists: seq<seq<int>>)
    ensures Distinct(Ordered(lists)) && forall id :: id in Ordered(lists) <==> Found(lists, id)
  {
    var ranked, ordered := Ranked(lists), Ordered(lists);
    forall i, j | 0 <= i < j < |ordered| ensures ordered[i] != ordered[j] {
      assert Precedes(ranked, ordered[i], ordered[j]);
    }
    forall id ensures id in ordered <==> Found(lists, id) { SameElements(ranked, ranked.Keys, ordered, id); }
  }

  /** Along the order scores never rise, and equal ones go by identifier. */
  lemma OrderedByScore(lists: seq<seq<int>>, i: nat, j: nat)
    requires i < j < |Ordered(lists)|
    ensures var a, b := Ordered(lists)[i], Ordered(lists)[j];
            Score(lists, a) > Score(lists, b) || (Score(lists, a) == Score(lists, b) && a < b)
  {
    hide Score;
    var ordered := Ordered(lists);
    SameElements(Ranked(lists), Ranked(lists).Keys, ordered, ordered[i]);
    SameElements(Ranked(lists), Ranked(lists).Keys, ordered, ordered[j]);
    assert Precedes(Ranked(lists), ordered[i], ordered[j]);
  }

  /** In a strict order, what precedes comes first. */
  lemma PrecedesIsBefore(ranked: map<int, real>, ordered: seq<int>, i: nat, j: nat)
    requires IsOrder(ranked, ranked.Keys, ordered) && i < |ordered| && j < |ordered|
    requires ordered[i] in ranked && ordered[j] in ranked && Precedes(ranked, ordered[i], ordered[j])
    ensures i < j
  {}

  /** An identifier better placed in every list that holds another comes before it. */
  lemma Dominance(lists: seq<seq<int>>, i: nat, j: nat)
    requires AllDistinct(lists) && i < |Ordered(lists)| && j < |Ordered(lists)|
    requires forall k | 0 <= k < |lists| :: Ahead(lists[k], Ordered(lists)[i], Ordered(lists)[j])
    ensures i < j
  {
    hide Score, Ranked, OrderOf;
    var ordered := Ordered(lists);
    InOrder(lists, i);
    InOrder(lists, j);
    ScoreAhead(lists, ordered[i], ordered[j]);
    PrecedesIsBefore(Ranked(lists), ordered, i, j);
  }

  lemma InOrder(lists: seq<seq<int>>, i: nat)
    requires i < |Ordered(lists)|
    ensures Ordered(lists)[i] in Ranked(lists) && Found(lists, Ordered(lists)[i])
  {
    SameElements(Ranked(lists), Ranked(lists).Keys, Ordered(lists), Ordered(lists)[i]);
  }

  /** Among the first 61 of both lists: two such shares outweigh any single one, and 62 would not do. */
  lemma SixtyOne(i: nat, j: nat, k: nat)
    ensures i <= 60 && j <= 60 ==> Share(i) + Share(j) > Share(k)
    ensures Share(61) + Share(61) == Share(0)
  {
    if i < 60 { SharesDecrease(i, 60); }
    if j < 60 { SharesDecrease(j, 60); }
    if k > 0 { SharesDecrease(0, k); }
  }

  lemma ScoreOfTwo(lexical: seq<int>, vector: seq<int>, id: int)
    ensures Score([lexical, vector], id) == Gain(lexical, id) + Gain(vector, id)
  {
    var both := [lexical, vector];
    assert both[..|both| - 1] == [lexical] && [lexical][..0] == [];
    assert Score([lexical], id) == Score([], id) + Gain(lexical, id);
    assert Score(both, id) == Score([lexical], id) + Gain(vector, id);
  }

  /** An identifier among the first 61 of both lists comes before every one that only one list has. */
  lemma BothBeforeOne(lexical: seq<int>, vector: seq<int>, i: nat, j: nat)
    requires Distinct(lexical) && Distinct(vector) && i < |Ordered([lexical, vector])| && j < |Ordered([lexical, vector])|
    requires Ordered([lexical, vector])[i] in lexical[..if |lexical| < 61 then |lexical| else 61]
    requires Ordered([lexical, vector])[i] in vector[..if |vector| < 61 then |vector| else 61]
    requires !(Ordered([lexical, vector])[j] in lexical && Ordered([lexical, vector])[j] in vector)
    ensures i < j
  {
    hide Gain, Score, Share, Distinct, OrderOf, Ranked;
    var lists := [lexical, vector];
    var a, b := Ordered(lists)[i], Ordered(lists)[j];
    var p :| 0 <= p < |lexical| && p <= 60 && lexical[p] == a;
    var q :| 0 <= q < |vector| && q <= 60 && vector[q] == a;
    InOrder(lists, i);
    InOrder(lists, j);
    ScoreOfTwo(lexical, vector, a);
    ScoreOfTwo(lexical, vector, b);
    GainAt(lexical, p);
    GainAt(vector, q);
    if b in lexical {
      GainAbsent(vector, b);
      OneShare(lexical, b, p, q);
    } else {
      GainAbsent(lexical, b);
      assert b in lists[1];
      OneShare(vector, b, p, q);
    }
    PrecedesIsBefore(Ranked(lists), Ordered(lists), i, j);
  }

  lemma OneShare(list: seq<int>, b: int, p: nat, q: nat)
    requires Distinct(list) && b in list && p <= 60 && q <= 60
    ensures Share(p) + Share(q) > Gain(list, b)
  {
    var k :| 0 <= k < |list| && list[k] == b;
    GainAt(list, k);
    SixtyOne(p, q, k);
  }

  /** Sixty-two identifiers each; 61 is last in both, 0 is first in one. */
  function SixtyTwoLexical(): seq<int> { seq(62, i => i) }
  function SixtyTwoVector(): seq<int> { seq(62, i requires 0 <= i < 62 => if i == 61 then 61 else 100 + i) }

  /** 62 would not do: an identifier among the first 62 of both lists comes after one that only one list has. */
  lemma SixtyTwoFails()
    ensures var lexical, vector := SixtyTwoLexical(), SixtyTwoVector(); var ordered := Ordered([lexical, vector]);
            && Distinct(lexical) && Distinct(vector) && lexical[61] == vector[61] == 61 && lexical[0] == 0 && 0 !in vector
            && 61 in ordered && 0 in ordered
            && forall i, j | 0 <= i < |ordered| && 0 <= j < |ordered| && ordered[i] == 61 && ordered[j] == 0 :: j < i
  {
    hide Gain, Score, Share, OrderOf, Ranked, Ordered;
    var lexical, vector := SixtyTwoLexical(), SixtyTwoVector();
    var lists := [lexical, vector];
    GainAt(lexical, 61);
    GainAt(vector, 61);
    GainAt(lexical, 0);
    GainAbsent(vector, 0);
    ScoreOfTwo(lexical, vector, 61);
    ScoreOfTwo(lexical, vector, 0);
    SixtyOne(0, 0, 0);
    assert lexical[61] in lists[0] && lexical[0] in lists[0];
    OrderIsUnion(lists);
    var ordered := Ordered(lists);
    forall i, j | 0 <= i < |ordered| && 0 <= j < |ordered| && ordered[i] == 61 && ordered[j] == 0 ensures j < i {
      InOrder(lists, i);
      InOrder(lists, j);
      OrderedIsOrder(lists);
      PrecedesIsBefore(Ranked(lists), ordered, j, i);
    }
  }

  lemma OrderedIsOrder(lists: seq<seq<int>>)
    ensures IsOrder(Ranked(lists), Ranked(lists).Keys, Ordered(lists))
  {}

  lemma ScoreOfOne(lexical: seq<int>, id: int)
    ensures Score([lexical], id) == Gain(lexical, id)
    ensures Found([lexical], id) <==> id in lexical
  {
    assert [lexical][..0] == [];
    assert id in lexical <==> id in [lexical][0];
  }

  /** With the lexical list alone, its own order is kept. */
  lemma LexicalOrderKept(lexical: seq<int>)
    requires Distinct(lexical)
    ensures Ordered([lexical]) == lexical
  {
    hide Gain, Score, Found, Share, OrderOf;
    var ranked := Ranked([lexical]);
    forall i, j | 0 <= i < j < |lexical| ensures lexical[i] in ranked && lexical[j] in ranked && Precedes(ranked, lexical[i], lexical[j]) {
      ScoreOfOne(lexical, lexical[i]);
      ScoreOfOne(lexical, lexical[j]);
      GainAt(lexical, i);
      GainAt(lexical, j);
      SharesDecrease(i, j);
    }
    forall id ensures id in ranked.Keys <==> id in lexical { ScoreOfOne(lexical, id); }
    assert IsOrder(ranked, ranked.Keys, lexical);
    OrderUnique(ranked, ranked.Keys, Ordered([lexical]), lexical);
  }

  /** Two lists of at most 500 candidates fuse to at most 1000, and so on. */
  lemma OrderedLength(lists: seq<seq<int>>, bound: nat)
    requires forall k | 0 <= k < |lists| :: |lists[k]| <= bound
    ensures |Ordered(lists)| <= |lists| * bound
  {
    OrderIsUnion(lists);
    UnionSize(lists, bound);
    hide Ordered, Found, Union;
    forall id ensures id in Ids(Ordered(lists)) <==> id in Union(lists) { UnionFound(lists, id); }
    assert Ids(Ordered(lists)) == Union(lists);
    IdsSize(Ordered(lists));
  }

  function Ids(list: seq<int>): set<int> { set id | id in list }

  function Union(lists: seq<seq<int>>): set<int> {
    if lists == [] then {} else Union(lists[..|lists| - 1]) + Ids(lists[|lists| - 1])
  }

  lemma {:induction false} UnionFound(lists: seq<seq<int>>, id: int)
    ensures id in Union(lists) <==> Found(lists, id)
  {
    if lists != [] {
      var front := lists[..|lists| - 1];
      UnionFound(front, id);
      assert forall k | 0 <= k < |front| :: lists[k] == front[k];
    }
  }

  lemma {:induction false} IdsSize(list: seq<int>)
    ensures |Ids(list)| <= |list|
    ensures Distinct(list) ==> |Ids(list)| == |list|
  {
    if list != [] {
      var front, last := list[..|list| - 1], list[|list| - 1];
      IdsSize(front);
      assert Ids(list) == Ids(front) + {last};
    }
  }

  lemma {:induction false} UnionSize(lists: seq<seq<int>>, bound: nat)
    requires forall k | 0 <= k < |lists| :: |lists[k]| <= bound
    ensures |Union(lists)| <= |lists| * bound
  {
    if lists != [] {
      UnionSize(lists[..|lists| - 1], bound);
      IdsSize(lists[|lists| - 1]);
      assert |lists| * bound == (|lists| - 1) * bound + bound;
    }
  }
}
