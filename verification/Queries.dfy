/** Ordered selection, as the database does it with ORDER BY and LIMIT 1. */
module Queries {

  ghost function Least(s: set<int>): (least: int)
    requires exists n :: n in s
    ensures least in s && forall n | n in s :: least <= n
    decreases |s|
  {
    var n :| n in s;
    if forall m | m in s :: n <= m then n
    else
      assert exists m :: m in s - {n} by { var m :| m in s && m < n; assert m in s - {n}; }
      assert forall x | x in s :: x == n || x in s - {n};
      var m := Least(s - {n});
      if m < n then m else n
  }
}
