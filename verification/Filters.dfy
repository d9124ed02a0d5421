/** What it is to keep some members of a list, in order. */
module Filters {

  ghost predicate Ascending(ix: seq<nat>) { forall a, b :: 0 <= a < b < |ix| ==> ix[a] < ix[b] }

  /** r are the members of s at positions ix, which are those that are to be kept, in
      order. */
  ghost predicate KeptAt<T>(s: seq<T>, keep: T -> bool, r: seq<T>, ix: seq<nat>) {
    && |ix| == |r| && Ascending(ix)
    && (forall m :: 0 <= m < |r| ==> ix[m] < |s| && r[m] == s[ix[m]])
    && forall i: nat | i < |s| :: keep(s[i]) <==> i in ix
  }

  ghost predicate Kept<T>(s: seq<T>, keep: T -> bool, r: seq<T>) { exists ix :: KeptAt(s, keep, r, ix) }

  lemma KeptNone<T>(keep: T -> bool)
    ensures Kept([], keep, [])
  {
    assert KeptAt([], keep, [], []);
  }

  lemma KeptMore<T>(s: seq<T>, keep: T -> bool, r: seq<T>, x: T)
    requires Kept(s, keep, r)
    ensures Kept(s + [x], keep, r + if keep(x) then [x] else [])
  {
    var ix :| KeptAt(s, keep, r, ix);
    var n: nat := |s|;
    if keep(x) {
      MoreAt(s, keep, r, ix, x);
    } else {
      assert r + [] == r;
      forall i: nat | i < |s + [x]| ensures keep((s + [x])[i]) <==> i in ix {
        if i == n && n in ix { PositionBelow(s, keep, r, ix, n); }
      }
      assert KeptAt(s + [x], keep, r, ix);
    }
  }

  lemma PositionBelow<T>(s: seq<T>, keep: T -> bool, r: seq<T>, ix: seq<nat>, i: nat)
    requires KeptAt(s, keep, r, ix) && i in ix
    ensures i < |s|
  {
    var m :| 0 <= m < |ix| && ix[m] == i;
  }

  lemma MoreAt<T>(s: seq<T>, keep: T -> bool, r: seq<T>, ix: seq<nat>, x: T)
    requires KeptAt(s, keep, r, ix) && keep(x)
    ensures Kept(s + [x], keep, r + [x])
  {
    var n: nat := |s|;
    var jx := ix + [n];
    forall i: nat | i < |s + [x]| ensures keep((s + [x])[i]) <==> i in jx {
      if i < n {
        assert (s + [x])[i] == s[i];
        assert i in jx <==> i in ix;
      } else {
        assert jx[|ix|] == n;
      }
    }
    forall a, b | 0 <= a < b < |jx| ensures jx[a] < jx[b] {
      if b == |ix| { assert jx[a] == ix[a]; }
    }
    assert KeptAt(s + [x], keep, r + [x], jx);
  }
}
