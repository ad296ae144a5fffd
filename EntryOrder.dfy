/**
 * The order in which `Object.entries` lists an object whose keys are
 * integer-like: ascending numeric order.
 */
module EntryOrder {

  /** Every non-empty finite set of integers has a least element. */
  lemma {:induction false} LeastOf(s: set<int>) returns (x: int)
    requires s != {}
    ensures x in s && forall y | y in s :: x <= y
    decreases s
  {
    assert exists w :: w in s by {
      if forall w :: w !in s { assert false; }
    }
    var w :| w in s;
    if s == {w} {
      x := w;
    } else {
      var rest := s - {w};
      var z := LeastOf(rest);
      x := if z < w then z else w;
      forall y | y in s ensures x <= y {
        if y != w { assert y in rest; }
      }
    }
  }

  /** The least key: `Object.entries` lists integer keys in ascending order. */
  function MinKey(s: set<int>): (k: int)
    requires s != {}
    ensures k in s && forall y | y in s :: k <= y
  {
    assert exists x | x in s :: forall y | y in s :: x <= y by {
      var least := LeastOf(s);
    }
    var k :| k in s && forall y | y in s :: k <= y;
    k
  }

  /** The keys in the order `Object.entries` lists them. */
  function SortedKeys(s: set<int>): (r: seq<int>)
    ensures forall i | 0 <= i < |r| :: r[i] in s
    ensures forall i, j | 0 <= i < j < |r| :: r[i] < r[j]
    ensures |r| == |s|
    decreases s
  {
    if s == {} then []
    else
      var k := MinKey(s);
      var rest := SortedKeys(s - {k});
      assert forall i | 0 <= i < |rest| :: k < rest[i] by {
        forall i | 0 <= i < |rest| ensures k < rest[i] { assert rest[i] in s - {k}; }
      }
      [k] + rest
  }

  /** Every key is listed. */
  lemma {:induction false} SortedKeysCover(s: set<int>, x: int)
    requires x in s
    ensures x in SortedKeys(s)
    decreases s
  {
    var k := MinKey(s);
    if x != k {
      SortedKeysCover(s - {k}, x);
    }
  }
}
