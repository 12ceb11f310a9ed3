/**
  `sorted(shapes, key=lambda s: s["layer"], reverse=...)`: a stable sort of
  the shapes by layer, ascending (back to front) or descending (front to
  back). Python's `reverse=True` keeps equal elements in their original
  order, which is the same as a stable ascending sort on the negated layer.
 */
module Ordering {
  import opened Shapes

  /** The sort key: the layer, negated for a descending sort. */
  function Key(s: Shape, descending: bool): int
  {
    if descending then -s.layer else s.layer
  }

  predicate SortedBy(s: seq<Shape>, descending: bool)
  {
    forall i, j :: 0 <= i < j < |s| ==> Key(s[i], descending) <= Key(s[j], descending)
  }

  /** Where `x` goes: in front of the first element whose key is not smaller than its own. */
  function InsertionPoint(x: Shape, t: seq<Shape>, descending: bool): (k: nat)
    ensures k <= |t|
  {
    if t == [] || Key(x, descending) <= Key(t[0], descending) then 0
    else 1 + InsertionPoint(x, t[1..], descending)
  }

  /** Everything before the insertion point has a smaller key, the element at it does not. */
  lemma {:induction false} InsertionPointSplits(x: Shape, t: seq<Shape>, descending: bool)
    ensures var k := InsertionPoint(x, t, descending);
            && (forall i :: 0 <= i < k ==> Key(t[i], descending) < Key(x, descending))
            && (k < |t| ==> Key(x, descending) <= Key(t[k], descending))
  {
    if t != [] && Key(t[0], descending) < Key(x, descending) {
      InsertionPointSplits(x, t[1..], descending);
      var k := InsertionPoint(x, t, descending);
      forall i | 0 <= i < k ensures Key(t[i], descending) < Key(x, descending) {
        if i > 0 {
          assert t[i] == t[1..][i - 1];
        }
      }
      if k < |t| {
        assert t[k] == t[1..][k - 1];
      }
    }
  }

  /** `x` inserted at its insertion point. */
  function Insert(x: Shape, t: seq<Shape>, descending: bool): (r: seq<Shape>)
    ensures |r| == |t| + 1
  {
    var k := InsertionPoint(x, t, descending);
    t[..k] + [x] + t[k..]
  }

  /** Insertion adds exactly the new element. */
  lemma InsertAddsOne(x: Shape, t: seq<Shape>, descending: bool)
    ensures multiset(Insert(x, t, descending)) == multiset(t) + multiset{x}
  {
    var k := InsertionPoint(x, t, descending);
    assert t == t[..k] + t[k..];
    assert multiset(t) == multiset(t[..k]) + multiset(t[k..]);
  }

  /** Inserting into a sorted sequence keeps it sorted. */
  lemma InsertSorted(x: Shape, t: seq<Shape>, descending: bool)
    requires SortedBy(t, descending)
    ensures SortedBy(Insert(x, t, descending), descending)
  {
    var k := InsertionPoint(x, t, descending);
    var r := Insert(x, t, descending);
    InsertionPointSplits(x, t, descending);
    assert forall i :: 0 <= i < k ==> r[i] == t[i];
    assert r[k] == x;
    assert forall i :: k < i < |r| ==> r[i] == t[i - 1];
    forall i, j | 0 <= i < j < |r| ensures Key(r[i], descending) <= Key(r[j], descending) {
      if j == k {
      } else if i == k {
        assert Key(x, descending) <= Key(t[k], descending);
      } else if j < k {
      } else if i < k {
        assert Key(t[i], descending) < Key(x, descending) <= Key(t[k], descending);
      } else {
      }
    }
  }

  /** Stable insertion sort by `Key`. */
  function SortByLayer(s: seq<Shape>, descending: bool): (r: seq<Shape>)
    ensures |r| == |s|
  {
    if s == [] then []
    else Insert(s[0], SortByLayer(s[1..], descending), descending)
  }

  /** The sort is a permutation of its input, in non-decreasing key order. */
  lemma {:induction false} SortByLayerSorts(s: seq<Shape>, descending: bool)
    ensures multiset(SortByLayer(s, descending)) == multiset(s)
    ensures SortedBy(SortByLayer(s, descending), descending)
  {
    if s != [] {
      assert s == [s[0]] + s[1..];
      SortByLayerSorts(s[1..], descending);
      InsertAddsOne(s[0], SortByLayer(s[1..], descending), descending);
      InsertSorted(s[0], SortByLayer(s[1..], descending), descending);
    }
  }

  function Reverse(s: seq<Shape>): (r: seq<Shape>)
    ensures |r| == |s|
    ensures forall i :: 0 <= i < |s| ==> r[i] == s[|s| - 1 - i]
  {
    if s == [] then [] else Reverse(s[1..]) + [s[0]]
  }

  /** A sequence already in strictly increasing layer order is left as it is by the ascending sort. */
  lemma {:induction false} SortAscendingKeepsOrder(s: seq<Shape>)
    requires IncreasingLayers(s)
    ensures SortByLayer(s, false) == s
  {
    if s != [] {
      SortAscendingKeepsOrder(s[1..]);
      assert s == [s[0]] + s[1..];
    }
  }

  /** Inserting an element with a larger key than all others puts it last. */
  lemma {:induction false} InsertLargestAppends(x: Shape, t: seq<Shape>, descending: bool)
    requires forall i :: 0 <= i < |t| ==> Key(t[i], descending) < Key(x, descending)
    ensures Insert(x, t, descending) == t + [x]
  {
    InsertionPointSplits(x, t, descending);
    var k := InsertionPoint(x, t, descending);
    assert k == |t|;
    assert t[..k] == t && t[k..] == [];
  }

  /** A sequence in strictly increasing layer order comes out of the descending sort reversed. */
  lemma {:induction false} SortDescendingReverses(s: seq<Shape>)
    requires IncreasingLayers(s)
    ensures SortByLayer(s, true) == Reverse(s)
  {
    if s != [] {
      var t := s[1..];
      SortDescendingReverses(t);
      forall i | 0 <= i < |t| ensures Key(Reverse(t)[i], true) < Key(s[0], true) {
        assert Reverse(t)[i] == s[|s| - 1 - i];
      }
      InsertLargestAppends(s[0], Reverse(t), true);
      assert Reverse(s) == Reverse(t) + [s[0]];
    }
  }

  /** Element by element: on a strictly layered sequence the descending sort puts element `|s| - 1 - i` at index `i`. */
  lemma DescendingMirrors(s: seq<Shape>)
    requires IncreasingLayers(s)
    ensures |SortByLayer(s, true)| == |s|
    ensures forall i :: 0 <= i < |s| ==> SortByLayer(s, true)[i] == s[|s| - 1 - i]
  {
    SortDescendingReverses(s);
  }

  /** The two sort directions give mirror images of each other on a strictly layered sequence. */
  lemma DescendingIsReverseOfAscending(s: seq<Shape>)
    requires IncreasingLayers(s)
    ensures SortByLayer(s, true) == Reverse(SortByLayer(s, false))
  {
    SortAscendingKeepsOrder(s);
    SortDescendingReverses(s);
  }
}
