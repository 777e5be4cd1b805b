/** `bisect.insort` (insort_right) over a list kept in descending order of a
    key.  Both ordered lists of the engine use it with a reversed `__lt__`
    (`x < y` holds when `key(x) > key(y)`): the execution history with
    `State.time` and the intentions queue with `Goal.priority`. */
module Insort {

  /** Non-increasing order of `key`: larger keys first. */
  ghost predicate SortedDesc<T>(s: seq<T>, key: T -> int)
  {
    forall i, j :: 0 <= i < j < |s| ==> key(s[i]) >= key(s[j])
  }

  /** Reference definition of the insertion: `x` goes after every element
      whose key is at least its own. */
  function Insert<T>(s: seq<T>, x: T, key: T -> int): (r: seq<T>)
    ensures |r| == |s| + 1
    ensures multiset(r) == multiset(s) + multiset{x}
  {
    if s == [] then [x]
    else if key(s[0]) >= key(x) then
      assert s == [s[0]] + s[1..];
      [s[0]] + Insert(s[1..], x, key)
    else [x] + s
  }

  /** The position `Insert` puts `x` at: the number of leading elements
      whose key is at least `key(x)`. */
  function InsertionPoint<T>(s: seq<T>, x: T, key: T -> int): (i: nat)
    ensures i <= |s|
  {
    if s == [] || key(s[0]) < key(x) then 0 else 1 + InsertionPoint(s[1..], x, key)
  }

  /** `Insert` places `x` at its insertion point and keeps every other element
      in its old relative order. */
  lemma {:induction false} InsertAt<T>(s: seq<T>, x: T, key: T -> int)
    ensures Insert(s, x, key) == s[..InsertionPoint(s, x, key)] + [x] + s[InsertionPoint(s, x, key)..]
  {
    if s != [] && key(s[0]) >= key(x) {
      var t := s[1..];
      InsertAt(t, x, key);
      var i := InsertionPoint(t, x, key);
      assert Insert(s, x, key) == [s[0]] + (t[..i] + [x] + t[i..]);
      ConsAround(s, i, x);
    } else {
      assert s[..InsertionPoint(s, x, key)] == [];
      assert s[InsertionPoint(s, x, key)..] == s;
    }
  }

  /** Putting the head back in front of a split of the tail. */
  lemma ConsAround<T>(s: seq<T>, i: nat, x: T)
    requires i < |s|
    ensures [s[0]] + (s[1..][..i] + [x] + s[1..][i..]) == s[..i + 1] + [x] + s[i + 1..]
  {
    assert s[..i + 1] == [s[0]] + s[1..][..i];
    assert s[i + 1..] == s[1..][i..];
  }

  /** The parts of `a + [x] + b` around position `|a|`. */
  lemma AroundParts<T>(a: seq<T>, x: T, b: seq<T>, i: nat)
    requires i == |a|
    ensures (a + [x] + b)[i] == x
    ensures (a + [x] + b)[..i] + (a + [x] + b)[i + 1..] == a + b
  {
    assert (a + [x] + b)[..i] == a;
    assert (a + [x] + b)[i + 1..] == b;
  }

  /** In a sorted list, every element before the insertion point has a key at
      least `key(x)` and every one from it on has a smaller key. */
  lemma {:induction false} InsertionPointSplits<T>(s: seq<T>, x: T, key: T -> int)
    requires SortedDesc(s, key)
    ensures forall j :: 0 <= j < InsertionPoint(s, x, key) ==> key(s[j]) >= key(x)
    ensures forall j :: InsertionPoint(s, x, key) <= j < |s| ==> key(s[j]) < key(x)
  {
    if s != [] && key(s[0]) >= key(x) {
      InsertionPointSplits(s[1..], x, key);
      forall j | 0 < j < |s| ensures s[1..][j - 1] == s[j] { }
    }
  }

  /** The insertion point is the only place that splits a sorted list into
      "keys at least key(x)" and "keys below key(x)". */
  lemma {:induction false} InsertionPointUnique<T>(s: seq<T>, x: T, key: T -> int, i: nat)
    requires i <= |s|
    requires forall j :: 0 <= j < i ==> key(s[j]) >= key(x)
    requires forall j :: i <= j < |s| ==> key(s[j]) < key(x)
    ensures InsertionPoint(s, x, key) == i
  {
    if s != [] && i > 0 {
      InsertionPointUnique(s[1..], x, key, i - 1);
    }
  }

  /** Element by element: the old elements before the insertion point, then
      `x`, then the rest of the old elements. */
  lemma InsertIndex<T>(s: seq<T>, x: T, key: T -> int)
    ensures var i := InsertionPoint(s, x, key);
            var r := Insert(s, x, key);
            forall a :: 0 <= a < |r| ==> r[a] == if a < i then s[a] else if a == i then x else s[a - 1]
  {
    InsertAt(s, x, key);
  }

  /** `InsertIndex` at one position. */
  lemma InsertIndexAt<T>(s: seq<T>, x: T, key: T -> int, a: int)
    requires 0 <= a <= |s|
    ensures var i := InsertionPoint(s, x, key);
            Insert(s, x, key)[a] == if a < i then s[a] else if a == i then x else s[a - 1]
  {
    var i := InsertionPoint(s, x, key);
    var r := Insert(s, x, key);
    InsertAt(s, x, key);
    assert r == s[..i] + [x] + s[i..];
    if a < i {
      assert r[a] == s[..i][a] == s[a];
    } else if a > i {
      assert r[a] == s[i..][a - i - 1] == s[a - 1];
    } else {
      assert r[a] == x;
    }
  }

  /** Insertion keeps a list sorted. */
  lemma InsertSorted<T>(s: seq<T>, x: T, key: T -> int)
    requires SortedDesc(s, key)
    ensures SortedDesc(Insert(s, x, key), key)
  {
    InsertIndex(s, x, key);
    InsertionPointSplits(s, x, key);
  }

  /** Removing the inserted element gives the old list back: the relative
      order of the existing elements is preserved. */
  lemma InsertThenRemove<T>(s: seq<T>, x: T, key: T -> int)
    ensures var i := InsertionPoint(s, x, key);
            var r := Insert(s, x, key);
            r[i] == x && r[..i] + r[i + 1..] == s
  {
    var i := InsertionPoint(s, x, key);
    var a, b := s[..i], s[i..];
    assert Insert(s, x, key) == a + [x] + b by {
      InsertAt(s, x, key);
    }
    assert a + b == s;
    AroundParts(a, x, b, i);
  }

  /** `bisect.insort(s, x)`: binary search for the right-most position (the
      bisect_right loop, with `x < s[mid]` meaning `key(x) > key(s[mid])`),
      then insert there. */
  method InsortRight<T>(s: seq<T>, x: T, key: T -> int) returns (r: seq<T>)
    requires SortedDesc(s, key)
    ensures r == Insert(s, x, key)
  {
    var lo, hi := 0, |s|;
    while lo < hi
      invariant 0 <= lo <= hi <= |s|
      invariant forall j :: 0 <= j < lo ==> key(s[j]) >= key(x)
      invariant forall j :: hi <= j < |s| ==> key(s[j]) < key(x)
    {
      var mid := (lo + hi) / 2;
      if key(x) > key(s[mid]) {
        hi := mid;
      } else {
        lo := mid + 1;
      }
    }
    r := s[..lo] + [x] + s[lo..];
    InsertionPointUnique(s, x, key, lo);
    InsertAt(s, x, key);
  }
}
