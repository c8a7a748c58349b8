/**
 * The values one zoom level is made of.  A level is a multimap from a `y`
 * coordinate to the `(x, point)` pairs lying on that line, together with the
 * list of its keys (`arrY`), which drives the sweep over the level.  A point
 * is either an original marker or a cluster object built while sweeping.
 */
module Levels {

  /** A point of a level: a caller's marker, or a cluster object (`items`, `key`, `count`, `zoom`). */
  datatype Entry<T> =
    | Marker(item: T)
    | Cluster(items: seq<Entry<T>>, y: real, x: real, key: real, count: int, zoom: int)

  /** One `(x, p)` pair of a multimap line. */
  datatype Dot<T> = Dot(x: real, p: Entry<T>)

  /** One zoom level: the `y -> [x, p, x, p, ...]` multimap and its key list. */
  datatype Level<T> = Level(dots: map<real, seq<Dot<T>>>, arrY: seq<real>)

  /** `p.count || 1`: markers carry no count and weigh one leaf. */
  function Weight<T>(p: Entry<T>): (w: int)
  {
    if p.Cluster? && p.count != 0 then p.count else 1
  }

  /** Total leaf count of a list of points. */
  function SumW<T>(s: seq<Entry<T>>): (w: int)
  {
    if s == [] then 0 else SumW(s[..|s| - 1]) + Weight(s[|s| - 1])
  }

  /** Total leaf count of one multimap line. */
  function DotsWeight<T>(ds: seq<Dot<T>>): (w: int)
  {
    if ds == [] then 0 else DotsWeight(ds[..|ds| - 1]) + Weight(ds[|ds| - 1].p)
  }

  /** Total leaf count of the lines named by `keys` (a missing line weighs nothing). */
  function KeysWeight<T>(keys: seq<real>, m: map<real, seq<Dot<T>>>): (w: int)
  {
    if keys == [] then 0
    else
      var y := keys[|keys| - 1];
      KeysWeight(keys[..|keys| - 1], m) + LineWeight(y, m)
  }

  /** Total leaf count of a level, read through its key list. */
  function LevelWeight<T>(l: Level<T>): (w: int)
  {
    KeysWeight(l.arrY, l.dots)
  }

  /** Number of `(x, p)` pairs on the lines named by `keys` (a missing line holds none). */
  function KeysPairs<T>(keys: seq<real>, m: map<real, seq<Dot<T>>>): (n: nat)
  {
    if keys == [] then 0
    else
      var y := keys[|keys| - 1];
      KeysPairs(keys[..|keys| - 1], m) + (if y in m then |m[y]| else 0)
  }

  /** Number of `(x, p)` pairs of a level, read through its key list. */
  function LevelPairs<T>(l: Level<T>): (n: nat)
  {
    KeysPairs(l.arrY, l.dots)
  }

  /** Every point weighs at least one leaf. */
  predicate PositiveEntries<T>(s: seq<Entry<T>>)
  {
    forall i :: 0 <= i < |s| ==> Weight(s[i]) >= 1
  }

  predicate PositiveDots<T>(ds: seq<Dot<T>>)
  {
    forall i :: 0 <= i < |ds| ==> Weight(ds[i].p) >= 1
  }

  predicate PositiveLevel<T>(l: Level<T>)
  {
    forall y :: y in l.dots ==> PositiveDots(l.dots[y])
  }

  /** Every key of the list names a line: the sweep reads `map.get(y)` for each of them. */
  predicate KeysPresent<T>(l: Level<T>)
  {
    forall i :: 0 <= i < |l.arrY| ==> l.arrY[i] in l.dots
  }

  predicate Distinct(s: seq<real>)
  {
    forall i, j :: 0 <= i < j < |s| ==> s[i] != s[j]
  }

  predicate Sorted(s: seq<real>)
  {
    forall i, j :: 0 <= i < j < |s| ==> s[i] <= s[j]
  }

  /** A level whose key list is exactly its keys, once each. */
  ghost predicate Exact<T>(l: Level<T>)
  {
    Distinct(l.arrY) && (forall y :: y in l.dots <==> y in l.arrY)
  }

  /** A level as the sweep rebuilds it: exact, with its keys in strictly ascending order. */
  ghost predicate Rebuilt<T>(l: Level<T>)
  {
    Exact(l) && forall i, j :: 0 <= i < j < |l.arrY| ==> l.arrY[i] < l.arrY[j]
  }

  lemma {:induction false} SumWLowerBound<T>(s: seq<Entry<T>>)
    requires PositiveEntries(s)
    ensures SumW(s) >= |s|
  {
    if s != [] {
      SumWLowerBound(s[..|s| - 1]);
    }
  }

  /** Line weights add up over a concatenation of key lists. */
  lemma {:induction false} KeysWeightConcat<T>(a: seq<real>, b: seq<real>, m: map<real, seq<Dot<T>>>)
    ensures KeysWeight(a + b, m) == KeysWeight(a, m) + KeysWeight(b, m)
    decreases |b|
  {
    if b != [] {
      var b' := b[..|b| - 1];
      assert (a + b)[..|a + b| - 1] == a + b';
      KeysWeightConcat(a, b', m);
    } else {
      assert a + b == a;
    }
  }

  /** The weight one key reads. */
  function LineWeight<T>(y: real, m: map<real, seq<Dot<T>>>): (w: int)
  {
    if y in m then DotsWeight(m[y]) else 0
  }

  /** Taking one key out of a key list takes its line's weight out. */
  lemma KeysWeightRemove<T>(b: seq<real>, j: nat, m: map<real, seq<Dot<T>>>)
    requires j < |b|
    ensures multiset(b[..j] + b[j + 1..]) == multiset(b) - multiset{b[j]}
    ensures KeysWeight(b, m) == KeysWeight(b[..j] + b[j + 1..], m) + LineWeight(b[j], m)
  {
    var left, right := b[..j], b[j + 1..];
    assert b == left + [b[j]] + right;
    KeysWeightConcat(left + [b[j]], right, m);
    KeysWeightConcat(left, [b[j]], m);
    KeysWeightConcat(left, right, m);
    assert [b[j]][..0] == [];
  }

  /** Reordering a key list does not change the weight it reads. */
  lemma {:induction false} KeysWeightPermutation<T>(a: seq<real>, b: seq<real>, m: map<real, seq<Dot<T>>>)
    requires multiset(a) == multiset(b)
    ensures KeysWeight(a, m) == KeysWeight(b, m)
    decreases |a|
  {
    if a != [] {
      var y := a[|a| - 1];
      var a' := a[..|a| - 1];
      assert a == a' + [y];
      assert multiset(a') == multiset(a) - multiset{y};
      assert y in multiset(b);
      assert y in b;
      var j :| 0 <= j < |b| && b[j] == y;
      KeysWeightRemove(b, j, m);
      var b' := b[..j] + b[j + 1..];
      assert multiset(a') == multiset(b');
      KeysWeightPermutation(a', b', m);
      assert KeysWeight(a, m) == KeysWeight(a', m) + LineWeight(y, m);
    }
  }

  /**
   * Updating a line that the key list does not name does not change the
   * weight; naming it as a new last key adds exactly that line's weight.
   */
  lemma {:induction false} KeysWeightOtherLine<T>(keys: seq<real>, m: map<real, seq<Dot<T>>>, y: real, v: seq<Dot<T>>)
    requires y !in keys
    ensures KeysWeight(keys, m[y := v]) == KeysWeight(keys, m)
    ensures KeysWeight(keys + [y], m[y := v]) == KeysWeight(keys, m) + DotsWeight(v)
  {
    if keys != [] {
      KeysWeightOtherLine(keys[..|keys| - 1], m, y, v);
    }
    assert (keys + [y])[..|keys + [y]| - 1] == keys;
  }

  /** Appending a pair to a line named once by the key list adds that pair's weight. */
  lemma {:induction false} KeysWeightGrowLine<T>(keys: seq<real>, m: map<real, seq<Dot<T>>>, y: real, d: Dot<T>)
    requires Distinct(keys) && y in keys && y in m
    ensures KeysWeight(keys, m[y := m[y] + [d]]) == KeysWeight(keys, m) + Weight(d.p)
  {
    var last := keys[|keys| - 1];
    var init := keys[..|keys| - 1];
    var m' := m[y := m[y] + [d]];
    assert (m[y] + [d])[..|m[y] + [d]| - 1] == m[y];
    if last == y {
      assert y !in init;
      KeysWeightOtherLine(init, m, y, m[y] + [d]);
    } else {
      assert y in init;
      KeysWeightGrowLine(init, m, y, d);
    }
  }

  /** Insert `x` before the first element not below it (one step of the numeric sort). */
  function Insert(x: real, s: seq<real>): (t: seq<real>)
  {
    if s == [] then [x]
    else if x <= s[0] then [x] + s
    else [s[0]] + Insert(x, s[1..])
  }

  /** Inserting adds exactly one occurrence of `x`. */
  lemma {:induction false} InsertMultiset(x: real, s: seq<real>)
    ensures multiset(Insert(x, s)) == multiset(s) + multiset{x}
  {
    if s != [] && x > s[0] {
      InsertMultiset(x, s[1..]);
      assert s == [s[0]] + s[1..];
    }
  }

  /** Inserting into an ascending list keeps it ascending. */
  lemma {:induction false} InsertSorted(x: real, s: seq<real>)
    requires Sorted(s)
    ensures Sorted(Insert(x, s))
  {
    if s != [] && x > s[0] {
      InsertSorted(x, s[1..]);
      InsertAbove(x, s[1..], s[0]);
      ConsSorted(s[0], Insert(x, s[1..]));
    }
  }

  /** A head no larger than any element of a sorted tail keeps the list sorted. */
  lemma ConsSorted(h: real, t: seq<real>)
    requires Sorted(t) && forall k :: 0 <= k < |t| ==> h <= t[k]
    ensures Sorted([h] + t)
  {
  }

  /** A bound below the list and below `x` stays below the insertion result. */
  lemma InsertAbove(x: real, s: seq<real>, lo: real)
    requires lo <= x && forall k :: 0 <= k < |s| ==> lo <= s[k]
    ensures forall k :: 0 <= k < |Insert(x, s)| ==> lo <= Insert(x, s)[k]
  {
    var t := Insert(x, s);
    InsertMultiset(x, s);
    forall k | 0 <= k < |t| ensures lo <= t[k] {
      assert t[k] in multiset(t);
      assert t[k] in multiset(s) + multiset{x};
    }
  }

  /** Inserting a fresh key into a list without repeats leaves none. */
  lemma {:induction false} InsertDistinct(x: real, s: seq<real>)
    requires Distinct(s) && x !in s
    ensures Distinct(Insert(x, s))
  {
    if s != [] && x > s[0] {
      InsertDistinct(x, s[1..]);
      var t := Insert(x, s[1..]);
      assert s[0] !in multiset(t) by {
        InsertMultiset(x, s[1..]);
        assert s[0] !in multiset(s[1..]);
      }
    }
  }

  /** `Float64Array.prototype.sort`: the keys in ascending numeric order, by insertion. */
  function SortAscending(s: seq<real>): (t: seq<real>)
  {
    if s == [] then [] else Insert(s[0], SortAscending(s[1..]))
  }

  /** The sort returns an ascending permutation of its input. */
  lemma {:induction false} SortAscendingSpec(s: seq<real>)
    ensures Sorted(SortAscending(s))
    ensures multiset(SortAscending(s)) == multiset(s)
  {
    if s != [] {
      SortAscendingSpec(s[1..]);
      InsertSorted(s[0], SortAscending(s[1..]));
      InsertMultiset(s[0], SortAscending(s[1..]));
      assert s == [s[0]] + s[1..];
    }
  }

  /** Sorting a list without repeats leaves none. */
  lemma {:induction false} SortAscendingDistinct(s: seq<real>)
    requires Distinct(s)
    ensures Distinct(SortAscending(s))
  {
    if s != [] {
      SortAscendingDistinct(s[1..]);
      SortAscendingSpec(s[1..]);
      var t := SortAscending(s[1..]);
      assert s[0] !in multiset(t) by {
        assert s[0] !in multiset(s[1..]);
      }
      InsertDistinct(s[0], t);
    }
  }

  /** Sorting a list that is already ascending gives it back unchanged. */
  lemma {:induction false} SortAscendingSorted(s: seq<real>)
    requires Sorted(s)
    ensures SortAscending(s) == s
  {
    if s != [] {
      SortAscendingSorted(s[1..]);
      assert s == [s[0]] + s[1..];
    }
  }

  /** A sorted list without repeats is strictly ascending. */
  lemma SortedDistinctAscending(s: seq<real>)
    requires Sorted(s) && Distinct(s)
    ensures forall i, j :: 0 <= i < j < |s| ==> s[i] < s[j]
  {
  }
}
