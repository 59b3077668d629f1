/**
 * The array manipulations the React pages perform on copies of their row
 * lists: moving one element with two `splice` calls (drag and drop), and
 * dropping the element at one index with `filter((_, i) => i !== index)`.
 */
module ListOps {
  import opened Common

  /** `copy.splice(i, 1)`: the sequence without the element at `i`. */
  function RemoveAt<T>(s: seq<T>, i: nat): (r: seq<T>)
    requires i < |s|
    ensures |r| == |s| - 1
    ensures forall k :: 0 <= k < i ==> r[k] == s[k]
    ensures forall k :: i <= k < |r| ==> r[k] == s[k + 1]
  {
    s[..i] + s[i + 1..]
  }

  /** `copy.splice(i, 0, x)`: the sequence with `x` inserted before position `i`. */
  function InsertAt<T>(s: seq<T>, i: nat, x: T): (r: seq<T>)
    requires i <= |s|
    ensures |r| == |s| + 1 && r[i] == x
    ensures forall k :: 0 <= k < i ==> r[k] == s[k]
    ensures forall k :: i < k < |r| ==> r[k] == s[k - 1]
  {
    s[..i] + [x] + s[i..]
  }

  /**
   * The drag-end reorder: the element at `from` is taken out and put back so
   * that it ends up at index `to`.
   */
  function Move<T>(s: seq<T>, from: nat, to: nat): seq<T>
    requires from < |s| && to < |s|
  {
    InsertAt(RemoveAt(s, from), to, s[from])
  }

  /** A move is a permutation that puts the dragged element at its destination. */
  lemma MovePermutes<T>(s: seq<T>, from: nat, to: nat)
    requires from < |s| && to < |s|
    ensures |Move(s, from, to)| == |s|
    ensures Move(s, from, to)[to] == s[from]
    ensures multiset(Move(s, from, to)) == multiset(s)
  {
    var rest := RemoveAt(s, from);
    assert s == s[..from] + [s[from]] + s[from + 1..];
    calc {
      multiset(Move(s, from, to));
      multiset(rest[..to]) + multiset([s[from]]) + multiset(rest[to..]);
      { assert rest == rest[..to] + rest[to..]; }
      multiset(rest) + multiset([s[from]]);
      multiset(s[..from]) + multiset(s[from + 1..]) + multiset([s[from]]);
      multiset(s);
    }
  }

  /**
   * The other elements keep their relative order: taking the dragged element
   * back out of the result gives the list without it.
   */
  lemma MoveKeepsOthersInOrder<T>(s: seq<T>, from: nat, to: nat)
    requires from < |s| && to < |s|
    ensures RemoveAt(Move(s, from, to), to) == RemoveAt(s, from)
  {
  }

  /** Element-wise description of a move, for both drag directions. */
  lemma MoveAt<T>(s: seq<T>, from: nat, to: nat, k: nat)
    requires from < |s| && to < |s| && k < |s|
    ensures |Move(s, from, to)| == |s|
    ensures k < from && k < to ==> Move(s, from, to)[k] == s[k]
    ensures k > from && k > to ==> Move(s, from, to)[k] == s[k]
    ensures from <= k < to ==> Move(s, from, to)[k] == s[k + 1]
    ensures to < k <= from ==> Move(s, from, to)[k] == s[k - 1]
    ensures k == to ==> Move(s, from, to)[k] == s[from]
  {
  }

  /** Dragging an element onto its own place changes nothing. */
  lemma MoveInPlace<T>(s: seq<T>, i: nat)
    requires i < |s|
    ensures Move(s, i, i) == s
  {
    assert Move(s, i, i) == s[..i] + [s[i]] + s[i + 1..];
    assert s == s[..i] + [s[i]] + s[i + 1..];
  }

  /**
   * `prev.filter((_, i) => i !== index)`: every element except the one at
   * `index`; an index past the end removes nothing.
   */
  function WithoutIndex<T>(s: seq<T>, index: nat): (r: seq<T>)
    ensures index >= |s| ==> r == s
    ensures index < |s| ==> |r| == |s| - 1
    ensures forall k :: 0 <= k < index && k < |s| ==> r[k] == s[k]
    ensures forall k :: index <= k < |s| - 1 && index < |s| ==> r[k] == s[k + 1]
  {
    if index < |s| then s[..index] + s[index + 1..] else s
  }

  // ---------------------------------------------------------------------
  // Sorting by an integer key (`Array.prototype.sort` with `a.k - b.k`,
  // `order_by("k")`): a stable insertion sort
  // ---------------------------------------------------------------------

  predicate SortedBy<T>(s: seq<T>, key: T -> int)
  {
    forall i, j :: 0 <= i < j < |s| ==> key(s[i]) <= key(s[j])
  }

  /** Puts `x` after every element whose key is not above its own. */
  function InsertBy<T>(sorted: seq<T>, x: T, key: T -> int): (r: seq<T>)
    ensures |r| == |sorted| + 1
    ensures multiset(r) == multiset(sorted) + multiset{x}
  {
    if sorted == [] then [x]
    else if key(x) < key(sorted[0]) then [x] + sorted
    else
      assert sorted == [sorted[0]] + sorted[1..];
      [sorted[0]] + InsertBy(sorted[1..], x, key)
  }

  lemma {:induction false} InsertByKeepsSorted<T>(sorted: seq<T>, x: T, key: T -> int)
    requires SortedBy(sorted, key)
    ensures SortedBy(InsertBy(sorted, x, key), key)
  {
    if sorted != [] && key(x) >= key(sorted[0]) {
      var rest := InsertBy(sorted[1..], x, key);
      InsertByKeepsSorted(sorted[1..], x, key);
      forall k | 0 <= k < |rest|
        ensures key(sorted[0]) <= key(rest[k])
      {
        assert rest[k] in multiset(rest);
        if rest[k] != x {
          assert rest[k] in multiset(sorted[1..]);
          var j :| 0 <= j < |sorted[1..]| && sorted[1..][j] == rest[k];
          assert sorted[j + 1] == rest[k];
        }
      }
      var r := [sorted[0]] + rest;
      forall i, j | 0 <= i < j < |r| ensures key(r[i]) <= key(r[j]) {
        if i > 0 {
          assert r[i] == rest[i - 1] && r[j] == rest[j - 1];
        }
      }
    }
  }

  /** Inserting an element whose key is not below any other appends it. */
  lemma {:induction false} InsertByLast<T>(sorted: seq<T>, x: T, key: T -> int)
    requires forall k :: 0 <= k < |sorted| ==> key(sorted[k]) <= key(x)
    ensures InsertBy(sorted, x, key) == sorted + [x]
  {
    if sorted != [] {
      InsertByLast(sorted[1..], x, key);
      assert [sorted[0]] + (sorted[1..] + [x]) == sorted + [x];
    }
  }

  /** The list sorted by `key`, elements with equal keys in their original order. */
  function SortBy<T>(s: seq<T>, key: T -> int): (r: seq<T>)
    ensures |r| == |s|
    ensures multiset(r) == multiset(s)
  {
    if s == [] then []
    else
      assert s == s[..|s| - 1] + [s[|s| - 1]];
      InsertBy(SortBy(s[..|s| - 1], key), s[|s| - 1], key)
  }

  /** The result of a sort is ordered by the key. */
  lemma {:induction false} SortBySorted<T>(s: seq<T>, key: T -> int)
    ensures SortedBy(SortBy(s, key), key)
  {
    if s != [] {
      SortBySorted(s[..|s| - 1], key);
      InsertByKeepsSorted(SortBy(s[..|s| - 1], key), s[|s| - 1], key);
    }
  }

  /** Sorting a list that is already in order changes nothing. */
  lemma {:induction false} SortByOfSorted<T>(s: seq<T>, key: T -> int)
    requires SortedBy(s, key)
    ensures SortBy(s, key) == s
  {
    if s != [] {
      var init := s[..|s| - 1];
      assert SortedBy(init, key) by {
        forall i, j | 0 <= i < j < |init| ensures key(init[i]) <= key(init[j]) {
          assert init[i] == s[i] && init[j] == s[j];
        }
      }
      SortByOfSorted(init, key);
      InsertByLast(init, s[|s| - 1], key);
      assert init + [s[|s| - 1]] == s;
    }
  }

  /** The same element is in a list and in its sorted copy. */
  lemma SortByMembers<T>(s: seq<T>, key: T -> int)
    ensures forall x :: x in SortBy(s, key) <==> x in s
  {
    var r := SortBy(s, key);
    assert forall x :: x in r <==> x in multiset(r);
    assert forall x :: x in s <==> x in multiset(s);
  }

  /** `map(f)`: one image per element, in order. */
  function MapSeq<T, U>(s: seq<T>, f: T -> U): (r: seq<U>)
    ensures |r| == |s|
    ensures forall k :: 0 <= k < |s| ==> r[k] == f(s[k])
  {
    seq(|s|, k requires 0 <= k < |s| => f(s[k]))
  }

  /** The images of the elements a filter keeps are exactly the images of the elements satisfying it. */
  lemma MapFilterMembers<T, U>(s: seq<T>, p: T -> bool, f: T -> U)
    ensures forall y :: y in MapSeq(Filter(s, p), f) ==> exists k :: 0 <= k < |s| && p(s[k]) && y == f(s[k])
    ensures forall k :: 0 <= k < |s| && p(s[k]) ==> f(s[k]) in MapSeq(Filter(s, p), f)
  {
    var kept := Filter(s, p);
    var r := MapSeq(kept, f);
    forall y | y in r ensures exists k :: 0 <= k < |s| && p(s[k]) && y == f(s[k]) {
      var i :| 0 <= i < |r| && r[i] == y;
      var k :| 0 <= k < |s| && s[k] == kept[i];
    }
    forall k | 0 <= k < |s| && p(s[k]) ensures f(s[k]) in r {
      var i :| 0 <= i < |kept| && kept[i] == s[k];
      assert r[i] == f(s[k]);
    }
  }

  // ---------------------------------------------------------------------
  // Rows identified by a key (`model_field_name`)
  // ---------------------------------------------------------------------

  /** No two elements share a key. */
  predicate DistinctBy<T, K(==)>(s: seq<T>, f: T -> K)
  {
    forall i, j :: 0 <= i < j < |s| ==> f(s[i]) != f(s[j])
  }

  /** Inserting an element whose key is new keeps the keys distinct. */
  lemma {:induction false} InsertByDistinct<T, K>(sorted: seq<T>, x: T, key: T -> int, f: T -> K)
    requires DistinctBy(sorted, f)
    requires forall k :: 0 <= k < |sorted| ==> f(sorted[k]) != f(x)
    ensures DistinctBy(InsertBy(sorted, x, key), f)
  {
    if sorted != [] && key(x) >= key(sorted[0]) {
      var tail := sorted[1..];
      assert DistinctBy(tail, f) by {
        forall i, j | 0 <= i < j < |tail| ensures f(tail[i]) != f(tail[j]) {
          assert tail[i] == sorted[i + 1] && tail[j] == sorted[j + 1];
        }
      }
      InsertByDistinct(tail, x, key, f);
      var rest := InsertBy(tail, x, key);
      forall k | 0 <= k < |rest| ensures f(rest[k]) != f(sorted[0]) {
        assert rest[k] in multiset(rest);
        if rest[k] != x {
          assert rest[k] in multiset(tail);
          var j :| 0 <= j < |tail| && tail[j] == rest[k];
          assert sorted[j + 1] == rest[k];
        }
      }
      var r := [sorted[0]] + rest;
      forall i, j | 0 <= i < j < |r| ensures f(r[i]) != f(r[j]) {
        if i > 0 {
          assert r[i] == rest[i - 1] && r[j] == rest[j - 1];
        }
      }
    } else if sorted != [] {
      var r := [x] + sorted;
      forall i, j | 0 <= i < j < |r| ensures f(r[i]) != f(r[j]) {
        if i > 0 {
          assert r[i] == sorted[i - 1] && r[j] == sorted[j - 1];
        }
      }
    }
  }

  /** Sorting keeps the keys distinct. */
  lemma {:induction false} SortByDistinct<T, K>(s: seq<T>, key: T -> int, f: T -> K)
    requires DistinctBy(s, f)
    ensures DistinctBy(SortBy(s, key), f)
  {
    if s != [] {
      var init := s[..|s| - 1];
      var last := s[|s| - 1];
      assert DistinctBy(init, f) by {
        forall i, j | 0 <= i < j < |init| ensures f(init[i]) != f(init[j]) {
          assert init[i] == s[i] && init[j] == s[j];
        }
      }
      SortByDistinct(init, key, f);
      var sorted := SortBy(init, key);
      forall k | 0 <= k < |sorted| ensures f(sorted[k]) != f(last) {
        assert sorted[k] in multiset(sorted);
        assert sorted[k] in multiset(init);
        var j :| 0 <= j < |init| && init[j] == sorted[k];
        assert s[j] == sorted[k];
      }
      InsertByDistinct(sorted, last, key, f);
    }
  }

  /** A move keeps the keys distinct. */
  lemma MoveDistinct<T, K>(s: seq<T>, from: nat, to: nat, f: T -> K)
    requires from < |s| && to < |s|
    requires DistinctBy(s, f)
    ensures DistinctBy(Move(s, from, to), f)
  {
    var m := Move(s, from, to);
    forall i, j | 0 <= i < j < |m| ensures f(m[i]) != f(m[j]) {
      MoveAt(s, from, to, i);
      MoveAt(s, from, to, j);
    }
  }

  /** The index of the element with key `k`, if there is one. */
  function IndexOf<T, K(==)>(s: seq<T>, f: T -> K, k: K): (r: Option<nat>)
    ensures r.Some? ==> r.value < |s| && f(s[r.value]) == k
    ensures r.None? <==> forall i :: 0 <= i < |s| ==> f(s[i]) != k
    ensures r.Some? ==> forall j :: 0 <= j < r.value ==> f(s[j]) != k
  {
    if s == [] then None
    else if f(s[0]) == k then Some(0)
    else
      var rest := IndexOf(s[1..], f, k);
      assert forall i :: 1 <= i < |s| ==> s[i] == s[1..][i - 1];
      match rest
      case None => None
      case Some(i) => Some(i + 1)
  }

  /** With distinct keys, the index of an element's key is its own index. */
  lemma IndexOfDistinct<T, K>(s: seq<T>, f: T -> K, i: nat)
    requires i < |s| && DistinctBy(s, f)
    ensures IndexOf(s, f, f(s[i])) == Some(i)
  {
    var r := IndexOf(s, f, f(s[i]));
    assert r.Some?;
    assert f(s[r.value]) == f(s[i]);
  }

  /**
   * `items.map((item, index) => ({...item, order: (index + 1) * 10}))`:
   * every element gets the order 10 times its position plus one.
   */
  function Renumber<T>(s: seq<T>, setOrder: (T, int) -> T): (r: seq<T>)
    ensures |r| == |s|
    ensures forall k :: 0 <= k < |s| ==> r[k] == setOrder(s[k], (k + 1) * 10)
  {
    seq(|s|, k requires 0 <= k < |s| => setOrder(s[k], (k + 1) * 10))
  }

  /**
   * When the order key reads back what was set, a renumbered list is in
   * strictly increasing order, 10, 20, 30, …, and sorting it changes nothing.
   */
  lemma RenumberSorted<T>(s: seq<T>, setOrder: (T, int) -> T, key: T -> int)
    requires forall x, n :: key(setOrder(x, n)) == n
    ensures forall k :: 0 <= k < |s| ==> key(Renumber(s, setOrder)[k]) == (k + 1) * 10
    ensures forall i, j :: 0 <= i < j < |s| ==> key(Renumber(s, setOrder)[i]) < key(Renumber(s, setOrder)[j])
    ensures SortBy(Renumber(s, setOrder), key) == Renumber(s, setOrder)
  {
    SortByOfSorted(Renumber(s, setOrder), key);
  }

  // ---------------------------------------------------------------------
  // Filling an insertion-ordered `Map` with `if (!map.has(k)) map.set(k, v)`
  // ---------------------------------------------------------------------

  /** Appends each item whose key is not yet present, in order. */
  function AppendNew<T, K(==)>(acc: seq<T>, items: seq<T>, f: T -> K): (r: seq<T>)
    decreases |items|
  {
    if items == [] then acc
    else AppendNew(if IndexOf(acc, f, f(items[0])).Some? then acc else acc + [items[0]], items[1..], f)
  }

  /**
   * What was there stays in front; every element comes from the map or the
   * items; every key of the items ends up present; no key is added twice.
   */
  lemma {:induction false} AppendNewMeaning<T, K>(acc: seq<T>, items: seq<T>, f: T -> K)
    requires DistinctBy(acc, f)
    ensures |AppendNew(acc, items, f)| >= |acc| && AppendNew(acc, items, f)[..|acc|] == acc
    ensures forall x :: x in AppendNew(acc, items, f) ==> x in acc || x in items
    ensures forall k :: 0 <= k < |items| ==> IndexOf(AppendNew(acc, items, f), f, f(items[k])).Some?
    ensures DistinctBy(AppendNew(acc, items, f), f)
    decreases |items|
  {
    if items != [] {
      var next := if IndexOf(acc, f, f(items[0])).Some? then acc else acc + [items[0]];
      assert DistinctBy(next, f) by {
        if IndexOf(acc, f, f(items[0])).None? {
          forall i, j | 0 <= i < j < |next| ensures f(next[i]) != f(next[j]) {
            if j == |acc| {
              assert next[i] == acc[i];
            }
          }
        }
      }
      AppendNewMeaning(next, items[1..], f);
      var r := AppendNew(acc, items, f);
      assert r[..|next|][..|acc|] == acc;
      assert IndexOf(next, f, f(items[0])).Some? by {
        if IndexOf(acc, f, f(items[0])).None? {
          assert next[|acc|] == items[0];
        }
      }
      AppendNewKeepsKey(next, items[1..], f, f(items[0]));
      forall k | 1 <= k < |items| ensures IndexOf(r, f, f(items[k])).Some? {
        assert items[k] == items[1..][k - 1];
      }
    }
  }

  /** A key present before stays present. */
  lemma {:induction false} AppendNewKeepsKey<T, K>(acc: seq<T>, items: seq<T>, f: T -> K, key: K)
    requires IndexOf(acc, f, key).Some?
    ensures IndexOf(AppendNew(acc, items, f), f, key).Some?
    decreases |items|
  {
    if items != [] {
      var next := if IndexOf(acc, f, f(items[0])).Some? then acc else acc + [items[0]];
      assert IndexOf(next, f, key).Some? by {
        var i := IndexOf(acc, f, key).value;
        assert next[i] == acc[i];
      }
      AppendNewKeepsKey(next, items[1..], f, key);
    }
  }

  /** The first item with a key not in the map is the one that lands in it. */
  lemma {:induction false} AppendNewFirstWins<T, K>(acc: seq<T>, items: seq<T>, f: T -> K, i: nat)
    requires i < |items|
    requires IndexOf(acc, f, f(items[i])).None?
    requires forall j :: 0 <= j < i ==> f(items[j]) != f(items[i])
    ensures items[i] in AppendNew(acc, items, f)
    decreases |items|
  {
    var next := if IndexOf(acc, f, f(items[0])).Some? then acc else acc + [items[0]];
    if i == 0 {
      AppendNewKeepsElement(next, items[1..], f, |acc|);
    } else {
      assert IndexOf(next, f, f(items[i])).None? by {
        if IndexOf(acc, f, f(items[0])).None? {
          assert next[|acc|] == items[0];
        }
      }
      assert items[1..][i - 1] == items[i];
      AppendNewFirstWins(next, items[1..], f, i - 1);
    }
  }

  /** An element already in the map stays at its place. */
  lemma {:induction false} AppendNewKeepsElement<T, K>(acc: seq<T>, items: seq<T>, f: T -> K, p: nat)
    requires p < |acc|
    ensures |AppendNew(acc, items, f)| > p && AppendNew(acc, items, f)[p] == acc[p]
    decreases |items|
  {
    if items != [] {
      var next := if IndexOf(acc, f, f(items[0])).Some? then acc else acc + [items[0]];
      AppendNewKeepsElement(next, items[1..], f, p);
    }
  }

  /** One step of the fill: the first item is added when its key is new, then the rest follow. */
  lemma AppendNewCons<T, K>(acc: seq<T>, x: T, rest: seq<T>, f: T -> K)
    ensures AppendNew(acc, [x] + rest, f)
         == AppendNew(if IndexOf(acc, f, f(x)).Some? then acc else acc + [x], rest, f)
  {
    assert ([x] + rest)[1..] == rest;
  }

  /** Filling an empty map: the element kept for a key is the first item with that key. */
  lemma AppendNewPicksFirst<T, K>(items: seq<T>, f: T -> K, k: nat)
    requires k < |items|
    ensures var r := AppendNew([], items, f);
      var p := IndexOf(items, f, f(items[k]));
      p.Some? && IndexOf(r, f, f(items[k])).Some?
      && r[IndexOf(r, f, f(items[k])).value] == items[p.value]
  {
    var p := IndexOf(items, f, f(items[k])).value;
    var r := AppendNew([], items, f);
    AppendNewMeaning([], items, f);
    AppendNewFirstWins([], items, f, p);
    var q :| 0 <= q < |r| && r[q] == items[p];
    IndexOfDistinct(r, f, q);
  }

  /** The key of every item is present after the fill. */
  lemma {:induction false} AppendNewHasItem<T, K>(acc: seq<T>, items: seq<T>, f: T -> K, k: nat)
    requires k < |items|
    ensures IndexOf(AppendNew(acc, items, f), f, f(items[k])).Some?
    decreases |items|
  {
    var next := if IndexOf(acc, f, f(items[0])).Some? then acc else acc + [items[0]];
    if k == 0 {
      assert IndexOf(next, f, f(items[0])).Some? by {
        if IndexOf(acc, f, f(items[0])).None? {
          assert next[|acc|] == items[0];
        }
      }
      AppendNewKeepsKey(next, items[1..], f, f(items[0]));
    } else {
      assert items[1..][k - 1] == items[k];
      AppendNewHasItem(next, items[1..], f, k - 1);
    }
  }

  // ---------------------------------------------------------------------
  // Filling an insertion-ordered `Map` with `map.set(k, v)`: a new key is
  // appended, a present key keeps its place and takes the new value
  // ---------------------------------------------------------------------

  function Upsert<T, K(==)>(acc: seq<T>, x: T, f: T -> K): (r: seq<T>)
    ensures |r| >= |acc|
  {
    match IndexOf(acc, f, f(x))
    case Some(i) => acc[i := x]
    case None => acc + [x]
  }

  function UpsertAll<T, K(==)>(acc: seq<T>, items: seq<T>, f: T -> K): seq<T>
    decreases |items|
  {
    if items == [] then acc else UpsertAll(Upsert(acc, items[0], f), items[1..], f)
  }

  /** Setting one more item after a sequence of them. */
  lemma {:induction false} UpsertAllSnoc<T, K>(acc: seq<T>, items: seq<T>, x: T, f: T -> K)
    ensures UpsertAll(acc, items + [x], f) == Upsert(UpsertAll(acc, items, f), x, f)
    decreases |items|
  {
    if items == [] {
      assert items + [x] == [x] && [x][1..] == [];
    } else {
      assert (items + [x])[0] == items[0];
      assert (items + [x])[1..] == items[1..] + [x];
      UpsertAllSnoc(Upsert(acc, items[0], f), items[1..], x, f);
    }
  }

  /** Setting the items of a concatenation is setting the first part, then the second. */
  lemma {:induction false} UpsertAllAppend<T, K>(acc: seq<T>, a: seq<T>, b: seq<T>, f: T -> K)
    ensures UpsertAll(acc, a + b, f) == UpsertAll(UpsertAll(acc, a, f), b, f)
    decreases |a|
  {
    if a == [] {
      assert a + b == b;
    } else {
      assert (a + b)[0] == a[0];
      assert (a + b)[1..] == a[1..] + b;
      UpsertAllAppend(Upsert(acc, a[0], f), a[1..], b, f);
    }
  }

  /** Setting keys that are all new appends the items in order. */
  lemma {:induction false} UpsertAllFresh<T, K>(acc: seq<T>, items: seq<T>, f: T -> K)
    requires DistinctBy(acc + items, f)
    ensures UpsertAll(acc, items, f) == acc + items
    decreases |items|
  {
    if items != [] {
      var all := acc + items;
      assert all[|acc|] == items[0];
      assert forall i :: 0 <= i < |acc| ==> all[i] == acc[i];
      assert IndexOf(acc, f, f(items[0])).None?;
      assert all == (acc + [items[0]]) + items[1..];
      UpsertAllFresh(acc + [items[0]], items[1..], f);
    }
  }

  /** One set: keys stay at their places, the set key is present with the new value, and nothing else changes. */
  lemma UpsertMeaning<T, K>(acc: seq<T>, x: T, f: T -> K)
    requires DistinctBy(acc, f)
    ensures var r := Upsert(acc, x, f);
      DistinctBy(r, f) && x in r
      && (forall i :: 0 <= i < |acc| ==> f(r[i]) == f(acc[i]))
      && (forall y :: y in r ==> y in acc || y == x)
      && (forall i :: 0 <= i < |acc| && f(acc[i]) != f(x) ==> r[i] == acc[i])
  {
    var r := Upsert(acc, x, f);
    if IndexOf(acc, f, f(x)).None? {
      assert r[|acc|] == x;
      forall i, j | 0 <= i < j < |r| ensures f(r[i]) != f(r[j]) {
        if j == |acc| {
          assert r[i] == acc[i];
        }
      }
    } else {
      var p := IndexOf(acc, f, f(x)).value;
      assert r[p] == x;
      forall y | y in r ensures y in acc || y == x {
        var q :| 0 <= q < |r| && r[q] == y;
        if q != p {
          assert r[q] == acc[q];
        }
      }
    }
  }

  /**
   * Setting a sequence of items in turn: keys are never duplicated and keep
   * the place of their first setting, every key set is present, and an item
   * that no later item overrides is in the result (the last setting wins).
   */
  lemma {:induction false} UpsertAllMeaning<T, K>(acc: seq<T>, items: seq<T>, f: T -> K)
    requires DistinctBy(acc, f)
    ensures var r := UpsertAll(acc, items, f);
      DistinctBy(r, f)
      && |r| >= |acc| && (forall i :: 0 <= i < |acc| ==> f(r[i]) == f(acc[i]))
      && (forall y :: y in r ==> y in acc || y in items)
      && (forall k :: 0 <= k < |items| ==> IndexOf(r, f, f(items[k])).Some?)
      && (forall k :: 0 <= k < |items| && (forall j :: k < j < |items| ==> f(items[j]) != f(items[k])) ==> items[k] in r)
    decreases |items|
  {
    if items != [] {
      var next := Upsert(acc, items[0], f);
      var r := UpsertAll(acc, items, f);
      UpsertMeaning(acc, items[0], f);
      UpsertAllMeaning(next, items[1..], f);
      assert forall y :: y in items[1..] ==> y in items;
      forall k | 0 <= k < |items| ensures IndexOf(r, f, f(items[k])).Some? {
        if k == 0 {
          var q :| 0 <= q < |next| && next[q] == items[0];
          assert f(r[q]) == f(items[0]);
        } else {
          assert items[1..][k - 1] == items[k];
        }
      }
      forall k | 0 <= k < |items| && (forall j :: k < j < |items| ==> f(items[j]) != f(items[k]))
        ensures items[k] in r
      {
        if k == 0 {
          var q :| 0 <= q < |next| && next[q] == items[0];
          forall j | 0 <= j < |items[1..]| ensures f(items[1..][j]) != f(next[q]) {
            assert items[1..][j] == items[j + 1];
          }
          UpsertAllKeeps(next, items[1..], f, q);
        } else {
          assert items[1..][k - 1] == items[k];
          forall j | k - 1 < j < |items[1..]| ensures f(items[1..][j]) != f(items[1..][k - 1]) {
            assert items[1..][j] == items[j + 1];
          }
        }
      }
    }
  }

  /** An element whose key no item sets stays at its place. */
  lemma {:induction false} UpsertAllKeeps<T, K>(acc: seq<T>, items: seq<T>, f: T -> K, p: nat)
    requires p < |acc| && DistinctBy(acc, f)
    requires forall j :: 0 <= j < |items| ==> f(items[j]) != f(acc[p])
    ensures |UpsertAll(acc, items, f)| > p && UpsertAll(acc, items, f)[p] == acc[p]
    decreases |items|
  {
    if items != [] {
      var next := Upsert(acc, items[0], f);
      UpsertMeaning(acc, items[0], f);
      forall j | 0 <= j < |items[1..]| ensures f(items[1..][j]) != f(next[p]) {
        assert items[1..][j] == items[j + 1];
      }
      UpsertAllKeeps(next, items[1..], f, p);
    }
  }
}
