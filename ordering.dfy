/** The three orders in which task lists are presented, and a stable insertion sort
    proved to return a sorted permutation of its input. */
module Ordering {
  import opened Models
  import opened Text

  datatype Order =
    | ListingOrder     // ORDER BY column_position, order_index, created_at DESC
    | SubtaskOrder     // ORDER BY order_index, created_at
    | OrderIndexOrder  // the store's comparator a.order_index - b.order_index

  /** `a` may precede `b` in order `o`. Each order is reflexive, and its leading key
      decides whenever it differs. */
  predicate Le(o: Order, a: Task, b: Task)
    ensures a == b ==> Le(o, a, b)
    ensures o == ListingOrder && a.columnPosition != b.columnPosition
            ==> (Le(o, a, b) <==> a.columnPosition < b.columnPosition)
    ensures o != ListingOrder && a.orderIndex != b.orderIndex
            ==> (Le(o, a, b) <==> a.orderIndex < b.orderIndex)
  {
    match o
    case ListingOrder =>
      a.columnPosition < b.columnPosition
      || (a.columnPosition == b.columnPosition
          && (a.orderIndex < b.orderIndex
              || (a.orderIndex == b.orderIndex && TextLe(b.createdAt, a.createdAt))))
    case SubtaskOrder =>
      a.orderIndex < b.orderIndex
      || (a.orderIndex == b.orderIndex && TextLe(a.createdAt, b.createdAt))
    case OrderIndexOrder =>
      a.orderIndex <= b.orderIndex
  }

  lemma LeTotal(o: Order, a: Task, b: Task)
    ensures Le(o, a, b) || Le(o, b, a)
  {
    TextLeTotal(a.createdAt, b.createdAt);
  }

  lemma LeTransitive(o: Order, a: Task, b: Task, c: Task)
    requires Le(o, a, b) && Le(o, b, c)
    ensures Le(o, a, c)
  {
    match o
    case ListingOrder =>
      if a.columnPosition == b.columnPosition == c.columnPosition
        && a.orderIndex == b.orderIndex == c.orderIndex
      {
        TextLeTransitive(c.createdAt, b.createdAt, a.createdAt);
      }
    case SubtaskOrder =>
      if a.orderIndex == b.orderIndex == c.orderIndex {
        TextLeTransitive(a.createdAt, b.createdAt, c.createdAt);
      }
    case OrderIndexOrder =>
  }

  ghost predicate Sorted(o: Order, s: seq<Task>) {
    forall i, j :: 0 <= i < j < |s| ==> Le(o, s[i], s[j])
  }

  lemma SortedPrepend(o: Order, x: Task, s: seq<Task>)
    requires Sorted(o, s)
    requires forall y :: y in s ==> Le(o, x, y)
    ensures Sorted(o, [x] + s)
  {
    var r := [x] + s;
    forall i, j | 0 <= i < j < |r| ensures Le(o, r[i], r[j]) {
      if i > 0 {
        assert r[i] == s[i - 1] && r[j] == s[j - 1];
      } else {
        assert r[j] in s;
      }
    }
  }

  lemma SortedHeadIsLeast(o: Order, x: Task, s: seq<Task>)
    requires Sorted(o, s) && s != [] && Le(o, x, s[0])
    ensures forall y :: y in s ==> Le(o, x, y)
  {
    forall y | y in s ensures Le(o, x, y) {
      var j :| 0 <= j < |s| && s[j] == y;
      if j > 0 {
        LeTransitive(o, x, s[0], s[j]);
      }
    }
  }

  lemma SortedTail(o: Order, s: seq<Task>)
    requires Sorted(o, s) && s != []
    ensures Sorted(o, s[1..])
    ensures forall y :: y in s[1..] ==> Le(o, s[0], y)
  {
    forall i, j | 0 <= i < j < |s[1..]| ensures Le(o, s[1..][i], s[1..][j]) {
      assert s[1..][i] == s[i + 1] && s[1..][j] == s[j + 1];
    }
    forall y | y in s[1..] ensures Le(o, s[0], y) {
      var j :| 0 <= j < |s[1..]| && s[1..][j] == y;
      assert s[j + 1] == y;
    }
  }

  /** A bound on every element of `s` and on `x` is a bound on a permutation of both. */
  lemma BoundPermutation(o: Order, a: Task, x: Task, s: seq<Task>, t: seq<Task>)
    requires multiset(t) == multiset(s) + multiset{x}
    requires Le(o, a, x) && forall y :: y in s ==> Le(o, a, y)
    ensures forall y :: y in t ==> Le(o, a, y)
  {
    forall y | y in t ensures Le(o, a, y) {
      assert y in multiset(t);
      if y != x {
        assert y in multiset(s);
      }
    }
  }

  /** Inserts `x` before the first element it may precede, so that it lands ahead of
      every element equal to it. */
  function Insert(o: Order, x: Task, s: seq<Task>): (r: seq<Task>)
    requires Sorted(o, s)
    ensures Sorted(o, r)
    ensures multiset(r) == multiset(s) + multiset{x}
    decreases |s|
  {
    if s == [] then
      [x]
    else if Le(o, x, s[0]) then
      SortedHeadIsLeast(o, x, s);
      SortedPrepend(o, x, s);
      [x] + s
    else
      LeTotal(o, x, s[0]);
      SortedTail(o, s);
      var t := Insert(o, x, s[1..]);
      BoundPermutation(o, s[0], x, s[1..], t);
      SortedPrepend(o, s[0], t);
      assert s == [s[0]] + s[1..];
      [s[0]] + t
  }

  /** A stable insertion sort: the result is a sorted permutation of `s`. */
  function Sort(o: Order, s: seq<Task>): (r: seq<Task>)
    ensures Sorted(o, r)
    ensures multiset(r) == multiset(s)
    decreases |s|
  {
    if s == [] then
      []
    else
      assert s == [s[0]] + s[1..];
      Insert(o, s[0], Sort(o, s[1..]))
  }

  // ---------------------------------------------------------------------------
  // Stability: tasks with equal keys keep their input order.

  /** Neither task goes strictly before the other: their keys are equal. */
  predicate SameKey(o: Order, a: Task, b: Task) {
    Le(o, a, b) && Le(o, b, a)
  }

  /** The tasks of `s` whose key equals `y`'s, in their order in `s`. */
  function KeyClass(o: Order, y: Task, s: seq<Task>): seq<Task>
    decreases |s|
  {
    if s == [] then [] else (if SameKey(o, s[0], y) then [s[0]] else []) + KeyClass(o, y, s[1..])
  }

  lemma KeyClassCons(o: Order, y: Task, a: Task, t: seq<Task>)
    ensures KeyClass(o, y, [a] + t) == (if SameKey(o, a, y) then [a] else []) + KeyClass(o, y, t)
  {
    assert ([a] + t)[0] == a && ([a] + t)[1..] == t;
  }

  /** Inserting `x` puts it ahead of the tasks of its own key already in `s`. */
  lemma {:induction false} InsertStable(o: Order, x: Task, s: seq<Task>, y: Task)
    requires Sorted(o, s)
    ensures KeyClass(o, y, Insert(o, x, s)) == (if SameKey(o, x, y) then [x] else []) + KeyClass(o, y, s)
    decreases |s|
  {
    if s == [] {
      KeyClassCons(o, y, x, []);
    } else if Le(o, x, s[0]) {
      KeyClassCons(o, y, x, s);
    } else {
      SortedTail(o, s);
      InsertStable(o, x, s[1..], y);
      InsertBehindHead(o, x, s, y);
    }
  }

  /** The step of `InsertStable` where `x` goes behind the head `a` of `s`: the head
      and `x` cannot both have `y`'s key, so their order within the class is kept. */
  lemma InsertBehindHead(o: Order, x: Task, s: seq<Task>, y: Task)
    requires Sorted(o, s) && s != [] && !Le(o, x, s[0])
    requires Sorted(o, s[1..])
    requires KeyClass(o, y, Insert(o, x, s[1..]))
             == (if SameKey(o, x, y) then [x] else []) + KeyClass(o, y, s[1..])
    ensures KeyClass(o, y, Insert(o, x, s)) == (if SameKey(o, x, y) then [x] else []) + KeyClass(o, y, s)
  {
    var a, rest := s[0], s[1..];
    var t := Insert(o, x, rest);
    assert Insert(o, x, s) == [a] + t;
    KeyClassCons(o, y, a, t);
    assert s == [a] + rest;
    KeyClassCons(o, y, a, rest);
    if SameKey(o, x, y) && Le(o, y, a) {
      LeTransitive(o, x, y, a);
      assert false;
    }
    var hx := if SameKey(o, x, y) then [x] else [];
    var ha := if SameKey(o, a, y) then [a] else [];
    SwapAroundEmpty(ha, hx, KeyClass(o, y, rest));
  }

  /** Two lists, one of them empty, may be prepended in either order. */
  lemma SwapAroundEmpty<T>(p: seq<T>, q: seq<T>, z: seq<T>)
    requires p == [] || q == []
    ensures p + (q + z) == q + (p + z)
  {
    if p == [] {
      assert p + (q + z) == q + z == q + (p + z);
    } else {
      assert p + (q + z) == p + z == q + (p + z);
    }
  }

  /** The sort is stable: for every key, the tasks with that key come out in the order
      they went in, as `Array.prototype.sort` guarantees. */
  lemma {:induction false} SortStable(o: Order, s: seq<Task>, y: Task)
    ensures KeyClass(o, y, Sort(o, s)) == KeyClass(o, y, s)
    decreases |s|
  {
    if s != [] {
      SortStable(o, s[1..], y);
      InsertStable(o, s[0], Sort(o, s[1..]), y);
    }
  }

  // ---------------------------------------------------------------------------
  // Distinct elements survive a permutation.

  ghost predicate Distinct<T>(s: seq<T>) {
    forall i, j :: 0 <= i < j < |s| ==> s[i] != s[j]
  }

  lemma {:induction false} DistinctMultiplicity<T>(s: seq<T>, x: T)
    requires Distinct(s)
    ensures multiset(s)[x] <= 1
    decreases |s|
  {
    if s != [] {
      assert s == [s[0]] + s[1..];
      assert Distinct(s[1..]) by {
        forall i, j | 0 <= i < j < |s[1..]| ensures s[1..][i] != s[1..][j] {
          assert s[1..][i] == s[i + 1] && s[1..][j] == s[j + 1];
        }
      }
      DistinctMultiplicity(s[1..], x);
      if s[0] == x {
        assert forall j :: 1 <= j < |s| ==> s[j] != s[0];
        assert x !in s[1..];
      }
    }
  }

  lemma RepeatedMultiplicity<T>(s: seq<T>, i: int, j: int)
    requires 0 <= i < j < |s| && s[i] == s[j]
    ensures multiset(s)[s[i]] >= 2
  {
    var x := s[i];
    assert s == s[..j] + [s[j]] + s[j + 1..];
    assert s[..j][i] == x;
    assert x in multiset(s[..j]);
  }

  lemma PermutationKeepsDistinct<T>(a: seq<T>, b: seq<T>)
    requires multiset(a) == multiset(b) && Distinct(a)
    ensures Distinct(b)
  {
    forall i, j | 0 <= i < j < |b| ensures b[i] != b[j] {
      if b[i] == b[j] {
        RepeatedMultiplicity(b, i, j);
        DistinctMultiplicity(a, b[i]);
      }
    }
  }
}
