// Helpers that several components share.
module Common {

  datatype Option<+T> = None | Some(value: T)

  lemma Associative<T>(a: seq<T>, b: seq<T>, c: seq<T>)
    ensures a + (b + c) == a + b + c
  {}

  predicate NoDuplicates<T(==)>(s: seq<T>) {
    forall i, j :: 0 <= i < j < |s| ==> s[i] != s[j]
  }

  /** The sequence without one value, in order. */
  function Without<T(==,!new)>(s: seq<T>, x: T): (r: seq<T>)
    ensures forall y :: y in r <==> y in s && y != x
  {
    if s == [] then []
    else
      var front := Without(s[..|s| - 1], x);
      assert s == s[..|s| - 1] + [s[|s| - 1]];
      if s[|s| - 1] == x then front else front + [s[|s| - 1]]
  }

  /** What is put in front of a sequence is all that is taken from it. */
  lemma {:induction false} WithoutItself<T(!new)>(s: seq<T>, x: T)
    ensures Without([x] + Without(s, x), x) == Without(s, x)
  {
    WithoutHead(Without(s, x), x);
  }

  lemma {:induction false} WithoutHead<T(!new)>(s: seq<T>, x: T)
    requires x !in s
    ensures Without([x] + s, x) == s
  {
    var all := [x] + s;
    if s == [] {
      assert all == [x] && all[..0] == [];
    } else {
      assert all[..|all| - 1] == [x] + s[..|s| - 1];
      WithoutHead(s[..|s| - 1], x);
    }
  }

  lemma {:induction false} WithoutKeepsDistinct<T(!new)>(s: seq<T>, x: T)
    requires NoDuplicates(s)
    ensures NoDuplicates(Without(s, x))
  {
    if s != [] {
      var front := s[..|s| - 1];
      WithoutKeepsDistinct(front, x);
      assert s[|s| - 1] !in front;
    }
  }

  // -------------------------------------------------------------------------
  // The stable `Array.prototype.sort`
  // -------------------------------------------------------------------------

  /** One insertion: after everything that the new element is not before. */
  function Insert<T>(sorted: seq<T>, x: T, before: (T, T) -> bool): seq<T> {
    if sorted == [] || !before(x, sorted[|sorted| - 1]) then sorted + [x]
    else Insert(sorted[..|sorted| - 1], x, before) + [sorted[|sorted| - 1]]
  }

  function Sort<T>(s: seq<T>, before: (T, T) -> bool): seq<T> {
    if s == [] then [] else Insert(Sort(s[..|s| - 1], before), s[|s| - 1], before)
  }

  lemma {:induction false} InsertElements<T>(sorted: seq<T>, x: T, before: (T, T) -> bool)
    ensures forall y :: y in Insert(sorted, x, before) <==> y in sorted || y == x
  {
    if sorted != [] && before(x, sorted[|sorted| - 1]) {
      InsertElements(sorted[..|sorted| - 1], x, before);
      assert sorted == sorted[..|sorted| - 1] + [sorted[|sorted| - 1]];
    }
  }

  lemma {:induction false} SortElements<T>(s: seq<T>, before: (T, T) -> bool)
    ensures forall y :: y in Sort(s, before) <==> y in s
  {
    if s != [] {
      var front, last := s[..|s| - 1], s[|s| - 1];
      SortElements(front, before);
      InsertElements(Sort(front, before), last, before);
      assert s == front + [last];
    }
  }

  lemma {:induction false} InsertKeepsDistinct<T>(sorted: seq<T>, x: T, before: (T, T) -> bool)
    requires NoDuplicates(sorted) && x !in sorted
    ensures NoDuplicates(Insert(sorted, x, before))
  {
    if sorted != [] && before(x, sorted[|sorted| - 1]) {
      var front, last := sorted[..|sorted| - 1], sorted[|sorted| - 1];
      InsertKeepsDistinct(front, x, before);
      InsertElements(front, x, before);
      assert last in sorted && last !in front;
      assert last !in Insert(front, x, before);
    }
  }

  lemma {:induction false} SortKeepsDistinct<T>(s: seq<T>, before: (T, T) -> bool)
    requires NoDuplicates(s)
    ensures NoDuplicates(Sort(s, before))
  {
    if s != [] {
      var front := s[..|s| - 1];
      SortKeepsDistinct(front, before);
      SortElements(front, before);
      InsertKeepsDistinct(Sort(front, before), s[|s| - 1], before);
    }
  }

  ghost predicate Ordered<T>(s: seq<T>, before: (T, T) -> bool) {
    forall i, j :: 0 <= i < j < |s| ==> !before(s[j], s[i])
  }

  /** Of two elements at most one is before the other, and being no earlier is transitive. */
  ghost predicate WeakOrder<T(!new)>(before: (T, T) -> bool) {
    && (forall x, y :: before(x, y) ==> !before(y, x))
    && (forall x, y, z :: before(x, z) ==> before(x, y) || before(y, z))
  }

  lemma {:induction false} InsertKeepsOrder<T(!new)>(sorted: seq<T>, x: T, before: (T, T) -> bool)
    requires WeakOrder(before) && Ordered(sorted, before)
    ensures Ordered(Insert(sorted, x, before), before)
  {
    if sorted != [] {
      var front, last := sorted[..|sorted| - 1], sorted[|sorted| - 1];
      assert sorted == front + [last] && Ordered(front, before);
      if before(x, last) {
        InsertKeepsOrder(front, x, before);
        InsertElements(front, x, before);
        var r := Insert(front, x, before);
        forall i | 0 <= i < |r| ensures !before(last, r[i]) {
          assert r[i] in r;
        }
      } else {
        forall i | 0 <= i < |sorted| ensures !before(x, sorted[i]) {
          if i < |front| { assert !before(last, sorted[i]); }
        }
      }
    }
  }

  lemma {:induction false} SortOrders<T(!new)>(s: seq<T>, before: (T, T) -> bool)
    requires WeakOrder(before)
    ensures Ordered(Sort(s, before), before)
  {
    if s != [] {
      SortOrders(s[..|s| - 1], before);
      InsertKeepsOrder(Sort(s[..|s| - 1], before), s[|s| - 1], before);
    }
  }
}
