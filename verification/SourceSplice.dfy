// Replacing every `import.meta.url` of a module by one string literal.
//
// The ranges come from the syntax tree in traversal order. They are spliced
// right to left, so that no splice moves a range that is still to come.
module SourceSplice {
  import opened Common

  datatype Range = Range(start: nat, end: nat)

  /** Ranges of one source, none empty, no two overlapping. */
  predicate Apart(ranges: seq<Range>, length: nat) {
    && (forall i :: 0 <= i < |ranges| ==> ranges[i].start < ranges[i].end <= length)
    && (forall i, j :: 0 <= i < j < |ranges| ==> ranges[i].end <= ranges[j].start || ranges[j].end <= ranges[i].start)
  }

  predicate Covered(ranges: seq<Range>, k: nat) {
    exists r :: r in ranges && r.start <= k < r.end
  }

  predicate Starts(ranges: seq<Range>, k: nat) {
    exists r :: r in ranges && r.start == k
  }

  /**
   * All replacements at once, one position of the source at a time: a range's
   * first character becomes the replacement, its others vanish, the rest stay.
   */
  function Replaced(source: string, ranges: seq<Range>, replacement: string, k: nat): string
    requires k <= |source|
    decreases |source| - k
  {
    if k == |source| then ""
    else
      (if Starts(ranges, k) then replacement else if Covered(ranges, k) then "" else [source[k]])
      + Replaced(source, ranges, replacement, k + 1)
  }

  predicate FurtherRight(a: Range, b: Range) { a.start > b.start }

  /** `ranges.sort((left, right) => right.start - left.start)`. */
  function RightToLeft(ranges: seq<Range>): seq<Range> {
    Sort(ranges, FurtherRight)
  }

  ghost predicate Descending(rs: seq<Range>) {
    forall i, j :: 0 <= i < j < |rs| ==> rs[j].end <= rs[i].start
  }

  // Ranges that do not overlap are ordered by their ends when they are by their starts.
  lemma Sorted(ranges: seq<Range>, length: nat)
    requires Apart(ranges, length)
    ensures Descending(RightToLeft(ranges))
    ensures forall x :: x in RightToLeft(ranges) <==> x in ranges
  {
    var rs := RightToLeft(ranges);
    SortElements(ranges, FurtherRight);
    SortKeepsDistinct(ranges, FurtherRight);
    SortOrders(ranges, FurtherRight);
    forall i, j | 0 <= i < j < |rs| ensures rs[j].end <= rs[i].start {
      assert rs[i] in ranges && rs[j] in ranges && !FurtherRight(rs[j], rs[i]);
      var a :| 0 <= a < |ranges| && ranges[a] == rs[i];
      var b :| 0 <= b < |ranges| && ranges[b] == rs[j];
    }
  }

  /** From `k` on, the text up to the next range is kept as it is. */
  lemma {:induction false} KeptUpTo(source: string, ranges: seq<Range>, replacement: string, k: nat, next: nat)
    requires k <= next <= |source|
    requires forall j :: k <= j < next ==> !Covered(ranges, j) && !Starts(ranges, j)
    ensures Replaced(source, ranges, replacement, k) == source[k..next] + Replaced(source, ranges, replacement, next)
    decreases next - k
  {
    if k < next {
      KeptUpTo(source, ranges, replacement, k + 1, next);
      var head, tail, rest := [source[k]], source[k + 1..next], Replaced(source, ranges, replacement, next);
      assert source[k..next] == head + tail;
      assert Replaced(source, ranges, replacement, k) == head + (tail + rest);
      Associative(head, tail, rest);
    } else {
      assert source[k..next] == "";
    }
  }

  lemma {:induction false} DroppedUpTo(source: string, ranges: seq<Range>, replacement: string, k: nat, end: nat)
    requires k <= end <= |source|
    requires forall j :: k <= j < end ==> Covered(ranges, j) && !Starts(ranges, j)
    ensures Replaced(source, ranges, replacement, k) == Replaced(source, ranges, replacement, end)
    decreases end - k
  {
    if k < end { DroppedUpTo(source, ranges, replacement, k + 1, end); }
  }

  /** One range becomes one replacement. */
  lemma RangeIsReplaced(source: string, ranges: seq<Range>, replacement: string, r: Range)
    requires Apart(ranges, |source|) && r in ranges
    ensures Replaced(source, ranges, replacement, r.start) == replacement + Replaced(source, ranges, replacement, r.end)
  {
    forall j | r.start < j < r.end ensures Covered(ranges, j) && !Starts(ranges, j) {}
    DroppedUpTo(source, ranges, replacement, r.start + 1, r.end);
  }

  lemma OneSplice(source: string, transformed: string, tail: string, r: Range, done: nat, replacement: string)
    requires r.start < r.end <= done <= |source| && transformed == source[..done] + tail
    ensures r.end <= |transformed|
    ensures transformed[..r.start] + replacement + transformed[r.end..]
         == source[..r.start] + (replacement + (source[r.end..done] + tail))
  {
    assert transformed[..r.start] == source[..r.start];
    assert transformed[r.end..] == source[r.end..done] + tail;
  }

  /** The splices made one after another are the replacements made all at once. */
  method Splice(source: string, ranges: seq<Range>, replacement: string) returns (transformed: string)
    requires Apart(ranges, |source|)
    ensures transformed == Replaced(source, ranges, replacement, 0)
  {
    hide Replaced, Apart;
    var order := RightToLeft(ranges);
    Sorted(ranges, |source|);
    AllNonEmpty(ranges, |source|);
    NothingLeft(source, ranges, replacement);
    transformed := source;
    ghost var done := |source|;   // the source before this position is untouched
    for i := 0 to |order|
      invariant done == if i == 0 then |source| else order[i - 1].start
      invariant done <= |source| && transformed == source[..done] + Replaced(source, ranges, replacement, done)
    {
      var r := order[i];
      assert r in order;
      Between(source, ranges, order, i);
      KeptUpTo(source, ranges, replacement, r.end, done);
      RangeIsReplaced(source, ranges, replacement, r);
      OneSplice(source, transformed, Replaced(source, ranges, replacement, done), r, done, replacement);
      transformed := transformed[..r.start] + replacement + transformed[r.end..];
      done := r.start;
    }
    BeforeAll(ranges, order, done);
    KeptUpTo(source, ranges, replacement, 0, done);
    assert source[0..done] == source[..done];
  }

  lemma NothingLeft(source: string, ranges: seq<Range>, replacement: string)
    ensures Replaced(source, ranges, replacement, |source|) == ""
    ensures source[..|source|] == source
  {}

  lemma AllNonEmpty(ranges: seq<Range>, length: nat)
    requires Apart(ranges, length)
    ensures forall x :: x in ranges ==> x.start < x.end
  {}

  // No range reaches between two neighbours of the sorted order.
  lemma Between(source: string, ranges: seq<Range>, order: seq<Range>, i: nat)
    requires Apart(ranges, |source|) && Descending(order) && (forall x :: x in order <==> x in ranges) && i < |order|
    ensures var done := if i == 0 then |source| else order[i - 1].start;
            order[i].end <= done <= |source|
            && forall j :: order[i].end <= j < done ==> !Covered(ranges, j) && !Starts(ranges, j)
  {
    var done := if i == 0 then |source| else order[i - 1].start;
    assert order[i] in ranges;
    if i > 0 { assert order[i - 1] in ranges; }
    forall x | x in ranges ensures x.end <= order[i].end || x.start >= done {
      var k :| 0 <= k < |order| && order[k] == x;
    }
    forall j | order[i].end <= j < done ensures !Covered(ranges, j) && !Starts(ranges, j) {}
  }

  lemma BeforeAll(ranges: seq<Range>, order: seq<Range>, done: nat)
    requires Descending(order) && (forall x :: x in order <==> x in ranges)
    requires order != [] ==> done == order[|order| - 1].start
    requires forall x :: x in ranges ==> x.start < x.end
    ensures forall j :: 0 <= j < done ==> !Covered(ranges, j) && !Starts(ranges, j)
  {
    forall x | x in ranges ensures x.start >= done {
      var k :| 0 <= k < |order| && order[k] == x;
    }
  }

  /** The result depends on the set of ranges only, not on the order they were collected in. */
  lemma {:induction false} OrderIsIrrelevant(source: string, a: seq<Range>, b: seq<Range>, replacement: string, k: nat)
    requires k <= |source| && forall r :: r in a <==> r in b
    ensures Replaced(source, a, replacement, k) == Replaced(source, b, replacement, k)
    decreases |source| - k
  {
    if k < |source| {
      assert Starts(a, k) == Starts(b, k) && Covered(a, k) == Covered(b, k);
      OrderIsIrrelevant(source, a, b, replacement, k + 1);
    }
  }
}
