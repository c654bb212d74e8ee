/** The range index of the bundle audit: interval subtraction, registration of the token ranges
    in which a name is bound to the capability broker, and the binary search over them. */
module BindingRanges {

  /** A closed range of token indices; empty when `start > end`. */
  datatype Range = Range(start: int, end: int)

  predicate Contains(r: Range, i: int) {
    r.start <= i <= r.end
  }

  ghost predicate Covers(rs: seq<Range>, i: int) {
    exists r :: r in rs && Contains(r, i)
  }

  /** The comparator of both sorts: by start, then by end. */
  predicate RangeLeq(a: Range, b: Range) {
    a.start < b.start || (a.start == b.start && a.end <= b.end)
  }

  ghost predicate Sorted(rs: seq<Range>) {
    forall i, j :: 0 <= i < j < |rs| ==> RangeLeq(rs[i], rs[j])
  }

  ghost predicate NonEmpty(rs: seq<Range>) {
    forall r :: r in rs ==> r.start <= r.end
  }

  /** Every range ends before the next one starts. */
  ghost predicate Separated(rs: seq<Range>) {
    forall i, j :: 0 <= i < j < |rs| ==> rs[i].end < rs[j].start
  }

  predicate Overlap(a: Range, b: Range) {
    a.start <= b.end && b.start <= a.end
  }

  /** No range is listed twice and no two listed ranges share a token. */
  ghost predicate PairwiseDisjoint(rs: seq<Range>) {
    && (forall r :: multiset(rs)[r] <= 1)
    && (forall r, q :: r in rs && q in rs && r != q ==> !Overlap(r, q))
  }

  // ----- the library sort -----

  function InsertRange(r: Range, rs: seq<Range>): (out: seq<Range>)
    ensures forall q :: q in out <==> q == r || q in rs
  {
    if rs == [] then [r]
    else if RangeLeq(r, rs[0]) then [r] + rs
    else [rs[0]] + InsertRange(r, rs[1..])
  }

  lemma SortedCons(r: Range, rs: seq<Range>)
    requires Sorted(rs) && forall q :: q in rs ==> RangeLeq(r, q)
    ensures Sorted([r] + rs)
  {
    var out := [r] + rs;
    forall i, j | 0 <= i < j < |out| ensures RangeLeq(out[i], out[j]) {
      assert out[j] == rs[j-1];
      if i > 0 { assert out[i] == rs[i-1]; }
    }
  }

  lemma {:induction false} InsertKeepsOrder(r: Range, rs: seq<Range>)
    requires Sorted(rs)
    ensures Sorted(InsertRange(r, rs))
  {
    if rs == [] {
    } else if RangeLeq(r, rs[0]) {
      forall q | q in rs ensures RangeLeq(r, q) {
        var k :| 0 <= k < |rs| && rs[k] == q;
        if k > 0 { assert RangeLeq(rs[0], rs[k]); }
      }
      SortedCons(r, rs);
    } else {
      InsertKeepsOrder(r, rs[1..]);
      forall q | q in rs[1..] ensures RangeLeq(rs[0], q) {
        var k :| 0 <= k < |rs[1..]| && rs[1..][k] == q;
        assert RangeLeq(rs[0], rs[k+1]);
      }
      SortedCons(rs[0], InsertRange(r, rs[1..]));
    }
  }

  lemma {:induction false} InsertKeepsElements(r: Range, rs: seq<Range>)
    ensures multiset(InsertRange(r, rs)) == multiset(rs) + multiset{r}
  {
    if rs != [] {
      assert rs == [rs[0]] + rs[1..];
      if !RangeLeq(r, rs[0]) { InsertKeepsElements(r, rs[1..]); }
    }
  }

  function SortRanges(rs: seq<Range>): seq<Range> {
    if rs == [] then [] else InsertRange(rs[0], SortRanges(rs[1..]))
  }

  lemma {:induction false} SortRangesSorts(rs: seq<Range>)
    ensures Sorted(SortRanges(rs)) && multiset(SortRanges(rs)) == multiset(rs)
  {
    if rs != [] {
      assert rs == [rs[0]] + rs[1..];
      SortRangesSorts(rs[1..]);
      InsertKeepsOrder(rs[0], SortRanges(rs[1..]));
      InsertKeepsElements(rs[0], SortRanges(rs[1..]));
    }
  }

  function Touching(rs: seq<Range>, base: Range): (out: seq<Range>)
    ensures forall r :: r in out <==> r in rs && r.end >= base.start && r.start <= base.end
  {
    if rs == [] then []
    else if rs[0].end >= base.start && rs[0].start <= base.end
    then [rs[0]] + Touching(rs[1..], base)
    else Touching(rs[1..], base)
  }

  lemma SameElements(a: seq<Range>, b: seq<Range>)
    requires multiset(a) == multiset(b)
    ensures forall r :: r in a <==> r in b
  {
    forall r ensures r in a <==> r in b {
      assert r in a <==> r in multiset(a);
      assert r in b <==> r in multiset(b);
    }
  }

  function Min(a: int, b: int): int { if a <= b then a else b }
  function Max(a: int, b: int): int { if a >= b then a else b }

  // ----- subtraction -----

  /** What remains of `[cursor, last]` once the ordered exclusions have been cut out. */
  function Remainder(cursor: int, last: int, first: int, sorted: seq<Range>): seq<Range>
    decreases sorted
  {
    if sorted == [] then
      if cursor <= last then [Range(cursor, last)] else []
    else
      var start := Max(first, sorted[0].start);
      var end := Min(last, sorted[0].end);
      (if start > cursor then [Range(cursor, start - 1)] else [])
      + Remainder(Max(cursor, end + 1), last, first, sorted[1..])
  }

  lemma CoversPrepend(r: Range, rs: seq<Range>, i: int)
    ensures Covers([r] + rs, i) <==> Contains(r, i) || Covers(rs, i)
  {
    assert forall q :: q in [r] + rs <==> q == r || q in rs;
  }

  lemma CoversAppend(a: seq<Range>, b: seq<Range>, i: int)
    ensures Covers(a + b, i) <==> Covers(a, i) || Covers(b, i)
  {
    assert forall r :: r in a + b <==> r in a || r in b;
  }

  lemma {:induction false} RemainderCovers(cursor: int, last: int, first: int, sorted: seq<Range>, i: int)
    requires Sorted(sorted) && first <= cursor
    requires forall r :: r in sorted ==> r.end >= first && r.start <= last
    ensures Covers(Remainder(cursor, last, first, sorted), i)
            <==> cursor <= i <= last && !Covers(sorted, i)
    decreases sorted
  {
    if sorted == [] {
      if cursor <= last { CoversPrepend(Range(cursor, last), [], i); }
    } else {
      var start := Max(first, sorted[0].start);
      var end := Min(last, sorted[0].end);
      assert sorted == [sorted[0]] + sorted[1..];
      assert sorted[0] in sorted;
      CoversPrepend(sorted[0], sorted[1..], i);
      RemainderCovers(Max(cursor, end + 1), last, first, sorted[1..], i);
      var rest := Remainder(Max(cursor, end + 1), last, first, sorted[1..]);
      assert [] + rest == rest;
      if start > cursor { CoversPrepend(Range(cursor, start - 1), rest, i); }
      if i < sorted[0].start {
        forall r | r in sorted[1..] ensures !Contains(r, i) {
          var k :| 0 <= k < |sorted[1..]| && sorted[1..][k] == r;
          assert RangeLeq(sorted[0], sorted[k+1]);
        }
      }
    }
  }

  lemma {:induction false} RemainderShape(cursor: int, last: int, first: int, sorted: seq<Range>)
    requires first <= cursor && forall r :: r in sorted ==> r.start <= last
    ensures NonEmpty(Remainder(cursor, last, first, sorted))
    ensures forall r :: r in Remainder(cursor, last, first, sorted) ==> cursor <= r.start && r.end <= last
    ensures (forall r :: r in sorted ==> r.start <= r.end + 1 && first <= r.end + 1)
            ==> Separated(Remainder(cursor, last, first, sorted))
    decreases sorted
  {
    if sorted != [] {
      assert sorted[0] in sorted;
      assert forall r :: r in sorted[1..] ==> r in sorted;
      var start := Max(first, sorted[0].start);
      var end := Min(last, sorted[0].end);
      RemainderShape(Max(cursor, end + 1), last, first, sorted[1..]);
      var rest := Remainder(Max(cursor, end + 1), last, first, sorted[1..]);
      assert forall j :: 0 <= j < |rest| ==> rest[j] in rest;
    }
  }

  function Subtraction(base: Range, exclusions: seq<Range>): seq<Range> {
    Remainder(base.start, base.end, base.start, SortRanges(Touching(exclusions, base)))
  }

  ghost predicate NotInverted(rs: seq<Range>) {
    forall r :: r in rs ==> r.start <= r.end + 1
  }

  /** Exactly the indices of the base that no exclusion contains. With exclusions that are not
      inverted by more than the empty range, the pieces are also strictly ordered. */
  lemma SubtractionIsPointwise(base: Range, exclusions: seq<Range>)
    ensures var out := Subtraction(base, exclusions);
      && (forall i :: Covers(out, i) <==> Contains(base, i) && !Covers(exclusions, i))
      && NonEmpty(out)
      && (forall r :: r in out ==> base.start <= r.start && r.end <= base.end)
      && (NotInverted(exclusions) ==> Separated(out))
  {
    var touching := Touching(exclusions, base);
    var sorted := SortRanges(touching);
    SortRangesSorts(touching);
    SameElements(sorted, touching);
    RemainderShape(base.start, base.end, base.start, sorted);
    forall i ensures Covers(Subtraction(base, exclusions), i) <==> Contains(base, i) && !Covers(exclusions, i) {
      RemainderCovers(base.start, base.end, base.start, sorted, i);
    }
  }

  lemma RemainderStep(output: seq<Range>, cursor: int, last: int, first: int, sorted: seq<Range>, n: nat)
    requires n < |sorted|
    ensures var start := Max(first, sorted[n].start);
      var next := Max(cursor, Min(last, sorted[n].end) + 1);
      var grown := if start > cursor then output + [Range(cursor, start - 1)] else output;
      output + Remainder(cursor, last, first, sorted[n..]) == grown + Remainder(next, last, first, sorted[n+1..])
  {
    assert sorted[n..][1..] == sorted[n+1..];
  }

  method SubtractBindingRanges(base: Range, exclusions: seq<Range>) returns (output: seq<Range>)
    ensures output == Subtraction(base, exclusions)
  {
    var sorted := SortRanges(Touching(exclusions, base));
    output := [];
    var cursor := base.start;
    ghost var total := Remainder(base.start, base.end, base.start, sorted);
    assert sorted[0..] == sorted;
    for n := 0 to |sorted|
      invariant output + Remainder(cursor, base.end, base.start, sorted[n..]) == total
    {
      RemainderStep(output, cursor, base.end, base.start, sorted, n);
      var exclusion := sorted[n];
      var start := Max(base.start, exclusion.start);
      var end := Min(base.end, exclusion.end);
      if start > cursor { output := output + [Range(cursor, start - 1)]; }
      cursor := Max(cursor, end + 1);
    }
    assert sorted[|sorted|..] == [];
    if cursor <= base.end { output := output + [Range(cursor, base.end)]; }
  }

  // ----- search -----

  /** The binary search over `ranges[low..high+1]`. */
  function Probe(ranges: seq<Range>, low: int, high: int, index: int): bool
    requires 0 <= low <= high + 1 <= |ranges|
    decreases high - low
  {
    if low > high then false
    else
      var middle := (low + high) / 2;
      if index < ranges[middle].start then Probe(ranges, low, middle - 1, index)
      else if index > ranges[middle].end then Probe(ranges, middle + 1, high, index)
      else true
  }

  method SearchRanges(ranges: seq<Range>, index: int) returns (found: bool)
    ensures found == Probe(ranges, 0, |ranges| - 1, index)
  {
    var low := 0;
    var high := |ranges| - 1;
    while low <= high
      invariant 0 <= low <= high + 1 <= |ranges|
      invariant Probe(ranges, low, high, index) == Probe(ranges, 0, |ranges| - 1, index)
    {
      var middle := (low + high) / 2;
      var range := ranges[middle];
      if index < range.start {
        high := middle - 1;
      } else if index > range.end {
        low := middle + 1;
      } else {
        return true;
      }
    }
    return false;
  }

  lemma {:induction false} ProbeIsSound(ranges: seq<Range>, low: int, high: int, index: int)
    requires 0 <= low <= high + 1 <= |ranges|
    ensures Probe(ranges, low, high, index) ==> Covers(ranges, index)
    decreases high - low
  {
    if low <= high {
      var middle := (low + high) / 2;
      ProbeIsSound(ranges, low, middle - 1, index);
      ProbeIsSound(ranges, middle + 1, high, index);
      assert ranges[middle] in ranges;
    }
  }

  lemma {:induction false} ProbeFinds(ranges: seq<Range>, low: int, high: int, index: int, k: int)
    requires 0 <= low <= k <= high < |ranges|
    requires Separated(ranges) && NonEmpty(ranges) && Contains(ranges[k], index)
    ensures Probe(ranges, low, high, index)
    decreases high - low
  {
    var middle := (low + high) / 2;
    assert ranges[middle] in ranges && low <= middle <= high;
    if k < middle {
      assert index < ranges[middle].start;
      ProbeFinds(ranges, low, middle - 1, index, k);
    } else if k > middle {
      assert ranges[middle].end < index;
      ProbeFinds(ranges, middle + 1, high, index, k);
    }
  }

  /** A positive answer is always right; on ordered, separated ranges so is a negative one. */
  lemma ProbeIsMembership(ranges: seq<Range>, index: int)
    ensures Probe(ranges, 0, |ranges| - 1, index) ==> Covers(ranges, index)
    ensures NonEmpty(ranges) && Separated(ranges) ==>
      (Probe(ranges, 0, |ranges| - 1, index) <==> Covers(ranges, index))
  {
    ProbeIsSound(ranges, 0, |ranges| - 1, index);
    if NonEmpty(ranges) && Separated(ranges) && Covers(ranges, index) {
      var r :| r in ranges && Contains(r, index);
      var k :| 0 <= k < |ranges| && ranges[k] == r;
      ProbeFinds(ranges, 0, |ranges| - 1, index, k);
    }
  }

  lemma CountTwice(rs: seq<Range>, i: int, j: int)
    requires 0 <= i < j < |rs| && rs[i] == rs[j]
    ensures multiset(rs)[rs[i]] >= 2
  {
    assert rs == rs[..j] + [rs[j]] + rs[j+1..];
    assert rs[i] in rs[..j];
    assert multiset(rs) == multiset(rs[..j]) + multiset{rs[j]} + multiset(rs[j+1..]);
  }

  /** Sorting is what turns disjointness into the order that the search needs. */
  lemma SortedDisjointIsSeparated(rs: seq<Range>)
    requires NonEmpty(rs) && PairwiseDisjoint(rs)
    ensures NonEmpty(SortRanges(rs)) && Separated(SortRanges(rs))
    ensures forall i :: Covers(SortRanges(rs), i) <==> Covers(rs, i)
  {
    var sorted := SortRanges(rs);
    SortRangesSorts(rs);
    SameElements(sorted, rs);
    forall i, j | 0 <= i < j < |sorted| ensures sorted[i].end < sorted[j].start {
      if sorted[i] == sorted[j] { CountTwice(sorted, i, j); assert false; }
      assert sorted[i] in rs && sorted[j] in rs;
      assert RangeLeq(sorted[i], sorted[j]);
    }
  }

  // ----- search among ranges that overlap -----

  ghost predicate ByStart(ranges: seq<Range>) {
    forall i, j :: 0 <= i < j < |ranges| ==> ranges[i].start <= ranges[j].start
  }

  ghost predicate ByEnd(ranges: seq<Range>) {
    forall i, j :: 0 <= i < j < |ranges| ==> ranges[i].end <= ranges[j].end
  }

  /** On its way to position `k` of `low..high` the search probes position `m` first. */
  predicate IsProbedBefore(low: int, high: int, k: int, m: int)
    requires 0 <= low <= k <= high
    decreases high - low
  {
    var middle := (low + high) / 2;
    if k < middle then m == middle || IsProbedBefore(low, middle - 1, k, m)
    else if k > middle then m == middle || IsProbedBefore(middle + 1, high, k, m)
    else false
  }

  /** The later range is nested in the earlier one and ends before the index, which the earlier contains. */
  predicate Eclipses(ranges: seq<Range>, k: int, m: int, index: int)
    requires 0 <= k < |ranges| && 0 <= m < |ranges|
  {
    k < m && ranges[m].start <= index && ranges[m].end < index
  }

  lemma {:induction false} ProbedIsBetween(low: int, high: int, k: int, m: int)
    requires 0 <= low <= k <= high && IsProbedBefore(low, high, k, m)
    ensures low <= m <= high && m != k
    decreases high - low
  {
    var middle := (low + high) / 2;
    if k < middle && m != middle { ProbedIsBetween(low, middle - 1, k, m); }
    if k > middle && m != middle { ProbedIsBetween(middle + 1, high, k, m); }
  }

  /** The range at `k` contains the index, and none that the search probes before it hides it. */
  ghost predicate InSight(ranges: seq<Range>, low: int, high: int, k: int, index: int)
    requires 0 <= low <= k <= high < |ranges|
  {
    && Contains(ranges[k], index)
    && forall m :: 0 <= m < |ranges| && IsProbedBefore(low, high, k, m) ==> !Eclipses(ranges, k, m, index)
  }

  ghost predicate SomeInSight(ranges: seq<Range>, low: int, high: int, index: int)
    requires 0 <= low <= high + 1 <= |ranges|
  {
    exists k :: low <= k <= high && InSight(ranges, low, high, k, index)
  }

  /** In one half, the ranges in sight are those that the middle range does not hide. */
  lemma SightOfHalves(ranges: seq<Range>, low: int, high: int, k: int, index: int, middle: int)
    requires 0 <= low <= k <= high < |ranges| && middle == (low + high) / 2
    ensures k < middle ==> (InSight(ranges, low, high, k, index)
                            <==> InSight(ranges, low, middle - 1, k, index) && !Eclipses(ranges, k, middle, index))
    ensures k > middle ==> (InSight(ranges, low, high, k, index) <==> InSight(ranges, middle + 1, high, k, index))
    ensures k == middle ==> (InSight(ranges, low, high, k, index) <==> Contains(ranges[k], index))
  {
    if k != middle { assert IsProbedBefore(low, high, k, middle); }
  }

  lemma {:induction false} ProbeFindsWhatIsInSight(ranges: seq<Range>, low: int, high: int, index: int)
    requires ByStart(ranges) && 0 <= low <= high + 1 <= |ranges|
    ensures Probe(ranges, low, high, index) <==> SomeInSight(ranges, low, high, index)
    decreases high - low
  {
    if low <= high {
      var middle := (low + high) / 2;
      ProbeFindsWhatIsInSight(ranges, low, middle - 1, index);
      ProbeFindsWhatIsInSight(ranges, middle + 1, high, index);
      forall k | low <= k <= high
        ensures k < middle ==> (InSight(ranges, low, high, k, index)
                                <==> InSight(ranges, low, middle - 1, k, index) && !Eclipses(ranges, k, middle, index))
        ensures k > middle ==> (InSight(ranges, low, high, k, index) <==> InSight(ranges, middle + 1, high, k, index))
        ensures k == middle ==> (InSight(ranges, low, high, k, index) <==> Contains(ranges[k], index))
      {
        SightOfHalves(ranges, low, high, k, index, middle);
      }
    }
  }

  /** Among ranges ordered by their starts, overlapping or not, the search misses an index exactly when for
      every range that contains it there is a later one that starts by then, ends before the index, and
      lies on the search's way. */
  lemma SearchIsRightExactlyWhen(ranges: seq<Range>, index: int)
    requires ByStart(ranges)
    ensures (Probe(ranges, 0, |ranges| - 1, index) <==> Covers(ranges, index)) <==>
      (Covers(ranges, index) ==> SomeInSight(ranges, 0, |ranges| - 1, index))
  {
    ProbeFindsWhatIsInSight(ranges, 0, |ranges| - 1, index);
    ProbeIsSound(ranges, 0, |ranges| - 1, index);
  }

  /** Overlaps do no harm as long as no range is nested in an earlier one. */
  lemma StaggeredRangesAreSearched(ranges: seq<Range>, index: int)
    requires ByStart(ranges) && ByEnd(ranges)
    ensures Probe(ranges, 0, |ranges| - 1, index) <==> Covers(ranges, index)
  {
    SearchIsRightExactlyWhen(ranges, index);
    if Covers(ranges, index) {
      var r :| r in ranges && Contains(r, index);
      var k :| 0 <= k < |ranges| && ranges[k] == r;
      assert InSight(ranges, 0, |ranges| - 1, k, index);
    }
  }

  /** A range nested in an earlier one can hide an index from the search. */
  lemma NestingHidesAnIndex()
    ensures var ranges := [Range(0, 10), Range(1, 1), Range(2, 2)];
      && Sorted(ranges) && NonEmpty(ranges) && Covers(ranges, 5)
      && IsProbedBefore(0, 2, 0, 1) && Eclipses(ranges, 0, 1, 5) && !Probe(ranges, 0, 2, 5)
  {
    var ranges := [Range(0, 10), Range(1, 1), Range(2, 2)];
    assert ranges[0] in ranges && Contains(ranges[0], 5);
    assert !Probe(ranges, 2, 2, 5);
  }

  // ----- the index -----

  /** One call of registerBindingRanges: the names bound in a scope. */
  datatype Registration = Registration(names: set<string>, scope: Range)

  /** The collector of nested shadow ranges, a heuristic over the token text. */
  type Shadows = (Range, string) -> seq<Range>

  /** What the index is for: some scope declares the name at the index, unshadowed. */
  ghost predicate Declared(regs: seq<Registration>, shadows: Shadows, name: string, i: int) {
    exists d :: d in regs && name in d.names && Contains(d.scope, i) && !Covers(shadows(d.scope, name), i)
  }

  /** Scopes that bind a common name share no token, and no shadow range is inverted. */
  ghost predicate DisjointScopes(regs: seq<Registration>, shadows: Shadows) {
    && (forall j, k :: 0 <= j < k < |regs| && regs[j].names * regs[k].names != {} ==>
          !Overlap(regs[j].scope, regs[k].scope))
    && (forall d, name :: d in regs && name in d.names ==> NotInverted(shadows(d.scope, name)))
  }

  /** The ranges of a name in registration order. */
  function Collected(regs: seq<Registration>, shadows: Shadows, name: string): seq<Range> {
    if regs == [] then []
    else
      var last := regs[|regs|-1];
      Collected(regs[..|regs|-1], shadows, name)
      + if name in last.names then Subtraction(last.scope, shadows(last.scope, name)) else []
  }

  lemma {:induction false} CollectedCovers(regs: seq<Registration>, shadows: Shadows, name: string, i: int)
    ensures Covers(Collected(regs, shadows, name), i) <==> Declared(regs, shadows, name, i)
  {
    if regs != [] {
      var front, last := regs[..|regs|-1], regs[|regs|-1];
      CollectedCovers(front, shadows, name, i);
      var pieces := if name in last.names then Subtraction(last.scope, shadows(last.scope, name)) else [];
      CoversAppend(Collected(front, shadows, name), pieces, i);
      SubtractionIsPointwise(last.scope, shadows(last.scope, name));
      assert regs == front + [last];
      assert forall d :: d in regs <==> d in front || d == last;
    }
  }

  lemma DisjointAppend(a: seq<Range>, b: seq<Range>)
    requires PairwiseDisjoint(a) && NonEmpty(a) && NonEmpty(b) && Separated(b)
    requires forall r, q :: r in a && q in b ==> !Overlap(r, q)
    ensures PairwiseDisjoint(a + b)
  {
    forall r ensures multiset(b)[r] <= 1 { SeparatedHasNoTwins(b, r); }
    forall r, q | r in b && q in b && r != q ensures !Overlap(r, q) {
      var j :| 0 <= j < |b| && b[j] == r;
      var k :| 0 <= k < |b| && b[k] == q;
    }
    forall r ensures multiset(a + b)[r] <= 1 {
      assert r in a ==> r !in b by { if r in a && r in b { assert Overlap(r, r); } }
      assert multiset(a)[r] == 0 || r in a;
      assert multiset(b)[r] == 0 || r in b;
    }
    assert forall r :: r in a + b <==> r in a || r in b;
  }

  lemma {:induction false} SeparatedHasNoTwins(b: seq<Range>, r: Range)
    requires NonEmpty(b) && Separated(b)
    ensures multiset(b)[r] <= 1
  {
    if b != [] {
      assert b == [b[0]] + b[1..];
      SeparatedHasNoTwins(b[1..], r);
      assert b[0] in b;
      assert forall k :: 0 <= k < |b| - 1 ==> b[1..][k] == b[k+1];
      assert b[0] !in b[1..];
    }
  }

  lemma {:induction false} CollectedWithin(regs: seq<Registration>, shadows: Shadows, name: string, r: Range)
    returns (k: nat)
    requires r in Collected(regs, shadows, name)
    ensures k < |regs| && name in regs[k].names && r.start <= r.end
    ensures regs[k].scope.start <= r.start && r.end <= regs[k].scope.end
  {
    var front, last := regs[..|regs|-1], regs[|regs|-1];
    if r in Collected(front, shadows, name) {
      k := CollectedWithin(front, shadows, name, r);
    } else {
      SubtractionIsPointwise(last.scope, shadows(last.scope, name));
      k := |regs| - 1;
    }
  }

  lemma {:induction false} CollectedDisjoint(regs: seq<Registration>, shadows: Shadows, name: string)
    requires DisjointScopes(regs, shadows)
    ensures PairwiseDisjoint(Collected(regs, shadows, name)) && NonEmpty(Collected(regs, shadows, name))
  {
    if regs != [] {
      var front, last := regs[..|regs|-1], regs[|regs|-1];
      assert regs == front + [last];
      CollectedDisjoint(front, shadows, name);
      if name in last.names {
        var pieces := Subtraction(last.scope, shadows(last.scope, name));
        SubtractionIsPointwise(last.scope, shadows(last.scope, name));
        forall r, q | r in Collected(front, shadows, name) && q in pieces ensures !Overlap(r, q) {
          var k := CollectedWithin(front, shadows, name, r);
          assert regs[k] == front[k] && name in regs[k].names * last.names;
          assert !Overlap(regs[k].scope, regs[|regs|-1].scope);
        }
        DisjointAppend(Collected(front, shadows, name), pieces);
      }
    }
  }

  /** For pairwise disjoint scopes the sorted index answers exactly the declared bindings. */
  lemma IndexIsExact(regs: seq<Registration>, shadows: Shadows, name: string)
    requires DisjointScopes(regs, shadows)
    ensures var ranges := SortRanges(Collected(regs, shadows, name));
      && NonEmpty(ranges) && Separated(ranges)
      && forall i :: Covers(ranges, i) <==> Declared(regs, shadows, name, i)
  {
    CollectedDisjoint(regs, shadows, name);
    SortedDisjointIsSeparated(Collected(regs, shadows, name));
    forall i ensures Covers(Collected(regs, shadows, name), i) <==> Declared(regs, shadows, name, i) {
      CollectedCovers(regs, shadows, name, i);
    }
  }

  /** The map from names to ranges that the audit grows in place. */
  class BindingIndex {
    const shadows: Shadows
    var bindings: map<string, seq<Range>>
    ghost var registered: seq<Registration>

    function Ranges(name: string): seq<Range>
      reads this
    {
      if name in bindings then bindings[name] else []
    }

    ghost predicate Unsorted()
      reads this
    {
      forall name :: Ranges(name) == Collected(registered, shadows, name)
    }

    ghost predicate Sorted()
      reads this
    {
      forall name :: Ranges(name) == SortRanges(Collected(registered, shadows, name))
    }

    constructor (shadows: Shadows)
      ensures Unsorted() && bindings == map[] && registered == [] && this.shadows == shadows
    {
      this.shadows := shadows;
      bindings := map[];
      registered := [];
    }

    method RegisterBindingRanges(names: set<string>, scope: Range)
      requires Unsorted()
      modifies this
      ensures Unsorted() && registered == old(registered) + [Registration(names, scope)]
    {
      var todo := names;
      while todo != {}
        invariant todo <= names && registered == old(registered)
        invariant forall n :: (Ranges(n) == Collected(registered, shadows, n) +
            if n in names - todo then Subtraction(scope, shadows(scope, n)) else [])
        decreases todo
      {
        var name :| name in todo;
        var ranges := if name in bindings then bindings[name] else [];
        var pieces := SubtractBindingRanges(scope, shadows(scope, name));
        bindings := bindings[name := ranges + pieces];
        todo := todo - {name};
      }
      registered := registered + [Registration(names, scope)];
      assert registered[..|registered|-1] == old(registered);
    }

    method SortBindingRanges()
      requires Unsorted()
      modifies this`bindings
      ensures Sorted()
    {
      var todo := bindings.Keys;
      while todo != {}
        invariant todo <= bindings.Keys && bindings.Keys == old(bindings).Keys
        invariant forall n :: n in bindings ==>
          bindings[n] == if n in todo then old(bindings)[n] else SortRanges(old(bindings)[n])
        decreases todo
      {
        var name :| name in todo;
        bindings := bindings[name := SortRanges(bindings[name])];
        todo := todo - {name};
      }
      forall n ensures Ranges(n) == SortRanges(Collected(registered, shadows, n)) {
        assert old(Ranges(n)) == Collected(registered, shadows, n);
      }
    }

    /** A positive answer never lies; on a sorted index over disjoint scopes the answer is exact. */
    method BindingAppliesAt(name: string, index: int) returns (found: bool)
      ensures found ==> Covers(Ranges(name), index)
      ensures Unsorted() && found ==> Declared(registered, shadows, name, index)
      ensures Sorted() && DisjointScopes(registered, shadows) ==>
        (found <==> Declared(registered, shadows, name, index))
    {
      if name !in bindings {
        found := false;
      } else {
        found := SearchRanges(bindings[name], index);
        ProbeIsMembership(bindings[name], index);
      }
      CollectedCovers(registered, shadows, name, index);
      if DisjointScopes(registered, shadows) { IndexIsExact(registered, shadows, name); }
    }
  }
}
