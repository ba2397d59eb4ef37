/** The sliding window and its nearest-rank percentiles
    (controller/src/sliding_window.cpp), over exact reals. */
module SlidingWindows {

  // ----- the window ----------------------------------------------------------

  function Add(samples: seq<real>, capacity: nat, value: real): seq<real>
    requires 0 < capacity
  {
    (if |samples| == capacity then samples[1..] else samples) + [value]
  }

  function AddAll(samples: seq<real>, capacity: nat, values: seq<real>): seq<real>
    requires 0 < capacity
    decreases |values|
  {
    if values == [] then samples
    else Add(AddAll(samples, capacity, values[..|values| - 1]), capacity, values[|values| - 1])
  }

  function Least(a: nat, b: nat): nat { if a < b then a else b }

  /** A window started empty holds the latest samples, oldest first, as many as fit. */
  lemma {:induction false} HoldsLatest(capacity: nat, values: seq<real>)
    requires 0 < capacity
    ensures AddAll([], capacity, values) == values[|values| - Least(|values|, capacity)..]
    decreases |values|
  {
    var n := |values|;
    if n > 0 {
      var earlier := values[..n - 1];
      HoldsLatest(capacity, earlier);
      assert AddAll([], capacity, values) == Add(AddAll([], capacity, earlier), capacity, values[n - 1]);
      hide AddAll, Add;
      var start := n - 1 - Least(n - 1, capacity);
      assert earlier[start..] == values[start..n - 1];
      SlideOn(capacity, values, start);
    }
  }

  lemma SlideOn(capacity: nat, values: seq<real>, start: nat)
    requires 0 < capacity && values != [] && start == |values| - 1 - Least(|values| - 1, capacity)
    ensures Add(values[start..|values| - 1], capacity, values[|values| - 1])
      == values[|values| - Least(|values|, capacity)..]
  {
    var n := |values|;
    var held := values[start..n - 1];
    if n - 1 < capacity {
      assert held + [values[n - 1]] == values[start..];
    } else {
      assert held[1..] + [values[n - 1]] == values[start + 1..];
    }
  }

  // ----- sorting -------------------------------------------------------------

  predicate Sorted(s: seq<real>) {
    forall i, j | 0 <= i < j < |s| :: s[i] <= s[j]
  }

  function Insert(s: seq<real>, x: real): seq<real>
    decreases |s|
  {
    if s == [] || s[|s| - 1] <= x then s + [x] else Insert(s[..|s| - 1], x) + [s[|s| - 1]]
  }

  function Sort(s: seq<real>): seq<real>
    decreases |s|
  {
    if s == [] then [] else Insert(Sort(s[..|s| - 1]), s[|s| - 1])
  }

  lemma {:induction false} InsertElements(s: seq<real>, x: real)
    ensures multiset(Insert(s, x)) == multiset(s) + multiset{x} && |Insert(s, x)| == |s| + 1
    ensures forall y | y in Insert(s, x) :: y == x || y in s
    decreases |s|
  {
    if s != [] && x < s[|s| - 1] {
      InsertElements(s[..|s| - 1], x);
      assert s == s[..|s| - 1] + [s[|s| - 1]];
    }
  }

  lemma SortedSnoc(s: seq<real>, x: real)
    requires Sorted(s) && forall y | y in s :: y <= x
    ensures Sorted(s + [x])
  {
    assert forall k | 0 <= k < |s| :: s[k] in s;
  }

  lemma {:induction false} InsertSorts(s: seq<real>, x: real)
    requires Sorted(s)
    ensures Sorted(Insert(s, x))
    decreases |s|
  {
    hide Sorted;
    LastIsGreatest(s);
    if s == [] || s[|s| - 1] <= x {
      SortedSnoc(s, x);
    } else {
      var front, last := s[..|s| - 1], s[|s| - 1];
      var sunk := Insert(front, x);
      SortedFront(s);
      InsertElements(front, x);
      InsertSorts(front, x);
      assert forall y | y in sunk :: y == x || y in s;
      SortedSnoc(sunk, last);
    }
  }

  lemma LastIsGreatest(s: seq<real>)
    requires Sorted(s)
    ensures s != [] ==> forall y | y in s :: y <= s[|s| - 1]
  {}

  lemma SortedFront(s: seq<real>)
    requires Sorted(s) && s != []
    ensures Sorted(s[..|s| - 1]) && forall y | y in s[..|s| - 1] :: y in s
  {}

  lemma {:induction false} SortSorts(s: seq<real>)
    ensures Sorted(Sort(s)) && multiset(Sort(s)) == multiset(s) && |Sort(s)| == |s|
    decreases |s|
  {
    if s != [] {
      SortSorts(s[..|s| - 1]);
      InsertElements(Sort(s[..|s| - 1]), s[|s| - 1]);
      InsertSorts(Sort(s[..|s| - 1]), s[|s| - 1]);
      assert s == s[..|s| - 1] + [s[|s| - 1]];
    }
  }

  // ----- percentiles ---------------------------------------------------------

  lemma SortKeepsLength(s: seq<real>)
    ensures |Sort(s)| == |s|
  {
    SortSorts(s);
  }

  function Ceil(x: real): int {
    if x == x.Floor as real then x.Floor else x.Floor + 1
  }

  /** rank = ceil(p / 100 * n) */
  function Rank(p: real, n: nat): int { Ceil(p / 100.0 * n as real) }

  /** The index read from the sorted samples, before the final clamp. */
  function Index(p: real, n: nat): int {
    (if Rank(p, n) < 1 then 1 else Rank(p, n)) - 1
  }

  /** Invalid stands for the argument error, Empty for the missing value. */
  datatype Answer = Invalid | Empty | Value(value: real)

  function PercentileOf(samples: seq<real>, p: real): Answer {
    if p < 0.0 || p > 100.0 then Invalid
    else if samples == [] then Empty
    else
      var values := Sort(samples);
      assert |values| == |samples| by { SortSorts(samples); }
      if p == 0.0 then Value(values[0])
      else
        var i := Index(p, |values|);
        Value(values[if i < |values| then i else |values| - 1])
  }

  /** When there is no value: a rank out of range is an error even for an empty
      window, and an empty window has no percentile. */
  lemma NoPercentile(samples: seq<real>, p: real)
    ensures PercentileOf(samples, p) == Invalid <==> !(0.0 <= p <= 100.0)
    ensures PercentileOf(samples, p) == Empty <==> 0.0 <= p <= 100.0 && samples == []
  {
    hide Sort, Index;
  }

  lemma ScaledRank(p: real, n: nat)
    requires 0.0 <= p <= 100.0
    ensures 0.0 <= p / 100.0 * n as real <= n as real
  {
    var q := p / 100.0;
    assert 0.0 <= q <= 1.0;
    Multiply(q, n as real);
    Multiply(1.0 - q, n as real);
    assert (1.0 - q) * n as real == n as real - q * n as real;
  }

  lemma Multiply(a: real, b: real)
    requires 0.0 <= a && 0.0 <= b
    ensures 0.0 <= a * b
  {}

  lemma CeilBounds(x: real)
    ensures Ceil(x) as real - 1.0 < x <= Ceil(x) as real
  {}

  lemma CeilIsLeast(x: real, n: int)
    requires x <= n as real
    ensures Ceil(x) <= n
  {}

  /** The final clamp is never active, and the branch for p = 0 reads the element
      that the general formula would. */
  lemma ClampIsIdle(p: real, n: nat)
    requires 0.0 <= p <= 100.0 && 0 < n
    ensures 0 <= Index(p, n) < n
    ensures p == 0.0 ==> Index(p, n) == 0
  {
    ScaledRank(p, n);
    CeilIsLeast(p / 100.0 * n as real, n);
  }

  function AtMost(s: seq<real>, v: real): nat {
    if s == [] then 0 else AtMost(s[..|s| - 1], v) + (if s[|s| - 1] <= v then 1 else 0)
  }

  /** At least p percent of the samples are at most v. */
  predicate Enough(s: seq<real>, p: real, v: real) {
    AtMost(s, v) as real >= p / 100.0 * |s| as real
  }

  lemma {:induction false} InsertCounts(s: seq<real>, x: real, v: real)
    ensures AtMost(Insert(s, x), v) == AtMost(s, v) + if x <= v then 1 else 0
    decreases |s|
  {
    if s == [] || s[|s| - 1] <= x {
      assert (s + [x])[..|s|] == s;
    } else {
      var front, last := s[..|s| - 1], s[|s| - 1];
      InsertCounts(front, x, v);
      assert (Insert(front, x) + [last])[..|Insert(front, x)|] == Insert(front, x);
    }
  }

  lemma {:induction false} SortCounts(s: seq<real>, v: real)
    ensures AtMost(Sort(s), v) == AtMost(s, v)
    decreases |s|
  {
    if s != [] {
      SortCounts(s[..|s| - 1], v);
      InsertCounts(Sort(s[..|s| - 1]), s[|s| - 1], v);
    }
  }

  /** In a sorted list more than i elements are at most the i-th, and at most i are
      below it. */
  lemma {:induction false} CountAround(s: seq<real>, i: nat, v: real)
    requires Sorted(s) && i < |s|
    ensures s[i] <= v ==> AtMost(s, v) >= i + 1
    ensures v < s[i] ==> AtMost(s, v) <= i
    decreases |s|
  {
    var front := s[..|s| - 1];
    if i < |s| - 1 {
      CountAround(front, i, v);
    } else {
      AtMostLength(front, v);
      if s[i] <= v {
        AllAtMost(front, v);
      }
    }
  }

  lemma {:induction false} AtMostLength(s: seq<real>, v: real)
    ensures AtMost(s, v) <= |s|
    decreases |s|
  {
    if s != [] {
      AtMostLength(s[..|s| - 1], v);
    }
  }

  lemma {:induction false} AllAtMost(s: seq<real>, v: real)
    requires forall k | 0 <= k < |s| :: s[k] <= v
    ensures AtMost(s, v) == |s|
    decreases |s|
  {
    if s != [] {
      AllAtMost(s[..|s| - 1], v);
    }
  }

  /** The nearest-rank percentile is the least held sample such that at least p
      percent of the samples are at most it: it is one, and there is no smaller. */
  predicate IsPercentile(samples: seq<real>, p: real, v: real) {
    && v in samples && Enough(samples, p, v)
    && forall w | w in samples && Enough(samples, p, w) :: v <= w
  }

  lemma PercentileMeaning(samples: seq<real>, p: real, v: real)
    requires 0.0 <= p <= 100.0 && samples != []
    ensures PercentileOf(samples, p) == Value(v) <==> IsPercentile(samples, p, v)
  {
    SortSorts(samples);
    var values := Sort(samples);
    var i := Index(p, |values|);
    ClampIsIdle(p, |values|);
    assert PercentileOf(samples, p) == Value(values[i]);
    ReadsLeast(samples, p);
  }

  lemma ReadsLeast(samples: seq<real>, p: real)
    requires 0.0 <= p <= 100.0 && samples != []
    ensures 0 <= Index(p, |samples|) < |Sort(samples)|
    ensures IsPercentile(samples, p, Sort(samples)[Index(p, |samples|)])
  {
    SortSorts(samples);
    ClampIsIdle(p, |samples|);
    var values, i := Sort(samples), Index(p, |samples|);
    var least, rank := values[i], p / 100.0 * |samples| as real;
    CeilBounds(rank);
    SortCounts(samples, least);
    CountAround(values, i, least);
    SameElements(samples);
    assert least in values;
    forall w | w in samples && Enough(samples, p, w)
      ensures least <= w
    {
      NoSmaller(samples, p, w);
    }
  }

  /** Whatever lies below the element read is too low. */
  lemma NoSmaller(samples: seq<real>, p: real, w: real)
    requires 0.0 <= p <= 100.0 && w in samples && Enough(samples, p, w)
    ensures 0 <= Index(p, |samples|) < |Sort(samples)|
    ensures Sort(samples)[Index(p, |samples|)] <= w
  {
    SortSorts(samples);
    ClampIsIdle(p, |samples|);
    var values, i := Sort(samples), Index(p, |samples|);
    SortCounts(samples, w);
    CountAround(values, i, w);
    CeilBounds(p / 100.0 * |samples| as real);
    SameElements(samples);
    assert values[0] <= w by {
      var k :| 0 <= k < |values| && values[k] == w;
    }
  }

  lemma SameElements(samples: seq<real>)
    ensures forall w :: w in samples <==> w in Sort(samples)
  {
    SortSorts(samples);
    forall w
      ensures w in samples <==> w in Sort(samples)
    {
      assert w in samples <==> w in multiset(samples);
      assert w in Sort(samples) <==> w in multiset(Sort(samples));
    }
  }

  /** Percentiles grow with p. */
  lemma PercentileMonotone(samples: seq<real>, p: real, q: real)
    requires 0.0 <= p <= q <= 100.0 && samples != []
    ensures PercentileOf(samples, p).Value? && PercentileOf(samples, q).Value?
    ensures PercentileOf(samples, p).value <= PercentileOf(samples, q).value
  {
    SortSorts(samples);
    var v, w := PercentileOf(samples, p).value, PercentileOf(samples, q).value;
    PercentileMeaning(samples, p, v);
    PercentileMeaning(samples, q, w);
    EnoughForLess(samples, p, q, w);
    hide *;
  }

  lemma EnoughForLess(samples: seq<real>, p: real, q: real, v: real)
    requires 0.0 <= p <= q <= 100.0 && Enough(samples, q, v)
    ensures Enough(samples, p, v)
  {
    var n := |samples| as real;
    Multiply(q / 100.0 - p / 100.0, n);
    assert (q / 100.0 - p / 100.0) * n == q / 100.0 * n - p / 100.0 * n;
  }
}

/** The mutable window. */
module SlidingWindowObject {
  import opened SlidingWindows

  /** Sorts in place; each element sinks to its place among those before it. */
  method SortInPlace(a: array<real>)
    modifies a
    ensures a[..] == Sort(old(a[..]))
  {
    ghost var was := a[..];
    var n := 0;
    while n < a.Length
      invariant 0 <= n <= a.Length
      invariant a[..n] == Sort(was[..n]) && a[n..] == was[n..]
    {
      assert was[..n + 1][..n] == was[..n];
      SinkLast(a, n);
      n := n + 1;
    }
    assert was[..n] == was && a[..n] == a[..];
  }

  /** Moves a[n] to its place among the first n elements. */
  method SinkLast(a: array<real>, n: nat)
    requires n < a.Length
    modifies a
    ensures a[..n + 1] == Insert(old(a[..n]), old(a[n]))
    ensures a[n + 1..] == old(a[n + 1..])
  {
    hide Insert;
    ghost var front := a[..n];
    var x := a[n];
    var j := n;
    assert front[..n] == front && front[n..] == [];
    while j > 0 && x < a[j - 1]
      invariant 0 <= j <= n
      invariant forall k | 0 <= k < j :: a[k] == front[k]
      invariant forall k | j < k <= n :: a[k] == front[k - 1]
      invariant forall k | n < k < a.Length :: a[k] == old(a[k])
      invariant Insert(front, x) == Insert(front[..j], x) + front[j..]
    {
      InsertDeeper(front, j, x);
      a[j] := a[j - 1];
      j := j - 1;
    }
    InsertHere(front, j, x);
    a[j] := x;
    ghost var goal := front[..j] + [x] + front[j..];
    assert forall k | 0 <= k <= n :: a[k] == goal[k];
    assert a[..n + 1] == goal;
    assert a[n + 1..] == old(a[n + 1..]);
  }

  lemma InsertDeeper(front: seq<real>, j: nat, x: real)
    requires 0 < j <= |front| && x < front[j - 1]
    ensures Insert(front[..j], x) + front[j..] == Insert(front[..j - 1], x) + front[j - 1..]
  {
    assert front[..j][..j - 1] == front[..j - 1];
    assert front[j - 1..] == [front[j - 1]] + front[j..];
  }

  lemma InsertHere(front: seq<real>, j: nat, x: real)
    requires j <= |front| && (j == 0 || front[j - 1] <= x)
    ensures Insert(front[..j], x) == front[..j] + [x]
  {}

  class SlidingWindow {
    const capacity: nat
    var samples: seq<real>

    ghost predicate Valid()
      reads this
    {
      0 < capacity && |samples| <= capacity
    }

    constructor (capacity: nat)
      requires 0 < capacity
      ensures Valid() && this.capacity == capacity && samples == []
    {
      this.capacity := capacity;
      samples := [];
    }

    method AddSample(value: real)
      requires Valid()
      modifies this
      ensures Valid() && samples == Add(old(samples), capacity, value)
    {
      if |samples| == capacity {
        samples := samples[1..];
      }
      samples := samples + [value];
    }

    method Percentile(percentileValue: real) returns (answer: Answer)
      requires Valid()
      ensures answer == PercentileOf(samples, percentileValue)
    {
      if percentileValue < 0.0 || percentileValue > 100.0 {
        return Invalid;
      }
      if samples == [] {
        return Empty;
      }
      var values := new real[|samples|](i requires 0 <= i < |samples| reads this => samples[i]);
      assert values[..] == samples;
      answer := SortAndRead(values, percentileValue);
    }

    /** The part of `percentile` that works on the local copy. */
    method SortAndRead(values: array<real>, percentileValue: real) returns (answer: Answer)
      requires 0.0 <= percentileValue <= 100.0 && 0 < values.Length
      modifies values
      ensures answer == PercentileOf(old(values[..]), percentileValue)
    {
      SortKeepsLength(values[..]);
      hide Sort, Rank;
      SortInPlace(values);
      if percentileValue == 0.0 {
        return Value(values[0]);
      }
      var rank := Rank(percentileValue, values.Length);
      var index := (if rank < 1 then 1 else rank) - 1;
      return Value(values[if index < values.Length then index else values.Length - 1]);
    }

    method P95() returns (answer: Answer)
      requires Valid()
      ensures answer == PercentileOf(samples, 95.0)
    {
      answer := Percentile(95.0);
    }
  }

  /** Null stands for the argument error the constructor throws. */
  method MakeWindow(capacity: nat) returns (window: SlidingWindow?)
    ensures window == null <==> capacity == 0
    ensures window != null ==>
      fresh(window) && window.Valid() && window.capacity == capacity && window.samples == []
  {
    if capacity == 0 {
      return null;
    }
    window := new SlidingWindow(capacity);
  }
}
