/**
 * The helpers of the setup scorer: `sign`, `medianIgnoreNaN`, the two
 * reverse scans `lastValid` / `lastValidIndex`, and the symmetric-window
 * pivot detector `findPivots`.
 */
module SetupHelpers {
  import opened Wrappers
  import opened Numeric

  /** `sign(x)`: 1, -1 or 0. */
  function Sign(x: real): (r: int)
    ensures r == 1 <==> x > 0.0
    ensures r == -1 <==> x < 0.0
    ensures r == 0 <==> x == 0.0
  {
    if x > 0.0 then 1 else if x < 0.0 then -1 else 0
  }

  // ------------------------------------------------------------ median

  /** The non-NaN slots, in order: what the push loop collects. */
  function Valid(arr: seq<Num>): (r: seq<real>)
    ensures |r| <= |arr|
  {
    if |arr| == 0 then []
    else if arr[|arr| - 1].Some? then Valid(arr[..|arr| - 1]) + [arr[|arr| - 1].value]
    else Valid(arr[..|arr| - 1])
  }

  predicate Sorted(s: seq<real>)
  {
    forall p, q :: 0 <= p < q < |s| ==> s[p] <= s[q]
  }

  /** x inserted into a sequence before the first larger element. */
  function Insert(s: seq<real>, x: real): (r: seq<real>)
    ensures |r| == |s| + 1
  {
    if |s| == 0 then [x]
    else if x <= s[0] then [x] + s
    else [s[0]] + Insert(s[1..], x)
  }

  /** Insertion adds x to the values and loses none. */
  lemma {:induction false} InsertPerm(s: seq<real>, x: real)
    ensures multiset(Insert(s, x)) == multiset(s) + multiset{x}
  {
    if |s| > 0 && x > s[0] {
      InsertPerm(s[1..], x);
      assert s == [s[0]] + s[1..];
    }
  }

  /** Inserting keeps every element above a common lower bound. */
  lemma {:induction false} InsertAbove(s: seq<real>, x: real, lo: real)
    requires lo <= x && forall k :: 0 <= k < |s| ==> lo <= s[k]
    ensures forall k :: 0 <= k < |Insert(s, x)| ==> lo <= Insert(s, x)[k]
  {
    if |s| > 0 && x > s[0] {
      InsertAbove(s[1..], x, lo);
    }
  }

  /** Insertion into a sorted sequence keeps it sorted. */
  lemma {:induction false} InsertSorted(s: seq<real>, x: real)
    requires Sorted(s)
    ensures Sorted(Insert(s, x))
  {
    if |s| > 0 && x > s[0] {
      var tail := s[1..];
      InsertSorted(tail, x);
      InsertAbove(tail, x, s[0]);
    }
  }

  /** An ascending reference sort: the order `v.sort((a, b) => a - b)` leaves. */
  function SortSpec(s: seq<real>): (r: seq<real>)
    ensures |r| == |s|
  {
    if |s| == 0 then [] else Insert(SortSpec(s[..|s| - 1]), s[|s| - 1])
  }

  /** The reference sort is sorted and a permutation of its input. */
  lemma {:induction false} SortSpecSorted(s: seq<real>)
    ensures Sorted(SortSpec(s)) && multiset(SortSpec(s)) == multiset(s)
  {
    if |s| > 0 {
      SortSpecSorted(s[..|s| - 1]);
      InsertSorted(SortSpec(s[..|s| - 1]), s[|s| - 1]);
      InsertPerm(SortSpec(s[..|s| - 1]), s[|s| - 1]);
      assert s == s[..|s| - 1] + [s[|s| - 1]];
    }
  }

  /** The head of a sorted sequence is below every value it holds. */
  lemma SortedHeadLeast(s: seq<real>, x: real)
    requires Sorted(s) && x in multiset(s)
    ensures |s| > 0 && s[0] <= x
  {
    var i :| 0 <= i < |s| && s[i] == x;
  }

  /** Dropping the head removes one copy of it from the values. */
  lemma TailValues(s: seq<real>)
    requires |s| > 0
    ensures multiset(s[1..]) == multiset(s) - multiset{s[0]}
  {
    assert s == [s[0]] + s[1..];
  }

  /** The tail of a sorted sequence is sorted. */
  lemma SortedTail(s: seq<real>)
    requires Sorted(s) && |s| > 0
    ensures Sorted(s[1..])
  {
    forall p, q | 0 <= p < q < |s| - 1
      ensures s[1..][p] <= s[1..][q]
    {
      assert s[1..][p] == s[p + 1] && s[1..][q] == s[q + 1];
    }
  }

  /** Two sorted arrangements of the same values are the same sequence. */
  lemma {:induction false} SortedUnique(a: seq<real>, b: seq<real>)
    requires Sorted(a) && Sorted(b) && multiset(a) == multiset(b)
    ensures a == b
    decreases |a|
  {
    assert |a| == |b| by {
      assert |multiset(a)| == |a| && |multiset(b)| == |b|;
    }
    if |a| > 0 {
      assert a[0] == b[0] by {
        SortedHeadLeast(b, a[0]);
        SortedHeadLeast(a, b[0]);
      }
      var ta, tb := a[1..], b[1..];
      assert multiset(ta) == multiset(tb) by {
        TailValues(a);
        TailValues(b);
      }
      SortedTail(a);
      SortedTail(b);
      SortedUnique(ta, tb);
      forall i | 0 <= i < |a|
        ensures a[i] == b[i]
      {
        if i > 0 {
          assert a[i] == ta[i - 1] && b[i] == tb[i - 1];
        }
      }
    }
  }

  /** The middle of a sorted, non-empty sequence, or the mean of the two middles. */
  function MedianOfSorted(v: seq<real>): real
    requires |v| > 0
  {
    var mid := |v| / 2;
    if |v| % 2 == 0 then (v[mid - 1] + v[mid]) / 2.0 else v[mid]
  }

  /** `medianIgnoreNaN`: NaN when no slot is valid, else the median of the valid values. */
  function MedianSpec(arr: seq<Num>): Num
  {
    var v := SortSpec(Valid(arr));
    if |v| == 0 then NaN else Some(MedianOfSorted(v))
  }

  /** Every value the push loop collects is one of the array's valid slots, and every valid slot is collected. */
  lemma {:induction false} ValidMembers(arr: seq<Num>)
    ensures forall x :: x in Valid(arr) <==> exists i :: 0 <= i < |arr| && arr[i] == Some(x)
  {
    if |arr| > 0 {
      var init := arr[..|arr| - 1];
      ValidMembers(init);
      forall x
        ensures x in Valid(arr) <==> exists i :: 0 <= i < |arr| && arr[i] == Some(x)
      {
        if x in Valid(arr) && x !in Valid(init) {
          assert arr[|arr| - 1] == Some(x);
        }
        if i :| 0 <= i < |arr| && arr[i] == Some(x) {
          if i < |arr| - 1 {
            assert init[i] == Some(x);
          }
        }
        if i :| 0 <= i < |init| && init[i] == Some(x) {
          assert arr[i] == Some(x);
        }
      }
    }
  }

  /** The push loop collects nothing exactly when every slot is NaN. */
  lemma {:induction false} ValidEmptyIff(arr: seq<Num>)
    ensures |Valid(arr)| == 0 <==> forall i :: 0 <= i < |arr| ==> arr[i].None?
  {
    if |arr| > 0 {
      var init := arr[..|arr| - 1];
      ValidEmptyIff(init);
      assert forall i :: 0 <= i < |init| ==> init[i] == arr[i];
    }
  }

  /** The median is NaN exactly when every slot is NaN. */
  lemma MedianNaNIff(arr: seq<Num>)
    ensures MedianSpec(arr).None? <==> forall i :: 0 <= i < |arr| ==> arr[i].None?
  {
    ValidEmptyIff(arr);
  }

  /** The middle of a sorted sequence lies between its first and its last element. */
  lemma MedianOfSortedBounds(v: seq<real>)
    requires |v| > 0 && Sorted(v)
    ensures v[0] <= MedianOfSorted(v) <= v[|v| - 1]
  {
    var mid := |v| / 2;
    assert v[0] <= v[mid] <= v[|v| - 1];
    if |v| % 2 == 0 {
      assert v[0] <= v[mid - 1] <= v[|v| - 1];
    }
  }

  /** A valid median lies between two valid slots of the input: the median of no real value is never invented. */
  lemma MedianBetweenValid(arr: seq<Num>)
    requires MedianSpec(arr).Some?
    ensures exists i, j :: (0 <= i < |arr| && 0 <= j < |arr| && arr[i].Some? && arr[j].Some? &&
                            arr[i].value <= MedianSpec(arr).value <= arr[j].value)
  {
    var v := SortSpec(Valid(arr));
    SortSpecSorted(Valid(arr));
    MedianOfSortedBounds(v);
    assert v[0] in multiset(v) && v[|v| - 1] in multiset(v);
    assert v[0] in Valid(arr) && v[|v| - 1] in Valid(arr);
    ValidMembers(arr);
    var i :| 0 <= i < |arr| && arr[i] == Some(v[0]);
    var j :| 0 <= j < |arr| && arr[j] == Some(v[|v| - 1]);
    assert arr[i].value <= MedianSpec(arr).value <= arr[j].value;
  }

  /** While a[i] sinks to slot j: the prefix a[..i + 1] is ordered except around j, and a[j] is below everything after it. */
  predicate Sinking(s: seq<real>, i: int, j: int)
  {
    0 <= j <= i < |s| &&
    (forall p, q :: 0 <= p < q <= i && p != j && q != j ==> s[p] <= s[q]) &&
    (forall q :: j < q <= i ==> s[j] <= s[q])
  }

  /** Swapping a[j - 1] and a[j] when they are out of order moves the sinking slot down by one. */
  lemma SinkStep(s: seq<real>, i: int, j: int)
    requires Sinking(s, i, j) && j > 0 && s[j - 1] > s[j]
    ensures Sinking(s[j - 1 := s[j]][j := s[j - 1]], i, j - 1)
  {
  }

  /** The sinking slot stops at the front or under a smaller neighbour: the prefix is sorted. */
  lemma SinkDone(s: seq<real>, i: int, j: int)
    requires Sinking(s, i, j) && (j == 0 || s[j - 1] <= s[j])
    ensures Sorted(s[..i + 1])
  {
  }

  /** One pass of insertion sort: sink a[i] into the sorted prefix a[..i]. */
  method SinkInto(a: array<real>, i: nat)
    requires i < a.Length && Sorted(a[..i])
    modifies a
    ensures Sorted(a[..i + 1])
    ensures multiset(a[..]) == multiset(old(a[..]))
  {
    var j := i;
    while j > 0 && a[j - 1] > a[j]
      invariant Sinking(a[..], i, j)
      invariant multiset(a[..]) == multiset(old(a[..]))
    {
      ghost var before := a[..];
      a[j - 1], a[j] := a[j], a[j - 1];
      assert a[..] == before[j - 1 := before[j]][j := before[j - 1]];
      SinkStep(before, i, j);
      j := j - 1;
    }
    SinkDone(a[..], i, j);
  }

  /** `v.sort((a, b) => a - b)`: insertion sort in place. */
  method SortInPlace(a: array<real>)
    modifies a
    ensures Sorted(a[..])
    ensures multiset(a[..]) == multiset(old(a[..]))
  {
    for i := 0 to a.Length
      invariant Sorted(a[..i])
      invariant multiset(a[..]) == multiset(old(a[..]))
    {
      SinkInto(a, i);
    }
    assert a[..a.Length] == a[..];
  }

  /** The push loop of `medianIgnoreNaN`: keep the valid slots in order. */
  method CollectValid(arr: seq<Num>) returns (v: seq<real>)
    ensures v == Valid(arr)
  {
    v := [];
    for i := 0 to |arr|
      invariant v == Valid(arr[..i])
    {
      assert arr[..i + 1][..i] == arr[..i];
      if arr[i].Some? {
        v := v + [arr[i].value];
      }
    }
    assert arr[..|arr|] == arr;
  }

  /** The sorting step: the sorted copy agrees with the reference sort. */
  method SortedCopy(v: seq<real>) returns (sorted: seq<real>)
    ensures sorted == SortSpec(v)
  {
    var a := new real[|v|](k requires 0 <= k < |v| => v[k]);
    assert a[..] == v;
    SortInPlace(a);
    SortSpecSorted(v);
    SortedUnique(a[..], SortSpec(v));
    sorted := a[..];
  }

  /** `medianIgnoreNaN`: collect the valid slots, sort them, take the middle. */
  method MedianIgnoreNaN(arr: seq<Num>) returns (m: Num)
    ensures m == MedianSpec(arr)
  {
    var v := CollectValid(arr);
    if |v| == 0 {
      return NaN;
    }
    var sorted := SortedCopy(v);
    var mid := |sorted| / 2;
    m := if |sorted| % 2 == 0 then Some((sorted[mid - 1] + sorted[mid]) / 2.0) else Some(sorted[mid]);
  }

  // ------------------------------------------------------------ reverse scans

  /** `lastValidIndex`: the index of the last valid slot, or -1. */
  function LastValidIndexSpec(arr: seq<Num>): (r: int)
    ensures -1 <= r < |arr|
    ensures r >= 0 ==> arr[r].Some?
    ensures forall i :: r < i < |arr| ==> arr[i].None?
  {
    if |arr| == 0 then -1
    else if arr[|arr| - 1].Some? then |arr| - 1
    else LastValidIndexSpec(arr[..|arr| - 1])
  }

  /** `lastValid`: the value of the last valid slot, or undefined. */
  function LastValidSpec(arr: seq<Num>): Option<real>
  {
    var i := LastValidIndexSpec(arr);
    if i < 0 then None else Some(arr[i].value)
  }

  /** The scan stops at the last valid slot: -1 exactly when no slot is valid. */
  lemma LastValidIndexIff(arr: seq<Num>)
    ensures LastValidIndexSpec(arr) == -1 <==> forall i :: 0 <= i < |arr| ==> arr[i].None?
    ensures LastValidSpec(arr).None? <==> LastValidIndexSpec(arr) == -1
    ensures LastValidSpec(arr).Some? ==> arr[LastValidIndexSpec(arr)] == Some(LastValidSpec(arr).value)
  {
  }

  /** `lastValidIndex`: scan from the end. */
  method LastValidIndex(arr: seq<Num>) returns (r: int)
    ensures r == LastValidIndexSpec(arr)
  {
    var i := |arr| - 1;
    while i >= 0
      invariant -1 <= i < |arr|
      invariant LastValidIndexSpec(arr) == LastValidIndexSpec(arr[..i + 1])
    {
      if arr[i].Some? {
        return i;
      }
      assert arr[..i + 1][..i] == arr[..i];
      i := i - 1;
    }
    return -1;
  }

  /** `lastValid`: scan from the end. */
  method LastValid(arr: seq<Num>) returns (r: Option<real>)
    ensures r == LastValidSpec(arr)
  {
    var i := |arr| - 1;
    while i >= 0
      invariant -1 <= i < |arr|
      invariant LastValidIndexSpec(arr) == LastValidIndexSpec(arr[..i + 1])
    {
      if arr[i].Some? {
        return Some(arr[i].value);
      }
      assert arr[..i + 1][..i] == arr[..i];
      i := i - 1;
    }
    return None;
  }

  // ------------------------------------------------------------ pivots

  /** i is a pivot high: its window [i - left, i + right] lies inside the bars and no high in it exceeds high[i]. */
  predicate IsPivotHigh(high: seq<real>, left: nat, right: nat, i: int)
  {
    left <= i && i + right < |high| && forall k :: i - left <= k <= i + right ==> high[k] <= high[i]
  }

  /** i is a pivot low: no low in its window is below low[i]. */
  predicate IsPivotLow(low: seq<real>, left: nat, right: nat, i: int)
  {
    left <= i && i + right < |low| && forall k :: i - left <= k <= i + right ==> low[i] <= low[k]
  }

  /** The pivot highs below `hi`, ascending. */
  function PivotHighsBelow(high: seq<real>, left: nat, right: nat, hi: int): seq<int>
    decreases hi
  {
    if hi <= 0 then []
    else if IsPivotHigh(high, left, right, hi - 1) then PivotHighsBelow(high, left, right, hi - 1) + [hi - 1]
    else PivotHighsBelow(high, left, right, hi - 1)
  }

  /** The pivot lows below `hi`, ascending. */
  function PivotLowsBelow(low: seq<real>, left: nat, right: nat, hi: int): seq<int>
    decreases hi
  {
    if hi <= 0 then []
    else if IsPivotLow(low, left, right, hi - 1) then PivotLowsBelow(low, left, right, hi - 1) + [hi - 1]
    else PivotLowsBelow(low, left, right, hi - 1)
  }

  predicate StrictlyIncreasing(s: seq<int>)
  {
    forall p, q :: 0 <= p < q < |s| ==> s[p] < s[q]
  }

  /** The pivot-high list holds exactly the pivot highs, strictly increasing. */
  lemma {:induction false} PivotHighsExact(high: seq<real>, left: nat, right: nat, hi: int)
    ensures forall i :: i in PivotHighsBelow(high, left, right, hi) <==> i < hi && IsPivotHigh(high, left, right, i)
    ensures StrictlyIncreasing(PivotHighsBelow(high, left, right, hi))
    decreases hi
  {
    if hi > 0 {
      PivotHighsExact(high, left, right, hi - 1);
      var prev := PivotHighsBelow(high, left, right, hi - 1);
      assert forall p :: 0 <= p < |prev| ==> prev[p] < hi - 1 by {
        forall p | 0 <= p < |prev|
          ensures prev[p] < hi - 1
        {
          assert prev[p] in prev;
        }
      }
    }
  }

  /** The pivot-low list holds exactly the pivot lows, strictly increasing. */
  lemma {:induction false} PivotLowsExact(low: seq<real>, left: nat, right: nat, hi: int)
    ensures forall i :: i in PivotLowsBelow(low, left, right, hi) <==> i < hi && IsPivotLow(low, left, right, i)
    ensures StrictlyIncreasing(PivotLowsBelow(low, left, right, hi))
    decreases hi
  {
    if hi > 0 {
      PivotLowsExact(low, left, right, hi - 1);
      var prev := PivotLowsBelow(low, left, right, hi - 1);
      assert forall p :: 0 <= p < |prev| ==> prev[p] < hi - 1 by {
        forall p | 0 <= p < |prev|
          ensures prev[p] < hi - 1
        {
          assert prev[p] in prev;
        }
      }
    }
  }

  /** The two pivot lists `findPivots` returns. */
  datatype Pivots = Pivots(ph: seq<int>, pl: seq<int>)

  /** `findPivots` for bars with |high| == |low|: every candidate i in [left, n - right). */
  function PivotsSpec(high: seq<real>, low: seq<real>, left: nat, right: nat): Pivots
  {
    Pivots(PivotHighsBelow(high, left, right, |high| - right), PivotLowsBelow(low, left, right, |high| - right))
  }

  /**
   * One candidate of `findPivots`: the window scan with the early `break`.
   * The break leaves both flags false, which the full scan would too.
   */
  method ScanWindow(high: seq<real>, low: seq<real>, left: nat, right: nat, i: nat) returns (isHigh: bool, isLow: bool)
    requires |low| == |high| && left <= i && i + right < |high|
    ensures isHigh <==> IsPivotHigh(high, left, right, i)
    ensures isLow <==> IsPivotLow(low, left, right, i)
  {
    isHigh := true;
    isLow := true;
    for k := i - left to i + right + 1
      invariant isHigh <==> forall k' :: i - left <= k' < k ==> high[k'] <= high[i]
      invariant isLow <==> forall k' :: i - left <= k' < k ==> low[i] <= low[k']
    {
      if high[i] < high[k] {
        isHigh := false;
      }
      if low[i] > low[k] {
        isLow := false;
      }
      if !isHigh && !isLow {
        break;
      }
    }
  }

  /** `findPivots`: the outer loop over candidates, pushing the pivots found. */
  method FindPivots(high: seq<real>, low: seq<real>, left: nat, right: nat) returns (p: Pivots)
    requires |low| == |high|
    ensures p == PivotsSpec(high, low, left, right)
  {
    var n := |high|;
    var ph: seq<int> := [];
    var pl: seq<int> := [];
    var i := left;
    PivotsBelowStart(high, low, left, right, i);
    while i < n - right
      invariant left <= i && (i <= n - right || n - right <= left)
      invariant ph == PivotHighsBelow(high, left, right, i)
      invariant pl == PivotLowsBelow(low, left, right, i)
      decreases n - right - i
    {
      var isHigh, isLow := ScanWindow(high, low, left, right, i);
      if isHigh {
        ph := ph + [i];
      }
      if isLow {
        pl := pl + [i];
      }
      i := i + 1;
    }
    PivotsBelowEnd(high, low, left, right, i);
    p := Pivots(ph, pl);
  }

  /** No index past n - right - 1 is a pivot, so the lists stop growing there. */
  lemma {:induction false} PivotsBelowEnd(high: seq<real>, low: seq<real>, left: nat, right: nat, hi: int)
    requires |low| == |high| && hi >= |high| - right
    ensures PivotHighsBelow(high, left, right, hi) == PivotHighsBelow(high, left, right, |high| - right)
    ensures PivotLowsBelow(low, left, right, hi) == PivotLowsBelow(low, left, right, |high| - right)
    decreases hi - (|high| - right)
  {
    if hi > |high| - right {
      PivotsBelowEnd(high, low, left, right, hi - 1);
    }
  }

  /** No index below `left` is a pivot, so the lists start empty. */
  lemma {:induction false} PivotsBelowStart(high: seq<real>, low: seq<real>, left: nat, right: nat, hi: int)
    requires hi <= left
    ensures PivotHighsBelow(high, left, right, hi) == []
    ensures PivotLowsBelow(low, left, right, hi) == []
    decreases hi
  {
    if hi > 0 {
      PivotsBelowStart(high, low, left, right, hi - 1);
    }
  }
}
