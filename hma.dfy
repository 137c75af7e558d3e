/**
 * HMA, the Hull moving average: a wma over `2 * wma(L/2) - wma(L)` with
 * window floor(sqrt(L)), both auxiliary lengths clamped to at least 2.
 */
module Hma {
  import opened Wrappers
  import opened Numeric
  import opened Primitives

  /** `Math.max(2, Math.floor(L / 2))`. */
  function HalfLength(length: nat): (r: nat)
    ensures r >= 2 && (r == 2 || r == length / 2)
  {
    if length / 2 >= 2 then length / 2 else 2
  }

  /** `Math.max(2, Math.floor(Math.sqrt(L)))`, with the exact integer square root. */
  function RootLength(length: nat): (r: nat)
    ensures r >= 2 && (r == 2 || r == ISqrt(length))
  {
    if ISqrt(length) >= 2 then ISqrt(length) else 2
  }

  /** The reported warmup `(L - 1) + (Ls - 1)`. */
  function HmaWarmup(length: nat): int
  {
    (length - 1) + (RootLength(length) - 1)
  }

  /** One slot of `diff`: NaN if either wma is NaN, else `2 * a - b`. */
  function DiffOf(a: Num, b: Num): (r: Num)
    ensures r.Some? <==> a.Some? && b.Some?
  {
    if a.None? || b.None? then NaN else Some(2.0 * a.value - b.value)
  }

  function DiffAt(close: seq<real>, length: nat, i: nat): Num
    requires length >= 1 && i < |close|
  {
    DiffOf(WmaAt(Lift(close), HalfLength(length), i), WmaAt(Lift(close), length, i))
  }

  function DiffSpec(close: seq<real>, length: nat): seq<Num>
    requires length >= 1
  {
    seq(|close|, i requires 0 <= i < |close| => DiffAt(close, length, i))
  }

  function HmaSpec(close: seq<real>, length: nat): seq<Num>
    requires length >= 1
  {
    WmaSpec(DiffSpec(close, length), RootLength(length))
  }

  /** Slot-by-slot `diff` of two equally long lines. */
  function DiffLines(a: seq<Num>, b: seq<Num>): (r: seq<Num>)
    requires |a| == |b|
    ensures |r| == |a|
  {
    seq(|a|, i requires 0 <= i < |a| => DiffOf(a[i], b[i]))
  }

  /** The `diff` loop of the hma compute function. */
  method Diff(wmaL2: seq<Num>, wmaL: seq<Num>) returns (d: seq<Num>)
    requires |wmaL2| == |wmaL|
    ensures d == DiffLines(wmaL2, wmaL)
  {
    var n := |wmaL|;
    var diff := new Num[n];
    for i := 0 to n
      invariant forall j :: 0 <= j < i ==> diff[j] == DiffOf(wmaL2[j], wmaL[j])
    {
      var a := wmaL2[i];
      var b := wmaL[i];
      diff[i] := if a.None? || b.None? then NaN else Some(2.0 * a.value - b.value);
    }
    d := diff[..];
  }

  /** The hma compute function: two wmas, the `diff` loop, and a final wma. */
  method ComputeHma(close: seq<real>, length: nat) returns (hma: seq<Num>, warmup: int)
    requires length >= 2
    ensures hma == HmaSpec(close, length)
    ensures warmup == HmaWarmup(length)
  {
    var half := HalfLength(length);
    var root := RootLength(length);
    var wmaL := Wma(Lift(close), length);
    var wmaL2 := Wma(Lift(close), half);
    var diff := Diff(wmaL2, wmaL);
    assert diff == DiffSpec(close, length);
    hma := Wma(diff, root);
    warmup := (length - 1) + (root - 1);
  }

  /** A wma over finite samples is valid exactly from index length - 1. */
  lemma WmaOfFiniteValidIff(close: seq<real>, length: nat, i: nat)
    requires length >= 1 && i < |close|
    ensures WmaAt(Lift(close), length, i).Some? <==> i + 1 >= length
  {
    WmaValidIff(Lift(close), length, i);
  }

  /** `diff` is valid exactly from index L - 1: the half-length wma is valid earlier. */
  lemma DiffValidIff(close: seq<real>, length: nat, i: nat)
    requires length >= 2 && i < |close|
    ensures DiffAt(close, length, i).Some? <==> i + 1 >= length
  {
    WmaOfFiniteValidIff(close, HalfLength(length), i);
    WmaOfFiniteValidIff(close, length, i);
  }

  /** The first valid hma index is exactly the reported warmup. */
  lemma HmaValidIff(close: seq<real>, length: nat, i: nat)
    requires length >= 2 && i < |close|
    ensures |HmaSpec(close, length)| == |close|
    ensures HmaSpec(close, length)[i].Some? <==> i >= HmaWarmup(length)
  {
    var diff := DiffSpec(close, length);
    var root := RootLength(length);
    WmaValidIff(diff, root, i);
    if i + 1 >= root {
      forall j | i + 1 - root <= j <= i
        ensures diff[j].Some? <==> j + 1 >= length
      {
        DiffValidIff(close, length, j);
      }
      if i >= HmaWarmup(length) {
        assert forall j :: i + 1 - root <= j <= i ==> diff[j].Some?;
      } else {
        assert !diff[i + 1 - root].Some?;
      }
    }
  }

  /** A constant close series gives an hma equal to that constant wherever it is valid. */
  lemma HmaOfConstant(close: seq<real>, length: nat, c: real, i: nat)
    requires length >= 2 && i < |close| && i >= HmaWarmup(length)
    requires forall k :: 0 <= k < |close| ==> close[k] == c
    ensures |HmaSpec(close, length)| == |close|
    ensures HmaSpec(close, length)[i] == Some(c)
  {
    var diff := DiffSpec(close, length);
    var root := RootLength(length);
    forall j | 0 <= j < |close| && j + 1 >= length
      ensures diff[j] == Some(c)
    {
      var a := WmaAt(Lift(close), HalfLength(length), j);
      var b := WmaAt(Lift(close), length, j);
      WmaOfConstant(Lift(close), HalfLength(length), c, j);
      WmaOfConstant(Lift(close), length, c, j);
      assert 2.0 * a.value - b.value == c;
    }
    var w := seq(|close|, k requires 0 <= k < |close| => if k + 1 >= length then diff[k] else Some(c));
    forall k | 0 <= k < |w| ensures w[k] == Some(c) { }
    WmaOfConstant(w, root, c, i);
    assert w[i + 1 - root..i + 1] == diff[i + 1 - root..i + 1];
  }
}
