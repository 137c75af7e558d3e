/** Running a sequence of steps that may throw, in order: the first step
  * that throws ends the run. Used by the request loop of the indicator
  * engine and by the frame loop of the setup agent. */
module Gathering {
  import opened Wrappers

  /** Pushing results in order: all the values, or the first error. */
  function Gather<T, E>(rs: seq<Result<T, E>>): Result<seq<T>, E>
    decreases |rs|
  {
    if |rs| == 0 then Ok([])
    else
      var prev :- Gather(rs[..|rs| - 1]);
      var x :- rs[|rs| - 1];
      Ok(prev + [x])
  }

  /** Result i is the error e and every earlier result succeeded. */
  ghost predicate FailsFirstAt<T, E>(rs: seq<Result<T, E>>, i: int, e: E)
  {
    0 <= i < |rs| && rs[i] == Err(e) && forall j :: 0 <= j < i ==> rs[j].Ok?
  }

  /** A successful gathering holds each result's value, in order. */
  lemma {:induction false} GatherOk<T, E>(rs: seq<Result<T, E>>)
    requires Gather(rs).Ok?
    ensures |Gather(rs).value| == |rs|
    ensures forall i :: 0 <= i < |rs| ==> rs[i] == Ok(Gather(rs).value[i])
    decreases |rs|
  {
    if |rs| > 0 {
      var n := |rs| - 1;
      GatherOk(rs[..n]);
      forall i | 0 <= i < n
        ensures rs[..n][i] == rs[i]
      {
      }
    }
  }

  /** Gathering succeeds exactly when every result does; otherwise it fails with the first error. */
  lemma {:induction false} GatherFirstFailure<T, E>(rs: seq<Result<T, E>>)
    ensures Gather(rs).Ok? <==> forall i :: 0 <= i < |rs| ==> rs[i].Ok?
    ensures Gather(rs).Err? ==> exists i :: FailsFirstAt(rs, i, Gather(rs).error)
    decreases |rs|
  {
    if |rs| > 0 {
      var n := |rs| - 1;
      var prefix := rs[..n];
      GatherFirstFailure(prefix);
      assert forall j :: 0 <= j < n ==> prefix[j] == rs[j];
      if Gather(prefix).Err? {
        var i :| FailsFirstAt(prefix, i, Gather(prefix).error);
        assert FailsFirstAt(rs, i, Gather(rs).error);
      } else if rs[n].Err? {
        assert FailsFirstAt(rs, n, Gather(rs).error);
      }
    }
  }

  /** One more successful result extends a successful gathering by its value. */
  lemma GatherPush<T, E>(rs: seq<Result<T, E>>, i: nat, acc: seq<T>)
    requires i < |rs| && Gather(rs[..i]) == Ok(acc) && rs[i].Ok?
    ensures Gather(rs[..i + 1]) == Ok(acc + [rs[i].value])
  {
    assert rs[..i + 1][..i] == rs[..i];
  }

  /** The first failing result is the error of the whole gathering. */
  lemma GatherStop<T, E>(rs: seq<Result<T, E>>, i: nat)
    requires i < |rs| && Gather(rs[..i]).Ok? && rs[i].Err?
    ensures Gather(rs) == Err(rs[i].error)
  {
    assert rs[..i + 1][..i] == rs[..i];
    GatherErrorSticks(rs, i + 1);
  }

  /** Once a prefix has failed, the whole gathering fails with the same error. */
  lemma {:induction false} GatherErrorSticks<T, E>(rs: seq<Result<T, E>>, k: nat)
    requires k <= |rs| && Gather(rs[..k]).Err?
    ensures Gather(rs) == Gather(rs[..k])
    decreases |rs| - k
  {
    if k < |rs| {
      var n := |rs| - 1;
      assert rs[..n][..k] == rs[..k];
      GatherErrorSticks(rs[..n], k);
    } else {
      assert rs[..k] == rs;
    }
  }
}
