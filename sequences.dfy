/** The loop shape both engines share: walk a list in order and, per element,
    append a record, skip it (`continue`), or raise (abandoning the whole list). */
module Sequences {
  import opened Wrappers

  /** The result of running `step` on the elements of `s` in order: the first
      failure, or the values of the elements it keeps, in order. */
  function Scan<T, U, E>(s: seq<T>, step: T -> Result<Option<U>, E>): Result<seq<U>, E>
  {
    if s == [] then Success([])
    else
      match Scan(s[..|s| - 1], step)
      case Failure(e) => Failure(e)
      case Success(r) =>
        match step(s[|s| - 1])
        case Failure(e) => Failure(e)
        case Success(None) => Success(r)
        case Success(Some(u)) => Success(r + [u])
  }

  /** `step` neither raises on `x` nor skips it. */
  predicate Keeps<T, U, E>(step: T -> Result<Option<U>, E>, x: T)
  {
    step(x).Success? && step(x).value.Some?
  }

  /** The positions of `s` that `step` keeps, in increasing order. */
  ghost function Kept<T, U, E>(s: seq<T>, step: T -> Result<Option<U>, E>): (ks: seq<nat>)
    ensures forall k :: 0 <= k < |ks| ==> ks[k] < |s| && Keeps(step, s[ks[k]])
    ensures forall k, l :: 0 <= k < l < |ks| ==> ks[k] < ks[l]
    ensures forall j :: 0 <= j < |s| && Keeps(step, s[j]) ==> j in ks
  {
    if s == [] then []
    else Kept(s[..|s| - 1], step) + (if Keeps(step, s[|s| - 1]) then [|s| - 1] else [])
  }

  /** A scan succeeds exactly when `step` raises on no element. */
  lemma {:induction false} ScanSucceeds<T, U, E>(s: seq<T>, step: T -> Result<Option<U>, E>)
    ensures Scan(s, step).Success? <==> forall j :: 0 <= j < |s| ==> step(s[j]).Success?
  {
    if s != [] {
      var init := s[..|s| - 1];
      ScanSucceeds(init, step);
      assert forall j :: 0 <= j < |init| ==> init[j] == s[j];
    }
  }

  /** A failed scan reports the error of the first element `step` raises on. */
  lemma {:induction false} ScanFails<T, U, E>(s: seq<T>, step: T -> Result<Option<U>, E>)
    requires Scan(s, step).Failure?
    ensures exists j :: 0 <= j < |s| && step(s[j]).Failure? && step(s[j]).error == Scan(s, step).error
                        && forall i :: 0 <= i < j ==> step(s[i]).Success?
  {
    var init := s[..|s| - 1];
    assert forall j :: 0 <= j < |init| ==> init[j] == s[j];
    if Scan(init, step).Failure? {
      ScanFails(init, step);
    } else {
      ScanSucceeds(init, step);
      var j := |s| - 1;
      assert step(s[j]).Failure? && step(s[j]).error == Scan(s, step).error;
    }
  }

  /** A successful scan holds exactly the values of the kept elements, in their order:
      nothing is invented and nothing is reordered. */
  lemma {:induction false} ScanKeeps<T, U, E>(s: seq<T>, step: T -> Result<Option<U>, E>)
    requires Scan(s, step).Success?
    ensures var r, ks := Scan(s, step).value, Kept(s, step);
            |r| == |ks| <= |s| &&
            forall k :: 0 <= k < |r| ==> r[k] == step(s[ks[k]]).value.value
  {
    if s != [] {
      var init := s[..|s| - 1];
      assert forall j :: 0 <= j < |init| ==> init[j] == s[j];
      ScanKeeps(init, step);
      var ks0 := Kept(init, step);
      assert forall k :: 0 <= k < |ks0| ==> ks0[k] < |init|;
    }
  }

  /** Once a prefix of the list has raised, the whole scan raises the same error:
      the elements after it are never looked at. */
  lemma {:induction false} ScanFailureStays<T, U, E>(s: seq<T>, i: nat, step: T -> Result<Option<U>, E>)
    requires i <= |s| && Scan(s[..i], step).Failure?
    ensures Scan(s, step) == Scan(s[..i], step)
    decreases |s| - i
  {
    if i < |s| {
      assert s[..i + 1][..i] == s[..i];
      ScanFailureStays(s, i + 1, step);
    } else {
      assert s[..i] == s;
    }
  }
}
