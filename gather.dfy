/** The shape shared by the source's list-building loops: walk a list,
    compute a (possibly failing) list of records per element, and append it
    to the accumulated result; the first exception stops the walk. */
module Gathering {
  import opened Outcome

  /** The records of `xs` in order, or the error of the first element that fails. */
  function Gather<T, U>(xs: seq<T>, f: T -> Result<seq<U>>): Result<seq<U>> {
    if xs == [] then Ok([])
    else
      var init :- Gather(xs[..|xs| - 1], f);
      var last :- f(xs[|xs| - 1]);
      Ok(init + last)
  }

  /** A record-or-error as a list of one record. */
  function One<U>(r: Result<U>): (l: Result<seq<U>>)
    ensures l.Ok? <==> r.Ok?
    ensures l.Ok? ==> l.value == [r.value]
    ensures l.Err? ==> l.error == r.error
  {
    match r
    case Ok(u) => Ok([u])
    case Err(e) => Err(e)
  }

  /** The records of all elements, front to back. */
  function Concat<T, U>(xs: seq<T>, f: T -> Result<seq<U>>): seq<U>
    requires forall i :: 0 <= i < |xs| ==> f(xs[i]).Ok?
  {
    if xs == [] then [] else f(xs[0]).value + Concat(xs[1..], f)
  }

  /** One more step of a loop that has gathered `xs[..i]`. */
  lemma GatherStep<T, U>(xs: seq<T>, i: nat, f: T -> Result<seq<U>>)
    requires i < |xs|
    ensures Gather(xs[..i + 1], f) ==
              if Gather(xs[..i], f).Err? then Gather(xs[..i], f)
              else if f(xs[i]).Err? then Err(f(xs[i]).error)
              else Ok(Gather(xs[..i], f).value + f(xs[i]).value)
  {
    assert xs[..i + 1][..i] == xs[..i];
  }

  /** Once a prefix has failed, the whole walk fails with that error. */
  lemma {:induction false} GatherErrSticky<T, U>(xs: seq<T>, i: nat, f: T -> Result<seq<U>>)
    requires i <= |xs| && Gather(xs[..i], f).Err?
    ensures Gather(xs, f) == Gather(xs[..i], f)
  {
    if i == |xs| {
      assert xs[..i] == xs;
    } else {
      var init := xs[..|xs| - 1];
      assert init[..i] == xs[..i];
      GatherErrSticky(init, i, f);
    }
  }

  /** The walk succeeds exactly when every element succeeds. */
  lemma {:induction false} GatherOk<T, U>(xs: seq<T>, f: T -> Result<seq<U>>)
    ensures Gather(xs, f).Ok? <==> forall i :: 0 <= i < |xs| ==> f(xs[i]).Ok?
  {
    if xs != [] {
      var init := xs[..|xs| - 1];
      GatherOk(init, f);
      assert forall i :: 0 <= i < |init| ==> init[i] == xs[i];
    }
  }

  lemma {:induction false} ConcatSnoc<T, U>(xs: seq<T>, x: T, f: T -> Result<seq<U>>)
    requires forall i :: 0 <= i < |xs| ==> f(xs[i]).Ok?
    requires f(x).Ok?
    ensures forall i :: 0 <= i < |xs + [x]| ==> f((xs + [x])[i]).Ok?
    ensures Concat(xs + [x], f) == Concat(xs, f) + f(x).value
  {
    assert forall i :: 0 <= i < |xs + [x]| ==> (xs + [x])[i] == if i < |xs| then xs[i] else x;
    if xs != [] {
      assert (xs + [x])[1..] == xs[1..] + [x];
      ConcatSnoc(xs[1..], x, f);
    }
  }

  /** A walk that succeeds yields the records of every element, concatenated in list order. */
  lemma {:induction false} GatherValue<T, U>(xs: seq<T>, f: T -> Result<seq<U>>)
    requires forall i :: 0 <= i < |xs| ==> f(xs[i]).Ok?
    ensures Gather(xs, f) == Ok(Concat(xs, f))
  {
    if xs != [] {
      var init := xs[..|xs| - 1];
      assert forall i :: 0 <= i < |init| ==> init[i] == xs[i];
      GatherValue(init, f);
      ConcatSnoc(init, xs[|xs| - 1], f);
      assert init + [xs[|xs| - 1]] == xs;
    }
  }

  /** A walk that fails reports the error of the first element that fails. */
  lemma {:induction false} GatherFirstError<T, U>(xs: seq<T>, f: T -> Result<seq<U>>)
    requires Gather(xs, f).Err?
    ensures exists i :: 0 <= i < |xs| && f(xs[i]) == Err(Gather(xs, f).error) &&
                        forall j :: 0 <= j < i ==> f(xs[j]).Ok?
  {
    var init := xs[..|xs| - 1];
    assert forall i :: 0 <= i < |init| ==> init[i] == xs[i];
    if Gather(init, f).Err? {
      GatherFirstError(init, f);
    } else {
      GatherOk(init, f);
    }
  }

  /** When every element yields one record, the walk yields one record per
      element, in order. */
  lemma {:induction false} GatherOnePerElement<T, U>(xs: seq<T>, g: T -> Result<U>, f: T -> Result<seq<U>>)
    requires forall x :: f(x) == One(g(x))
    requires Gather(xs, f).Ok?
    ensures |Gather(xs, f).value| == |xs|
    ensures forall i :: 0 <= i < |xs| ==> g(xs[i]).Ok? && Gather(xs, f).value[i] == g(xs[i]).value
  {
    if xs != [] {
      var init := xs[..|xs| - 1];
      assert forall i :: 0 <= i < |init| ==> init[i] == xs[i];
      GatherOnePerElement(init, g, f);
    }
  }
}
