/** Optional values: a missing dictionary key, a missing HTML element, a
    JSON `null`, or a call that raised where the caller only needs to know
    that it failed. */
module Wrappers {

  datatype Option<+T> = None | Some(value: T) {

    /** The wrapped value, or `default` when there is none. */
    function GetOr(default: T): T
    {
      match this
      case Some(v) => v
      case None => default
    }
  }

  /** The outcome of a call into code outside the model (an HTTP request, a
      JSON decode): either its value or the text of the exception it raised. */
  datatype Fetched<+T> = Got(value: T) | Raised(message: string)

  /** The values of `xs` when every one of them is present: a loop that
      builds a list item by item and gives up at the first item that raised. */
  function AllSome<T>(xs: seq<Option<T>>): Option<seq<T>>
    decreases |xs|
  {
    if xs == [] then Some([])
    else
      var n := |xs| - 1;
      var before := AllSome(xs[..n]);
      if before.None? || xs[n].None? then None else Some(before.value + [xs[n].value])
  }

  /** The list is missing exactly when one item is, and otherwise holds
      every item's value in order. */
  lemma {:induction false} AllSomeSpec<T>(xs: seq<Option<T>>)
    ensures AllSome(xs).None? <==> exists i :: 0 <= i < |xs| && xs[i].None?
    ensures AllSome(xs).Some? ==>
      |AllSome(xs).value| == |xs| && forall i :: 0 <= i < |xs| ==> AllSome(xs).value[i] == xs[i].value
    decreases |xs|
  {
    if xs != [] {
      var n := |xs| - 1;
      AllSomeSpec(xs[..n]);
      if AllSome(xs[..n]).None? {
        var i :| 0 <= i < n && xs[..n][i].None?;
        assert xs[i].None?;
      } else if xs[n].Some? {
        forall i | 0 <= i < n
          ensures xs[i].Some?
        {
          assert xs[..n][i] == xs[i];
        }
      }
    }
  }

  /** One more step of the loop `AllSome` describes. */
  lemma AllSomeStep<T>(xs: seq<Option<T>>, i: nat)
    requires i < |xs|
    ensures AllSome(xs[..i + 1]) ==
      if AllSome(xs[..i]).None? || xs[i].None? then None else Some(AllSome(xs[..i]).value + [xs[i].value])
  {
    assert xs[..i + 1][..i] == xs[..i];
  }
}
