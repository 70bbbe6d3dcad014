// String-list helpers of common/common.go that every metadata write goes through.
module Finalizers {
  const FINALIZER := "storage-foundation.deckhouse.io/storage-manager-controller"

  /** The list a finalizer removal leaves behind: every entry but `str`, in order. */
  function Without(slice: seq<string>, str: string): (r: seq<string>)
    ensures str !in r
    ensures forall x :: x in r <==> x in slice && x != str
    ensures str !in slice ==> r == slice
    ensures |r| <= |slice|
  {
    if slice == [] then []
    else if slice[0] == str then Without(slice[1..], str)
    else [slice[0]] + Without(slice[1..], str)
  }

  lemma {:induction false} WithoutAppend(a: seq<string>, b: seq<string>, str: string)
    ensures Without(a + b, str) == Without(a, str) + Without(b, str)
  {
    if a == [] {
      assert a + b == b;
    } else {
      assert (a + b)[1..] == a[1..] + b;
      WithoutAppend(a[1..], b, str);
    }
  }

  method ContainsString(slice: seq<string>, str: string) returns (found: bool)
    ensures found <==> str in slice
  {
    for i := 0 to |slice|
      invariant str !in slice[..i]
    {
      if slice[i] == str {
        return true;
      }
    }
    assert slice[..|slice|] == slice;
    return false;
  }

  method RemoveString(slice: seq<string>, str: string) returns (result: seq<string>)
    ensures result == Without(slice, str)
  {
    result := [];
    for i := 0 to |slice|
      invariant result == Without(slice[..i], str)
    {
      assert slice[..i + 1] == slice[..i] + [slice[i]];
      WithoutAppend(slice[..i], [slice[i]], str);
      if slice[i] != str {
        result := result + [slice[i]];
      }
    }
    assert slice[..|slice|] == slice;
  }

  /** The finalizer list after the controller's single-finalizer intent is applied to a live list. */
  function Reconciled(live: seq<string>, finalizer: string, want: bool): (r: seq<string>)
    ensures finalizer in r <==> want
    ensures Without(r, finalizer) == Without(live, finalizer)
  {
    if want && finalizer !in live then
      WithoutAppend(live, [finalizer], finalizer);
      live + [finalizer]
    else if !want && finalizer in live then Without(live, finalizer)
    else live
  }

  method ReconcileFinalizer(live: seq<string>, finalizer: string, want: bool) returns (r: seq<string>)
    ensures r == Reconciled(live, finalizer, want)
  {
    var has := ContainsString(live, finalizer);
    if want && !has {
      r := live + [finalizer];
    } else if !want && has {
      r := RemoveString(live, finalizer);
    } else {
      r := live;
    }
  }
}
