/** Optional values and the "try each strategy in order, first hit wins" combinator
    that the fallback chains of the dividend service are built from. */
module Wrappers {

  datatype Option<+T> = None | Some(value: T)

  /** The first present value of an ordered list of strategy outcomes, or None when
      every strategy came back empty. */
  function FirstSome<T>(outcomes: seq<Option<T>>): (r: Option<T>)
    ensures r.Some? ==> exists i :: 0 <= i < |outcomes| && outcomes[i] == r &&
                          forall j :: 0 <= j < i ==> outcomes[j].None?
    ensures r.None? <==> forall i :: 0 <= i < |outcomes| ==> outcomes[i].None?
  {
    if outcomes == [] then None
    else if outcomes[0].Some? then outcomes[0]
    else
      var rest := FirstSome(outcomes[1..]);
      assert forall i :: 1 <= i < |outcomes| ==> outcomes[i] == outcomes[1..][i - 1];
      rest
  }

  /** Trying the strategies from index k on: the outcome at k if present, otherwise
      the strategies after it. */
  lemma FirstSomeFrom<T>(outcomes: seq<Option<T>>, k: nat)
    requires k < |outcomes|
    ensures FirstSome(outcomes[k..]) ==
      if outcomes[k].Some? then outcomes[k] else FirstSome(outcomes[k + 1..])
  {
    assert outcomes[k..][0] == outcomes[k];
    assert outcomes[k..][1..] == outcomes[k + 1..];
  }

  /** Trying two lists of strategies in turn is trying their concatenation. */
  lemma {:induction false} FirstSomeConcat<T>(a: seq<Option<T>>, b: seq<Option<T>>)
    ensures FirstSome(a + b) == if FirstSome(a).Some? then FirstSome(a) else FirstSome(b)
  {
    if a == [] {
      assert a + b == b;
    } else {
      assert (a + b)[0] == a[0] && (a + b)[1..] == a[1..] + b;
      FirstSomeConcat(a[1..], b);
    }
  }

  /** Once every earlier outcome is empty, the outcome at index i is the answer. */
  lemma FirstSomeAt<T>(outcomes: seq<Option<T>>, i: nat)
    requires i < |outcomes| && outcomes[i].Some?
    requires forall j :: 0 <= j < i ==> outcomes[j].None?
    ensures FirstSome(outcomes) == outcomes[i]
  {
  }
}
