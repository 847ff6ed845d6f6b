/** Two sequence patterns the client's loops follow. */
module Seqs {
  import opened Wrappers

  /** The index of the first element satisfying `p` (a `for` loop that exits
      at its first hit). */
  function FirstIndex<T>(s: seq<T>, p: T -> bool): (r: Option<nat>)
    ensures r.Some? ==> r.value < |s| && p(s[r.value])
    ensures r.Some? ==> forall j :: 0 <= j < r.value ==> !p(s[j])
    ensures r.None? <==> forall j :: 0 <= j < |s| ==> !p(s[j])
  {
    if |s| == 0 then None
    else if p(s[0]) then Some(0)
    else match FirstIndex(s[1..], p)
      case None => None
      case Some(k) => Some(k + 1)
  }

  /** A first hit found by a scan is the one `FirstIndex` names. */
  lemma FirstIndexUnique<T>(s: seq<T>, p: T -> bool, i: nat)
    requires i < |s| && p(s[i])
    requires forall j :: 0 <= j < i ==> !p(s[j])
    ensures FirstIndex(s, p) == Some(i)
  {
  }

  /** Applying a partial conversion `f` to every element, failing as a whole
      when one element fails (a loop that appends and raises on a bad item). */
  function MapAll<A, B>(s: seq<A>, f: A -> Option<B>): (r: Option<seq<B>>)
    ensures r.Some? <==> forall i :: 0 <= i < |s| ==> f(s[i]).Some?
    ensures r.Some? ==> |r.value| == |s| && forall i :: 0 <= i < |s| ==> f(s[i]) == Some(r.value[i])
  {
    if |s| == 0 then Some([])
    else match MapAll(s[..|s| - 1], f)
      case None => None
      case Some(prefix) =>
        match f(s[|s| - 1])
        case None => None
        case Some(b) => Some(prefix + [b])
  }

  /** Appending two logs in turn is appending their concatenation. */
  lemma AppendTwice<T>(a: seq<T>, b: seq<T>, c: seq<T>)
    ensures a + b + c == a + (b + c)
  {
  }
}
