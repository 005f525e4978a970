/**
 * The document collection both services talk to, seen as a sequence of
 * records in the store's natural order. A filtered Find returns the matching
 * records in that order; UpdateOne and DeleteOne act on the first match.
 */
module Collection {

  datatype Option<T> = None | Some(value: T)

  /** The position of the first record satisfying p, if any. */
  function FirstMatch<T>(s: seq<T>, p: T -> bool): (r: Option<nat>)
    ensures r.Some? ==> r.value < |s| && p(s[r.value])
    ensures r.Some? ==> forall j :: 0 <= j < r.value ==> !p(s[j])
    ensures r.None? <==> forall j :: 0 <= j < |s| ==> !p(s[j])
  {
    if |s| == 0 then None
    else if p(s[0]) then Some(0)
    else match FirstMatch(s[1..], p)
      case None => None
      case Some(k) => Some(k + 1)
  }

  /** a can be obtained from b by dropping elements, keeping the order of the rest. */
  ghost predicate IsSubsequence<T>(a: seq<T>, b: seq<T>)
    decreases |b|
  {
    if |a| == 0 then true
    else if |b| == 0 then false
    else (a[0] == b[0] && IsSubsequence(a[1..], b[1..])) || IsSubsequence(a, b[1..])
  }

  /** The records a filtered Find returns: those satisfying p, in store order. */
  function Filter<T(!new)>(s: seq<T>, p: T -> bool): (r: seq<T>)
    ensures IsSubsequence(r, s)
    ensures forall x :: multiset(r)[x] == if p(x) then multiset(s)[x] else 0
    ensures forall x :: x in r <==> x in s && p(x)
  {
    if |s| == 0 then []
    else
      var rest := Filter(s[1..], p);
      assert s == [s[0]] + s[1..];
      if p(s[0]) then [s[0]] + rest else rest
  }

  /** UpdateOne: apply f to the first record satisfying p; every other record stays. */
  function UpdateFirst<T>(s: seq<T>, p: T -> bool, f: T -> T): (r: seq<T>)
    ensures |r| == |s|
    ensures match FirstMatch(s, p)
      case None => r == s
      case Some(k) => r == s[k := f(s[k])]
  {
    if |s| == 0 then []
    else if p(s[0]) then [f(s[0])] + s[1..]
    else [s[0]] + UpdateFirst(s[1..], p, f)
  }

  /** DeleteOne: drop the first record satisfying p; the rest keep their order. */
  function DeleteFirst<T>(s: seq<T>, p: T -> bool): (r: seq<T>)
    ensures match FirstMatch(s, p)
      case None => r == s
      case Some(k) => r == s[..k] + s[k + 1..]
  {
    if |s| == 0 then []
    else if p(s[0]) then s[1..]
    else [s[0]] + DeleteFirst(s[1..], p)
  }

  /** UpdateFirst changes at most one record, and never one that does not match. */
  lemma UpdateFirstTouchesOnlyFirstMatch<T>(s: seq<T>, p: T -> bool, f: T -> T)
    ensures forall i :: 0 <= i < |s| && !p(s[i]) ==> UpdateFirst(s, p, f)[i] == s[i]
    ensures forall i, j :: 0 <= i < j < |s| && UpdateFirst(s, p, f)[i] != s[i] ==> UpdateFirst(s, p, f)[j] == s[j]
  {
  }

  /**
   * DeleteFirst removes exactly one record when something matches and none
   * otherwise; the survivors are an order-preserving subsequence, and every
   * record that does not match survives with its multiplicity.
   */
  lemma {:induction false} DeleteFirstKeepsOthers<T>(s: seq<T>, p: T -> bool)
    ensures |DeleteFirst(s, p)| == if FirstMatch(s, p).Some? then |s| - 1 else |s|
    ensures IsSubsequence(DeleteFirst(s, p), s)
    ensures forall x :: !p(x) ==> multiset(DeleteFirst(s, p))[x] == multiset(s)[x]
  {
    if |s| > 0 {
      assert s == [s[0]] + s[1..];
      DeleteFirstKeepsOthers(s[1..], p);
      if p(s[0]) {
        SubsequenceReflexive(s[1..]);
      }
    }
  }

  lemma {:induction false} SubsequenceReflexive<T>(a: seq<T>)
    ensures IsSubsequence(a, a)
    decreases |a|
  {
    if |a| > 0 {
      SubsequenceReflexive(a[1..]);
    }
  }
}
