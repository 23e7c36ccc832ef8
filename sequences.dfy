/** Facts about sequences used by the star pickup: `splice(k, 1)` and
    "is an order-preserving subsequence of". */
module Sequences {

  /** `splice(k, 1)`: drop the element at index k, the others keep their order. */
  function RemoveAt<T>(s: seq<T>, k: nat): (r: seq<T>)
    requires k < |s|
    ensures |r| == |s| - 1
    ensures forall j :: 0 <= j < k ==> r[j] == s[j]
    ensures forall j :: k <= j < |r| ==> r[j] == s[j + 1]
    ensures multiset(r) + multiset{s[k]} == multiset(s)
  {
    assert s == s[..k] + [s[k]] + s[k + 1..];
    s[..k] + s[k + 1..]
  }

  /** `idx` picks, in increasing order, the positions of `b` that make up `a`. */
  ghost predicate EmbedsVia<T>(a: seq<T>, b: seq<T>, idx: seq<nat>)
  {
    |idx| == |a| &&
    (forall i :: 0 <= i < |a| ==> idx[i] < |b| && a[i] == b[idx[i]]) &&
    (forall i, j :: 0 <= i < j < |a| ==> idx[i] < idx[j])
  }

  /** `a` is `b` with some elements deleted, the rest in their original order. */
  ghost predicate Embeds<T>(a: seq<T>, b: seq<T>)
  {
    exists idx :: EmbedsVia(a, b, idx)
  }

  lemma EmbedsReflexive<T>(a: seq<T>)
    ensures Embeds(a, a)
  {
    var idx: seq<nat> := seq(|a|, i => i);
    assert EmbedsVia(a, a, idx);
  }

  lemma EmbedsTransitive<T>(a: seq<T>, b: seq<T>, c: seq<T>)
    requires Embeds(a, b) && Embeds(b, c)
    ensures Embeds(a, c)
  {
    var ab :| EmbedsVia(a, b, ab);
    var bc :| EmbedsVia(b, c, bc);
    var ac: seq<nat> := seq(|a|, i requires 0 <= i < |a| => bc[ab[i]]);
    assert EmbedsVia(a, c, ac);
  }

  /** Removing one element leaves a subsequence of the original. */
  lemma RemoveAtEmbeds<T>(s: seq<T>, k: nat)
    requires k < |s|
    ensures Embeds(RemoveAt(s, k), s)
  {
    var r := RemoveAt(s, k);
    var idx: seq<nat> := seq(|r|, i => if i < k then i else i + 1);
    assert EmbedsVia(r, s, idx);
  }
}
