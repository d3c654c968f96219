/**
 * First-match search over a sequence: the common core of TypeScript's
 * `Array.prototype.find` / `Array.prototype.some` and Rust's `Iterator::find`.
 */
module Search {
  import opened Wrappers

  /** The index of the first element satisfying `p`, or `|s|` when there is none. */
  function FirstIndex<T>(s: seq<T>, p: T -> bool): (k: nat)
    ensures k <= |s|
    ensures forall j :: 0 <= j < k ==> !p(s[j])
    ensures k < |s| ==> p(s[k])
  {
    if s == [] then 0
    else if p(s[0]) then 0
    else 1 + FirstIndex(s[1..], p)
  }

  /** `find`: the first element satisfying `p`, if any. */
  function Find<T>(s: seq<T>, p: T -> bool): (r: Option<T>)
    ensures r.Some? ==> p(r.value) && r.value in s
    ensures r.None? <==> forall x :: x in s ==> !p(x)
    ensures r.Some? ==> exists i :: 0 <= i < |s| && s[i] == r.value && forall j :: 0 <= j < i ==> !p(s[j])
  {
    var k := FirstIndex(s, p);
    if k < |s| then Some(s[k]) else None
  }

  /** `some`: whether any element satisfies `p`. */
  function Any<T>(s: seq<T>, p: T -> bool): (b: bool)
    ensures b <==> exists x :: x in s && p(x)
  {
    FirstIndex(s, p) < |s|
  }

  /** Appending an element never changes an earlier match; it can only supply the first one. */
  lemma FindAppend<T>(s: seq<T>, e: T, p: T -> bool)
    ensures Find(s + [e], p) == if Find(s, p).Some? then Find(s, p) else if p(e) then Some(e) else None
  {
    var k := FirstIndex(s, p);
    var t := s + [e];
    var k' := FirstIndex(t, p);
    assert forall j :: 0 <= j < |s| ==> t[j] == s[j];
    if k < |s| {
      assert t[k] == s[k];
      assert k' == k;
    } else {
      assert t[|s|] == e;
      assert k' == |s| || k' == |s| + 1;
    }
  }
}
