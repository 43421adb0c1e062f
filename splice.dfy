/** `Array.prototype.splice(i, 1)` on the sequences that stand for the game's arrays. */
module ArraySplice {

  /** Removes the element at index i when there is one; past the end nothing changes. */
  function Splice<T>(s: seq<T>, i: nat): (r: seq<T>)
    ensures i < |s| ==> |r| == |s| - 1
    ensures i >= |s| ==> r == s
  {
    if i < |s| then s[..i] + s[i + 1..] else s
  }

  /** The elements before i stay where they are; those after it move down by one. */
  lemma SpliceElements<T>(s: seq<T>, i: nat)
    ensures var r := Splice(s, i);
      (forall k :: 0 <= k < i && k < |r| ==> r[k] == s[k]) &&
      (forall k :: i <= k < |r| ==> r[k] == s[k + 1])
  {
  }

  /** `t` is obtained from `s` by deleting elements, keeping the order of the rest. */
  ghost predicate SubsequenceOf<T>(t: seq<T>, s: seq<T>)
    decreases |s|
  {
    if t == [] then true
    else if s == [] then false
    else (t[0] == s[0] && SubsequenceOf(t[1..], s[1..])) || SubsequenceOf(t, s[1..])
  }

  lemma {:induction false} SubsequenceOfSelf<T>(s: seq<T>)
    ensures SubsequenceOf(s, s)
    decreases |s|
  {
    if s != [] {
      SubsequenceOfSelf(s[1..]);
    }
  }

  /** Dropping one element of s leaves a subsequence of s. */
  lemma {:induction false} SpliceKeepsOrder<T>(s: seq<T>, i: nat)
    ensures SubsequenceOf(Splice(s, i), s)
    decreases |s|
  {
    if i >= |s| {
      SubsequenceOfSelf(s);
    } else if i == 0 {
      assert Splice(s, i) == s[1..];
      SubsequenceOfSelf(s[1..]);
    } else {
      SpliceKeepsOrder(s[1..], i - 1);
      assert Splice(s, i)[0] == s[0];
      assert Splice(s, i)[1..] == Splice(s[1..], i - 1);
    }
  }
}
