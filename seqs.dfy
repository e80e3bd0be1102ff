/**
 * Facts about taking prefixes of a sequence, stated once for any element
 * type so that the proofs over sequences of strings use them without
 * comparing strings element by element.
 */
module Seqs {
  /** The prefix of length `i + 1` is the prefix of length `i` and element `i`. */
  lemma TakeNext<T>(s: seq<T>, i: nat)
    requires i < |s|
    ensures s[..i + 1] == s[..i] + [s[i]]
    ensures s[..i + 1][..i] == s[..i]
  {
  }

  /** The prefix as long as the sequence is the sequence. */
  lemma TakeAll<T>(s: seq<T>)
    ensures s[..|s|] == s
  {
  }

  /** A prefix of the sequence without its last element is a prefix of the sequence. */
  lemma TakeOfInit<T>(s: seq<T>, i: nat)
    requires i < |s|
    ensures s[..|s| - 1][..i] == s[..i]
  {
  }

  /** The sequence without its last element, followed by that element, is the sequence. */
  lemma InitLast<T>(s: seq<T>)
    requires s != []
    ensures s[..|s| - 1] + [s[|s| - 1]] == s
  {
  }

  /** Appending nothing changes nothing. */
  lemma AppendEmpty<T>(s: seq<T>)
    ensures s + [] == s
  {
  }

  lemma AppendAssoc<T>(a: seq<T>, b: seq<T>, c: seq<T>)
    ensures (a + b) + c == a + (b + c)
  {
  }

  /** An element of either part is an element of the concatenation. */
  lemma InAppend<T>(a: seq<T>, b: seq<T>, x: T)
    requires x in a || x in b
    ensures x in a + b
  {
  }

  /** The pieces that `f` makes of each element, concatenated in order. */
  function FlatMap<T, U>(xs: seq<T>, f: T -> seq<U>): seq<U> {
    if xs == [] then [] else FlatMap(xs[..|xs| - 1], f) + f(xs[|xs| - 1])
  }

  /** Whatever `f` makes of some element is in the concatenation. */
  lemma {:induction false} FlatMapHas<T, U>(xs: seq<T>, f: T -> seq<U>, j: nat, u: U)
    requires j < |xs| && u in f(xs[j])
    ensures u in FlatMap(xs, f)
  {
    var init := xs[..|xs| - 1];
    if j < |xs| - 1 {
      assert init[j] == xs[j];
      FlatMapHas(init, f, j, u);
    }
    InAppend(FlatMap(init, f), f(xs[|xs| - 1]), u);
  }

  /** A slice inside a known prefix is the slice of that prefix. */
  lemma PrefixSlice<T>(a: seq<T>, p: seq<T>, lo: nat, hi: nat)
    requires |p| <= |a| && a[..|p|] == p && lo <= hi <= |p|
    ensures a[lo..hi] == p[lo..hi]
  {
    assert forall k :: lo <= k < hi ==> a[k] == a[..|p|][k];
  }

  /** A prefix of a prefix is a prefix. */
  lemma PrefixOfPrefix<T>(a: seq<T>, p: seq<T>, q: seq<T>)
    requires |p| <= |a| && a[..|p|] == p && |q| <= |p| && p[..|q|] == q
    ensures a[..|q|] == q
  {
    assert forall k :: 0 <= k < |q| ==> a[k] == a[..|p|][k];
  }

  lemma HeadTail<T>(s: seq<T>)
    requires s != []
    ensures [s[0]] + s[1..] == s
  {
  }

  /** A prefix of a suffix is a middle slice. */
  lemma PrefixOfSuffix<T>(s: seq<T>, l: seq<T>, r: seq<T>)
    requires |l| <= |s| && l == s[|s| - |l|..] && |r| <= |l| && r == l[..|r|]
    ensures r == s[|s| - |l|..|s| - |l| + |r|]
  {
  }

  /** An element of a suffix is the element of the whole at the shifted index. */
  lemma SuffixAt<T>(s: seq<T>, l: seq<T>, k: int)
    requires |l| <= |s| && l == s[|s| - |l|..] && |s| - |l| <= k < |s|
    ensures s[k] == l[k - (|s| - |l|)]
  {
  }

  /**
   * A prefix `r` of a suffix `l` of `s` is a middle slice of `s`; when `s`
   * before `l` and `l` after `r` satisfy `P`, so do both ends of `s` around `r`.
   */
  lemma MiddleSlice<T>(s: seq<T>, l: seq<T>, r: seq<T>, P: T -> bool)
    requires |l| <= |s| && l == s[|s| - |l|..] && |r| <= |l| && r == l[..|r|]
    requires forall k :: 0 <= k < |s| - |l| ==> P(s[k])
    requires forall k :: |r| <= k < |l| ==> P(l[k])
    ensures exists i, j ::
      && 0 <= i <= j <= |s| && r == s[i..j]
      && (forall k :: 0 <= k < i ==> P(s[k]))
      && (forall k :: j <= k < |s| ==> P(s[k]))
  {
    var i := |s| - |l|;
    var j := i + |r|;
    PrefixOfSuffix(s, l, r);
    forall k | j <= k < |s| ensures P(s[k]) {
      SuffixAt(s, l, k);
    }
  }
}
