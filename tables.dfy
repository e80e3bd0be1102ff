/**
 * Maps filled by a loop that stores one (key, value) pair after another, as
 * `m[k] = v` does in Go: a later pair overwrites an earlier one with the same
 * key, and no entry is ever removed.
 */
module Tables {
  import opened Wrappers

  /** The map that storing `pairs` in order into an empty map produces. */
  function TableOf<K, V>(pairs: seq<(K, V)>): (m: map<K, V>)
    ensures m.Keys == set i | 0 <= i < |pairs| :: pairs[i].0
  {
    if pairs == [] then map[]
    else
      var init := pairs[..|pairs| - 1];
      var last := pairs[|pairs| - 1];
      assert forall i :: 0 <= i < |init| ==> init[i] == pairs[i];
      TableOf(init)[last.0 := last.1]
  }

  /** Storing one more pair overwrites its key. */
  lemma TableOfSnoc<K, V>(pairs: seq<(K, V)>, p: (K, V))
    ensures TableOf(pairs + [p]) == TableOf(pairs)[p.0 := p.1]
  {
    assert (pairs + [p])[..|pairs|] == pairs;
  }

  /** The value stored under a key is the one of the last pair with that key. */
  lemma {:induction false} TableOfLastWins<K, V>(pairs: seq<(K, V)>, i: nat)
    requires i < |pairs|
    requires forall j :: i < j < |pairs| ==> pairs[j].0 != pairs[i].0
    ensures pairs[i].0 in TableOf(pairs)
    ensures TableOf(pairs)[pairs[i].0] == pairs[i].1
  {
    var init := pairs[..|pairs| - 1];
    if i < |pairs| - 1 {
      assert forall j :: i < j < |init| ==> init[j] == pairs[j];
      TableOfLastWins(init, i);
    }
  }

  /**
   * The pairs that a loop over `xs` stores, when it stores `entry(x)` for
   * every `x` that has one and skips the others.
   */
  function EntriesOf<T, K, V>(xs: seq<T>, entry: T -> Option<(K, V)>): seq<(K, V)>
  {
    if xs == [] then []
    else
      var e := entry(xs[|xs| - 1]);
      EntriesOf(xs[..|xs| - 1], entry) + (if e.Some? then [e.value] else [])
  }

  /** One more element stores its entry, if it has one, over the table so far. */
  lemma EntriesOfSnoc<T, K, V>(xs: seq<T>, entry: T -> Option<(K, V)>, x: T)
    ensures var before := TableOf(EntriesOf(xs, entry));
      TableOf(EntriesOf(xs + [x], entry)) ==
        if entry(x).Some? then before[entry(x).value.0 := entry(x).value.1] else before
  {
    assert (xs + [x])[..|xs|] == xs;
    if entry(x).Some? {
      TableOfSnoc(EntriesOf(xs, entry), entry(x).value);
    } else {
      assert EntriesOf(xs + [x], entry) == EntriesOf(xs, entry) + [];
      assert EntriesOf(xs, entry) + [] == EntriesOf(xs, entry);
    }
  }

  /** A key is stored exactly when some element has an entry with that key. */
  lemma {:induction false} EntriesOfKeys<T, K, V>(xs: seq<T>, entry: T -> Option<(K, V)>, key: K)
    ensures key in TableOf(EntriesOf(xs, entry)) <==>
      exists j :: 0 <= j < |xs| && entry(xs[j]).Some? && entry(xs[j]).value.0 == key
  {
    if xs != [] {
      var init := xs[..|xs| - 1];
      var x := xs[|xs| - 1];
      var e := entry(x);
      EntriesOfKeys(init, entry, key);
      assert xs == init + [x];
      HasKeySnoc(init, x, entry, key);
      if e.Some? {
        TableOfSnoc(EntriesOf(init, entry), e.value);
      } else {
        assert EntriesOf(xs, entry) == EntriesOf(init, entry) + [];
        assert EntriesOf(init, entry) + [] == EntriesOf(init, entry);
      }
    }
  }

  /** Some element of `xs + [x]` has an entry for `key` exactly when some element of `xs` has, or `x` has. */
  lemma HasKeySnoc<T, K, V>(xs: seq<T>, x: T, entry: T -> Option<(K, V)>, key: K)
    ensures var ys := xs + [x];
      (exists j :: 0 <= j < |ys| && entry(ys[j]).Some? && entry(ys[j]).value.0 == key) <==>
      (exists j :: 0 <= j < |xs| && entry(xs[j]).Some? && entry(xs[j]).value.0 == key)
        || (entry(x).Some? && entry(x).value.0 == key)
  {
    var ys := xs + [x];
    if exists j :: 0 <= j < |ys| && entry(ys[j]).Some? && entry(ys[j]).value.0 == key {
      var j :| 0 <= j < |ys| && entry(ys[j]).Some? && entry(ys[j]).value.0 == key;
      if j < |xs| {
        assert ys[j] == xs[j];
      }
    }
    if exists j :: 0 <= j < |xs| && entry(xs[j]).Some? && entry(xs[j]).value.0 == key {
      var j :| 0 <= j < |xs| && entry(xs[j]).Some? && entry(xs[j]).value.0 == key;
      assert ys[j] == xs[j];
    }
    assert ys[|xs|] == x;
  }

  /** The value stored under a key is the one of the last element with an entry for that key. */
  lemma {:induction false} EntriesOfLastWins<T, K, V>(xs: seq<T>, entry: T -> Option<(K, V)>, j: nat)
    requires j < |xs| && entry(xs[j]).Some?
    requires forall k :: j < k < |xs| && entry(xs[k]).Some? ==> entry(xs[k]).value.0 != entry(xs[j]).value.0
    ensures entry(xs[j]).value.0 in TableOf(EntriesOf(xs, entry))
    ensures TableOf(EntriesOf(xs, entry))[entry(xs[j]).value.0] == entry(xs[j]).value.1
  {
    var init := xs[..|xs| - 1];
    var e := entry(xs[|xs| - 1]);
    var key := entry(xs[j]).value.0;
    var before := TableOf(EntriesOf(init, entry));
    if e.Some? {
      TableOfSnoc(EntriesOf(init, entry), e.value);
      assert TableOf(EntriesOf(xs, entry)) == before[e.value.0 := e.value.1];
    } else {
      assert EntriesOf(xs, entry) == EntriesOf(init, entry) + [];
      assert EntriesOf(init, entry) + [] == EntriesOf(init, entry);
    }
    if j < |xs| - 1 {
      assert init[j] == xs[j];
      forall k | j < k < |init| && entry(init[k]).Some?
        ensures entry(init[k]).value.0 != entry(init[j]).value.0
      {
        assert init[k] == xs[k];
      }
      EntriesOfLastWins(init, entry, j);
      assert key in before && before[key] == entry(xs[j]).value.1;
      if e.Some? {
        assert e.value.0 != key;
      }
    }
  }
}
