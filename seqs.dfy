/**
 * Order-preserving filtering of a sequence: the model of Rust's
 * `iter().filter(..).cloned().collect()` and of a loop that skips some items.
 */
module Seqs {

  /** The elements of `s` that satisfy `keep`, in their order in `s`. */
  function Filter<T>(s: seq<T>, keep: T -> bool): (r: seq<T>)
    ensures |r| <= |s|
    ensures forall i | 0 <= i < |r| :: r[i] in s && keep(r[i])
    ensures forall i | 0 <= i < |s| && keep(s[i]) :: s[i] in r
  {
    if s == [] then []
    else
      var r := Filter(s[..|s| - 1], keep);
      assert forall i | 0 <= i < |s| - 1 :: s[..|s| - 1][i] == s[i];
      if keep(s[|s| - 1]) then r + [s[|s| - 1]] else r
  }

  /** Filtering commutes with concatenation, so the relative order of the kept elements is that of `s`. */
  lemma {:induction false} FilterAppend<T>(a: seq<T>, b: seq<T>, keep: T -> bool)
    ensures Filter(a + b, keep) == Filter(a, keep) + Filter(b, keep)
    decreases |b|
  {
    if b != [] {
      var b' := b[..|b| - 1];
      assert (a + b)[..|a + b| - 1] == a + b';
      FilterAppend(a, b', keep);
    } else {
      assert a + b == a;
    }
  }

  /** Filtering keeps nothing exactly when no element is to be kept. */
  lemma FilterEmptyIff<T>(s: seq<T>, keep: T -> bool)
    ensures Filter(s, keep) == [] <==> forall i | 0 <= i < |s| :: !keep(s[i])
  {
    if Filter(s, keep) != [] {
      var x := Filter(s, keep)[0];
      assert x in Filter(s, keep);
    }
  }

  /** Filtering a sequence every element of which is kept returns it unchanged. */
  lemma {:induction false} FilterAllKept<T>(s: seq<T>, keep: T -> bool)
    requires forall i | 0 <= i < |s| :: keep(s[i])
    ensures Filter(s, keep) == s
    decreases |s|
  {
    if s != [] {
      FilterAllKept(s[..|s| - 1], keep);
      assert s[..|s| - 1] + [s[|s| - 1]] == s;
    }
  }
}
