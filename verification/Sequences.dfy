/** Order-preserving selection from a sequence. */
module Sequences {

  /** `at` lists, in increasing order, positions of `b` that spell out `a`. */
  ghost predicate Spells<T>(at: seq<nat>, a: seq<T>, b: seq<T>) {
    && |at| == |a|
    && (forall i :: 0 <= i < |at| ==> at[i] < |b| && a[i] == b[at[i]])
    && (forall i, j :: 0 <= i < j < |at| ==> at[i] < at[j])
  }

  /** `a` can be obtained from `b` by deleting elements. */
  ghost predicate IsSubsequence<T>(a: seq<T>, b: seq<T>) {
    exists at: seq<nat> :: Spells(at, a, b)
  }

  lemma EmptyIsSubsequence<T>(b: seq<T>)
    ensures IsSubsequence([], b)
  {
    assert Spells([], [], b);
  }

  lemma ExtendBoth<T>(a: seq<T>, b: seq<T>, x: T)
    requires IsSubsequence(a, b)
    ensures IsSubsequence(a + [x], b + [x])
  {
    var at: seq<nat> :| Spells(at, a, b);
    assert Spells(at + [|b|], a + [x], b + [x]);
  }

  lemma ExtendRight<T>(a: seq<T>, b: seq<T>, c: seq<T>)
    requires IsSubsequence(a, b)
    ensures IsSubsequence(a, b + c)
  {
    var at: seq<nat> :| Spells(at, a, b);
    assert Spells(at, a, b + c);
  }

  lemma PrefixIsSubsequence<T>(a: seq<T>, c: seq<T>)
    ensures IsSubsequence(a, a + c)
  {
    assert Spells(seq(|a|, (i: nat) => i), a, a + c);
  }

  lemma Transitive<T>(a: seq<T>, b: seq<T>, c: seq<T>)
    requires IsSubsequence(a, b) && IsSubsequence(b, c)
    ensures IsSubsequence(a, c)
  {
    var at: seq<nat> :| Spells(at, a, b);
    var bt: seq<nat> :| Spells(bt, b, c);
    var ct: seq<nat> := seq(|at|, i requires 0 <= i < |at| => bt[at[i]]);
    assert Spells(ct, a, c);
  }
}
