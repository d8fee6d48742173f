/** Filtering, counting and searching sequences, as the table queries need them. */
module Seqs {

  /** The elements that satisfy `keep`, in their original order. */
  function Filter<T(==)>(s: seq<T>, keep: T -> bool): (r: seq<T>)
    ensures |r| <= |s|
    ensures IsSubsequence(r, s)
    ensures forall i | 0 <= i < |r| :: r[i] in s && keep(r[i])
    ensures forall i | 0 <= i < |s| && keep(s[i]) :: s[i] in r
    decreases |s|
  {
    if |s| == 0 then []
    else if keep(s[0]) then
      var rest := Filter(s[1..], keep);
      assert ([s[0]] + rest)[1..] == rest;
      [s[0]] + rest
    else Filter(s[1..], keep)
  }

  /** `sub` is `s` with some elements left out, the rest kept in order. */
  predicate IsSubsequence<T(==)>(sub: seq<T>, s: seq<T>)
    decreases |s|
  {
    if |sub| == 0 then true
    else if |s| == 0 then false
    else if sub[0] == s[0] && IsSubsequence(sub[1..], s[1..]) then true
    else IsSubsequence(sub, s[1..])
  }

  /** Every element of a subsequence is an element of the sequence. */
  lemma {:induction false} SubsequenceElements<T>(sub: seq<T>, s: seq<T>)
    requires IsSubsequence(sub, s)
    ensures forall x | x in sub :: x in s
    ensures |sub| <= |s|
    decreases |s|
  {
    if |sub| > 0 {
      if sub[0] == s[0] && IsSubsequence(sub[1..], s[1..]) {
        SubsequenceElements(sub[1..], s[1..]);
        forall x | x in sub ensures x in s {
          if x != sub[0] {
            assert x in sub[1..];
          }
        }
      } else {
        SubsequenceElements(sub, s[1..]);
      }
    }
  }

  /** A key that increases strictly along a sequence increases along each of its subsequences. */
  lemma {:induction false} SubsequenceKeepsIncreasing<T>(sub: seq<T>, s: seq<T>, key: T -> int)
    requires IsSubsequence(sub, s)
    requires forall i, j | 0 <= i < j < |s| :: key(s[i]) < key(s[j])
    ensures forall i, j | 0 <= i < j < |sub| :: key(sub[i]) < key(sub[j])
    decreases |s|
  {
    if |sub| > 0 {
      assert forall i, j | 0 <= i < j < |s| - 1 :: s[1..][i] == s[i + 1] && s[1..][j] == s[j + 1];
      if sub[0] == s[0] && IsSubsequence(sub[1..], s[1..]) {
        SubsequenceKeepsIncreasing(sub[1..], s[1..], key);
        SubsequenceElements(sub[1..], s[1..]);
        forall i, j | 0 <= i < j < |sub| ensures key(sub[i]) < key(sub[j]) {
          assert sub[j] == sub[1..][j - 1];
          if i > 0 {
            assert sub[i] == sub[1..][i - 1];
          } else {
            assert sub[j] in sub[1..];
            var k :| 0 <= k < |s[1..]| && s[1..][k] == sub[j];
            assert s[k + 1] == sub[j];
          }
        }
      } else {
        SubsequenceKeepsIncreasing(sub, s[1..], key);
      }
    }
  }

  /** The number of elements that satisfy `p` (`SELECT COUNT(*) ... WHERE`). */
  function CountWhere<T>(s: seq<T>, p: T -> bool): (n: nat)
    ensures n <= |s|
    decreases |s|
  {
    if |s| == 0 then 0 else (if p(s[0]) then 1 else 0) + CountWhere(s[1..], p)
  }

  /** Counting the matches is measuring the filtered sequence. */
  lemma {:induction false} CountIsFilterLength<T>(s: seq<T>, p: T -> bool)
    ensures CountWhere(s, p) == |Filter(s, p)|
    decreases |s|
  {
    if |s| > 0 {
      CountIsFilterLength(s[1..], p);
    }
  }

  /** The count is positive exactly when some element matches. */
  lemma {:induction false} CountPositiveIffSome<T>(s: seq<T>, p: T -> bool)
    ensures CountWhere(s, p) > 0 <==> exists i | 0 <= i < |s| :: p(s[i])
    decreases |s|
  {
    if |s| > 0 {
      CountPositiveIffSome(s[1..], p);
      if exists i | 0 <= i < |s| :: p(s[i]) {
        var i :| 0 <= i < |s| && p(s[i]);
        if i > 0 {
          assert s[1..][i - 1] == s[i];
        }
      }
      if exists i | 0 <= i < |s[1..]| :: p(s[1..][i]) {
        var i :| 0 <= i < |s[1..]| && p(s[1..][i]);
        assert s[i + 1] == s[1..][i];
      }
    }
  }

  /** The index of the first element satisfying `p`, or -1 when there is none. */
  function FirstIndex<T>(s: seq<T>, p: T -> bool): (i: int)
    ensures -1 <= i < |s|
    ensures i >= 0 ==> p(s[i]) && forall j | 0 <= j < i :: !p(s[j])
    ensures i == -1 <==> forall j | 0 <= j < |s| :: !p(s[j])
    decreases |s|
  {
    if |s| == 0 then -1
    else if p(s[0]) then 0
    else
      var k := FirstIndex(s[1..], p);
      assert forall j | 0 <= j < |s| - 1 :: s[1..][j] == s[j + 1];
      if k == -1 then -1 else k + 1
  }

  /**
   * Mapping the filtered elements yields exactly the images of the elements
   * that pass the filter: each result is the image of a kept element, and
   * each kept element's image is a result.
   */
  lemma MapFilterContents<T, U>(s: seq<T>, keep: T -> bool, f: T -> U)
    ensures var r := Map(Filter(s, keep), f);
      && (forall i | 0 <= i < |r| :: exists k | 0 <= k < |s| :: keep(s[k]) && r[i] == f(s[k]))
      && (forall k | 0 <= k < |s| && keep(s[k]) :: f(s[k]) in r)
  {
    var rows := Filter(s, keep);
    var r := Map(rows, f);
    forall i | 0 <= i < |r| ensures exists k | 0 <= k < |s| :: keep(s[k]) && r[i] == f(s[k]) {
      var k :| 0 <= k < |s| && s[k] == rows[i];
    }
    forall k | 0 <= k < |s| && keep(s[k]) ensures f(s[k]) in r {
      var i :| 0 <= i < |rows| && rows[i] == s[k];
      assert r[i] == f(s[k]);
    }
  }

  /** Every element `f` maps, in order. */
  function Map<T, U>(s: seq<T>, f: T -> U): (r: seq<U>)
    ensures |r| == |s|
    ensures forall i | 0 <= i < |s| :: r[i] == f(s[i])
  {
    seq(|s|, i requires 0 <= i < |s| => f(s[i]))
  }

  /**
   * Appending `last` to a sequence that agrees with `f` on a prefix of `s`
   * gives one that agrees with `f` on all of `s`, position by position.
   */
  lemma SnocPointwise<T, U>(init: seq<U>, last: U, s: seq<T>, f: (T, nat) -> U)
    requires |s| == |init| + 1
    requires forall i | 0 <= i < |init| :: init[i] == f(s[i], i)
    requires last == f(s[|init|], |init|)
    ensures forall i | 0 <= i < |s| :: (init + [last])[i] == f(s[i], i)
  {
  }
}
