/**
 * Sequence operations with the meaning of JavaScript's array methods:
 * `filter` with a value predicate, `filter` by position, and counting.
 */
module Seqs {

  /** `s.filter(p)`: the elements of `s` that satisfy `p`, in their original order. */
  function Filter<T(!new)>(p: T -> bool, s: seq<T>): (r: seq<T>)
    ensures |r| <= |s|
    ensures forall x :: x in r <==> x in s && p(x)
  {
    if s == [] then []
    else
      assert s == [s[0]] + s[1..];
      (if p(s[0]) then [s[0]] else []) + Filter(p, s[1..])
  }

  /** How many elements of `s` satisfy `p`. */
  function Count<T(!new)>(p: T -> bool, s: seq<T>): (n: nat)
    ensures n <= |s|
    ensures n == 0 <==> forall x :: x in s ==> !p(x)
  {
    if s == [] then 0
    else
      assert s == [s[0]] + s[1..];
      (if p(s[0]) then 1 else 0) + Count(p, s[1..])
  }

  /** Filtering distributes over concatenation: the kept elements stay in their order. */
  lemma {:induction false} FilterConcat<T(!new)>(p: T -> bool, a: seq<T>, b: seq<T>)
    ensures Filter(p, a + b) == Filter(p, a) + Filter(p, b)
  {
    if a == [] {
      assert a + b == b;
    } else {
      assert (a + b)[0] == a[0];
      assert (a + b)[1..] == a[1..] + b;
      FilterConcat(p, a[1..], b);
    }
  }

  /** Filtering keeps a sequence whose every element passes. */
  lemma {:induction false} FilterKeepsAll<T(!new)>(p: T -> bool, s: seq<T>)
    requires forall x :: x in s ==> p(x)
    ensures Filter(p, s) == s
  {
    if s != [] {
      assert s == [s[0]] + s[1..];
      FilterKeepsAll(p, s[1..]);
    }
  }

  /** Filtering empties a sequence whose every element fails. */
  lemma {:induction false} FilterKeepsNone<T(!new)>(p: T -> bool, s: seq<T>)
    requires forall x :: x in s ==> !p(x)
    ensures Filter(p, s) == []
  {
    if s != [] {
      assert s[0] in s;
      FilterKeepsNone(p, s[1..]);
    }
  }

  /**
   * When `q` is the negation of `p`, what `Filter(p, s)` keeps and what `Count(q, s)`
   * counts make up all of `s`.
   */
  lemma {:induction false} FilterLengthComplement<T(!new)>(p: T -> bool, q: T -> bool, s: seq<T>)
    requires forall x :: q(x) == !p(x)
    ensures |Filter(p, s)| + Count(q, s) == |s|
  {
    if s != [] {
      FilterLengthComplement(p, q, s[1..]);
    }
  }

  /**
   * `s.filter((_, i) => i !== k)`: `s` without position `k`; an index outside `s`
   * removes nothing.
   */
  function DropIndex<T>(s: seq<T>, k: int): (r: seq<T>)
    ensures r == if 0 <= k < |s| then s[..k] + s[k + 1..] else s
  {
    if s == [] then []
    else
      var rest := DropIndex(s[1..], k - 1);
      if k == 0 then rest
      else
        assert s == [s[0]] + s[1..];
        assert 0 < k < |s| ==> s[..k] == [s[0]] + s[1..][..k - 1] && s[k + 1..] == s[1..][k..];
        [s[0]] + rest
  }
}
