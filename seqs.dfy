/**
 * Generic helpers over sequences that mirror the pandas idioms the tracker uses:
 * a boolean mask `df[mask]` (Filter), a column sum `df[col].sum()` (Sum) and a
 * string slice `s[:n]` (Take).
 */
module Seqs {

  /** The elements of `s` for which `keep` holds, in their original order. */
  function Filter<T>(s: seq<T>, keep: T -> bool): (r: seq<T>)
    ensures |r| <= |s|
  {
    if s == [] then [] else (if keep(s[0]) then [s[0]] else []) + Filter(s[1..], keep)
  }

  /** An element survives the mask exactly when it is in the input and passes the mask. */
  lemma {:induction false} FilterMembers<T>(s: seq<T>, keep: T -> bool, x: T)
    ensures x in Filter(s, keep) <==> x in s && keep(x)
  {
    if s != [] {
      FilterMembers(s[1..], keep, x);
      assert x in s <==> x == s[0] || x in s[1..];
    }
  }

  /** Masking distributes over concatenation: order of the kept elements is the input order. */
  lemma {:induction false} FilterConcat<T>(a: seq<T>, b: seq<T>, keep: T -> bool)
    ensures Filter(a + b, keep) == Filter(a, keep) + Filter(b, keep)
  {
    if a == [] {
      assert a + b == b;
    } else {
      var head := if keep(a[0]) then [a[0]] else [];
      calc {
        Filter(a + b, keep);
        { assert (a + b)[0] == a[0]; assert (a + b)[1..] == a[1..] + b; }
        head + Filter(a[1..] + b, keep);
        { FilterConcat(a[1..], b, keep); }
        head + (Filter(a[1..], keep) + Filter(b, keep));
        (head + Filter(a[1..], keep)) + Filter(b, keep);
      }
    }
  }

  /** Masking an appended element: it is kept at the end exactly when it passes. */
  lemma FilterSnoc<T>(s: seq<T>, x: T, keep: T -> bool)
    ensures Filter(s + [x], keep) == Filter(s, keep) + (if keep(x) then [x] else [])
  {
    FilterConcat(s, [x], keep);
    assert Filter([x], keep) == (if keep(x) then [x] else []) + Filter([x][1..], keep);
  }

  /** Two masks that agree on the elements of `s` select the same rows. */
  lemma {:induction false} FilterAgree<T>(s: seq<T>, f: T -> bool, g: T -> bool)
    requires forall x :: x in s ==> f(x) == g(x)
    ensures Filter(s, f) == Filter(s, g)
  {
    if s != [] {
      FilterAgree(s[1..], f, g);
    }
  }

  /** Applying two masks one after the other is applying their conjunction. */
  lemma {:induction false} FilterFilter<T>(s: seq<T>, f: T -> bool, g: T -> bool, h: T -> bool)
    requires forall x :: h(x) == (f(x) && g(x))
    ensures Filter(Filter(s, f), g) == Filter(s, h)
  {
    if s != [] {
      FilterFilter(s[1..], f, g, h);
      FilterConcat(if f(s[0]) then [s[0]] else [], Filter(s[1..], f), g);
      assert Filter([s[0]], g) == (if g(s[0]) then [s[0]] else []) + Filter([s[0]][1..], g);
    }
  }

  /** A stronger mask never keeps more elements than a weaker one. */
  lemma {:induction false} FilterWeaker<T>(s: seq<T>, f: T -> bool, g: T -> bool)
    requires forall x :: x in s && f(x) ==> g(x)
    ensures |Filter(s, f)| <= |Filter(s, g)|
  {
    if s != [] {
      FilterWeaker(s[1..], f, g);
    }
  }

  /** A mask and its negation split the input: their sizes add up to its length. */
  lemma {:induction false} FilterSplit<T>(s: seq<T>, f: T -> bool, g: T -> bool)
    requires forall x :: g(x) == !f(x)
    ensures |Filter(s, f)| + |Filter(s, g)| == |s|
  {
    if s != [] {
      FilterSplit(s[1..], f, g);
    }
  }

  /** The sum of `f` over the elements of `s`, left to right. */
  function Sum<T>(s: seq<T>, f: T -> real): real
  {
    if s == [] then 0.0 else f(s[0]) + Sum(s[1..], f)
  }

  /** A sum over a concatenation is the sum of the two sums. */
  lemma {:induction false} SumConcat<T>(a: seq<T>, b: seq<T>, f: T -> real)
    ensures Sum(a + b, f) == Sum(a, f) + Sum(b, f)
  {
    if a == [] {
      assert a + b == b;
    } else {
      assert (a + b)[1..] == a[1..] + b;
      SumConcat(a[1..], b, f);
    }
  }

  /** Summing a pointwise difference is taking the difference of the sums. */
  lemma {:induction false} SumDifference<T>(s: seq<T>, f: T -> real, g: T -> real, h: T -> real)
    requires forall x :: h(x) == f(x) - g(x)
    ensures Sum(s, h) == Sum(s, f) - Sum(s, g)
  {
    if s != [] {
      SumDifference(s[1..], f, g, h);
    }
  }

  /** Bounds on every term bound the sum: `lo * |s| <= Sum(s, f) <= hi * |s|`. */
  lemma {:induction false} SumBounds<T>(s: seq<T>, f: T -> real, lo: real, hi: real)
    requires forall x :: x in s ==> lo <= f(x) <= hi
    ensures lo * |s| as real <= Sum(s, f) <= hi * |s| as real
  {
    if s != [] {
      SumBounds(s[1..], f, lo, hi);
      assert s[0] in s;
      assert |s| as real == |s[1..]| as real + 1.0;
    }
  }

  /** Python's slice `s[:n]`: the first `n` characters, or all of `s` when it is shorter. */
  function Take(s: string, n: nat): (r: string)
    ensures r <= s
    ensures |r| == if |s| < n then |s| else n
  {
    if |s| <= n then s else s[..n]
  }

  /** A prefix no longer than `n` is a prefix of `s` exactly when it is a prefix of `s[:n]`. */
  lemma TakePrefix(s: string, n: nat, p: string)
    requires |p| <= n
    ensures p <= Take(s, n) <==> p <= s
  {
    if p <= s && |s| > n {
      assert Take(s, n)[..|p|] == s[..|p|];
    }
  }

  /** For a prefix of exactly `n` characters, "starts with `p`" is "`s[:n]` equals `p`". */
  lemma TakeEquals(s: string, n: nat, p: string)
    requires |p| == n
    ensures Take(s, n) == p <==> p <= s
  {
  }
}
