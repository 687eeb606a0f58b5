/**
 * Python's ordering of `str` values (lexicographic by code point) and the
 * `sorted(set(...))` idiom built on it: an insertion sort that drops duplicates,
 * and its reversal for `sorted(..., reverse=True)`.
 */
module Ordering {

  /** `a < b` on Python strings: the first differing character decides, and a proper prefix comes first. */
  predicate Below(a: string, b: string)
  {
    if a == [] then b != []
    else if b == [] then false
    else if a[0] != b[0] then a[0] < b[0]
    else Below(a[1..], b[1..])
  }

  lemma {:induction false} BelowIrreflexive(a: string)
    ensures !Below(a, a)
  {
    if a != [] {
      BelowIrreflexive(a[1..]);
    }
  }

  lemma {:induction false} BelowTransitive(a: string, b: string, c: string)
    requires Below(a, b) && Below(b, c)
    ensures Below(a, c)
  {
    if a != [] && b != [] && c != [] && a[0] == b[0] == c[0] {
      BelowTransitive(a[1..], b[1..], c[1..]);
    }
  }

  lemma {:induction false} BelowTotal(a: string, b: string)
    requires a != b
    ensures Below(a, b) || Below(b, a)
  {
    if a != [] && b != [] && a[0] == b[0] {
      assert a == [a[0]] + a[1..] && b == [b[0]] + b[1..];
      BelowTotal(a[1..], b[1..]);
    }
  }

  lemma BelowAsymmetric(a: string, b: string)
    requires Below(a, b)
    ensures !Below(b, a)
  {
    if Below(b, a) {
      BelowTransitive(a, b, a);
      BelowIrreflexive(a);
    }
  }

  /** The set of elements of a sequence. */
  function Elems(s: seq<string>): set<string>
  {
    set x | x in s
  }

  lemma ElemsEmpty(s: seq<string>)
    ensures Elems(s) == {} <==> s == []
  {
    if s != [] {
      assert s[0] in Elems(s);
    }
  }

  /** Every later element is strictly greater: sorted ascending with no duplicates. */
  predicate StrictlyAscending(s: seq<string>)
  {
    forall i, j :: 0 <= i < j < |s| ==> Below(s[i], s[j])
  }

  /** Every later element is strictly smaller: sorted descending with no duplicates. */
  predicate StrictlyDescending(s: seq<string>)
  {
    forall i, j :: 0 <= i < j < |s| ==> Below(s[j], s[i])
  }

  /** No value occurs twice. */
  predicate Distinct(s: seq<string>)
  {
    forall i, j :: 0 <= i < j < |s| ==> s[i] != s[j]
  }

  lemma AscendingDistinct(s: seq<string>)
    requires StrictlyAscending(s)
    ensures Distinct(s)
  {
    forall i, j | 0 <= i < j < |s| ensures s[i] != s[j] {
      if s[i] == s[j] {
        BelowIrreflexive(s[i]);
      }
    }
  }

  /** Putting `x` in front of a strictly ascending sequence whose head is above `x` keeps it strictly ascending. */
  lemma AscendingCons(x: string, s: seq<string>)
    requires StrictlyAscending(s)
    requires forall y :: y in s ==> Below(x, y)
    ensures StrictlyAscending([x] + s)
  {
    var r := [x] + s;
    forall i, j | 0 <= i < j < |r| ensures Below(r[i], r[j]) {
      if i == 0 {
        assert r[j] == s[j - 1];
      } else {
        assert r[i] == s[i - 1] && r[j] == s[j - 1];
      }
    }
  }

  /** Inserts `x` into a strictly ascending sequence, unless it is already there. */
  function Insert(x: string, s: seq<string>): (r: seq<string>)
    requires StrictlyAscending(s)
    ensures StrictlyAscending(r)
    ensures Elems(r) == Elems(s) + {x}
  {
    if s == [] then [x]
    else if x == s[0] then
      assert Elems(s) == Elems(s) + {x};
      s
    else if Below(x, s[0]) then
      assert forall y :: y in s ==> Below(x, y) by {
        forall y | y in s ensures Below(x, y) {
          var k :| 0 <= k < |s| && s[k] == y;
          if k > 0 {
            BelowTransitive(x, s[0], y);
          }
        }
      }
      AscendingCons(x, s);
      assert Elems([x] + s) == Elems(s) + {x};
      [x] + s
    else
      BelowTotal(x, s[0]);
      var rest := Insert(x, s[1..]);
      assert Elems(s) == {s[0]} + Elems(s[1..]) by {
        assert s == [s[0]] + s[1..];
      }
      assert forall y :: y in rest ==> Below(s[0], y) by {
        forall y | y in rest ensures Below(s[0], y) {
          assert y in Elems(rest);
          if y != x {
            var k :| 0 <= k < |s[1..]| && s[1..][k] == y;
            assert s[k + 1] == y;
          }
        }
      }
      AscendingCons(s[0], rest);
      assert Elems([s[0]] + rest) == {s[0]} + Elems(rest);
      [s[0]] + rest
  }

  /** `sorted(set(xs))`: the distinct values of `xs` in ascending order. */
  function SortUnique(xs: seq<string>): (r: seq<string>)
    ensures StrictlyAscending(r)
    ensures Elems(r) == Elems(xs)
  {
    if xs == [] then []
    else
      var r := Insert(xs[0], SortUnique(xs[1..]));
      assert Elems(xs) == Elems(xs[1..]) + {xs[0]} by {
        assert xs == [xs[0]] + xs[1..];
      }
      r
  }

  /** The elements of `s` in the opposite order. */
  function Reverse(s: seq<string>): (r: seq<string>)
    ensures |r| == |s|
    ensures forall i :: 0 <= i < |s| ==> r[i] == s[|s| - 1 - i]
  {
    if s == [] then [] else Reverse(s[1..]) + [s[0]]
  }

  /** Reversing an ascending sequence gives a descending one with the same elements. */
  lemma ReverseAscending(s: seq<string>)
    requires StrictlyAscending(s)
    ensures StrictlyDescending(Reverse(s))
    ensures Elems(Reverse(s)) == Elems(s)
  {
    var r := Reverse(s);
    forall i, j | 0 <= i < j < |r| ensures Below(r[j], r[i]) {
      assert r[j] == s[|s| - 1 - j] && r[i] == s[|s| - 1 - i];
    }
    forall y | y in s ensures y in r {
      var k :| 0 <= k < |s| && s[k] == y;
      assert r[|s| - 1 - k] == y;
    }
  }

  /** Reversing a descending sequence gives an ascending one with the same elements. */
  lemma ReverseDescending(s: seq<string>)
    requires StrictlyDescending(s)
    ensures StrictlyAscending(Reverse(s))
    ensures Elems(Reverse(s)) == Elems(s)
  {
    var r := Reverse(s);
    forall i, j | 0 <= i < j < |r| ensures Below(r[i], r[j]) {
      assert r[j] == s[|s| - 1 - j] && r[i] == s[|s| - 1 - i];
    }
    forall y | y in s ensures y in r {
      var k :| 0 <= k < |s| && s[k] == y;
      assert r[|s| - 1 - k] == y;
    }
  }

  lemma ReverseReverse(s: seq<string>)
    ensures Reverse(Reverse(s)) == s
  {
  }

  /**
   * A strictly ascending sequence is determined by its set of elements, so
   * `SortUnique` is the one and only ascending listing of the values.
   */
  lemma {:induction false} AscendingUnique(a: seq<string>, b: seq<string>)
    requires StrictlyAscending(a) && StrictlyAscending(b)
    requires Elems(a) == Elems(b)
    ensures a == b
  {
    if a != [] && b != [] {
      assert a[0] in Elems(b) && b[0] in Elems(a);
      if a[0] != b[0] {
        var i :| 0 <= i < |b| && b[i] == a[0];
        var j :| 0 <= j < |a| && a[j] == b[0];
        assert Below(b[0], a[0]) && Below(a[0], b[0]);
        BelowAsymmetric(a[0], b[0]);
      }
      assert Elems(a[1..]) == Elems(b[1..]) by {
        AscendingDistinct(a);
        AscendingDistinct(b);
        assert a == [a[0]] + a[1..] && b == [b[0]] + b[1..];
        assert a[0] !in a[1..] && b[0] !in b[1..];
        assert Elems(a) == {a[0]} + Elems(a[1..]);
        assert Elems(b) == {b[0]} + Elems(b[1..]);
      }
      AscendingUnique(a[1..], b[1..]);
      assert a == [a[0]] + a[1..] && b == [b[0]] + b[1..];
    } else {
      ElemsEmpty(a);
      ElemsEmpty(b);
    }
  }
}
