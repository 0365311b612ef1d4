/**
 * Generic list operations that the components apply to their state:
 * `Array.prototype.filter`, the left fold `reduce((acc, x) => acc + f(x), 0)`,
 * the "remove if present, else append" toggle, and removal by index.
 */
module ListOps {

  /** `s.filter(p)`: the elements of `s` that satisfy `p`, in their original order. */
  function Filter<T>(p: T -> bool, s: seq<T>): (r: seq<T>)
    ensures |r| <= |s|
    ensures forall i :: 0 <= i < |r| ==> r[i] in s && p(r[i])
    ensures forall i :: 0 <= i < |s| && p(s[i]) ==> s[i] in r
  {
    if s == [] then []
    else (if p(s[0]) then [s[0]] else []) + Filter(p, s[1..])
  }

  /** `a` is `b` with zero or more elements taken out, the rest in order. */
  predicate IsSubsequence<T(==)>(a: seq<T>, b: seq<T>)
  {
    if a == [] then true
    else if b == [] then false
    else if a[0] == b[0] then IsSubsequence(a[1..], b[1..])
    else IsSubsequence(a, b[1..])
  }

  /** No element occurs twice. */
  predicate NoDuplicates<T(==)>(s: seq<T>)
  {
    forall i, j :: 0 <= i < j < |s| ==> s[i] != s[j]
  }

  /** The filtered list keeps the original order: it is a subsequence of the input. */
  lemma {:induction false} FilterIsSubsequence<T>(p: T -> bool, s: seq<T>)
    ensures IsSubsequence(Filter(p, s), s)
  {
    if s != [] {
      FilterIsSubsequence(p, s[1..]);
      var r := Filter(p, s);
      if p(s[0]) {
        assert r == [s[0]] + Filter(p, s[1..]);
        assert r[1..] == Filter(p, s[1..]);
      } else {
        // r[0] satisfies p and s[0] does not, so the head of s is skipped.
        assert r == Filter(p, s[1..]);
        assert r != [] ==> p(r[0]) && r[0] != s[0];
      }
    }
  }

  /** When every element satisfies `p`, filtering changes nothing. */
  lemma {:induction false} FilterAll<T>(p: T -> bool, s: seq<T>)
    requires forall x :: x in s ==> p(x)
    ensures Filter(p, s) == s
  {
    if s != [] {
      FilterAll(p, s[1..]);
    }
  }

  /** When no element satisfies `p`, the filtered list is empty. */
  lemma FilterNone<T>(p: T -> bool, s: seq<T>)
    requires forall k :: 0 <= k < |s| ==> !p(s[k])
    ensures Filter(p, s) == []
  {
    var r := Filter(p, s);
    if r != [] {
      var k :| 0 <= k < |s| && s[k] == r[0];
    }
  }

  /** Filtering a concatenation filters each part. */
  lemma {:induction false} FilterAppend<T>(p: T -> bool, a: seq<T>, b: seq<T>)
    ensures Filter(p, a + b) == Filter(p, a) + Filter(p, b)
  {
    if a == [] {
      assert a + b == b;
    } else {
      assert (a + b)[0] == a[0];
      assert (a + b)[1..] == a[1..] + b;
      FilterAppend(p, a[1..], b);
    }
  }

  /** Filtering a list without duplicates gives a list without duplicates. */
  lemma {:induction false} FilterNoDuplicates<T>(p: T -> bool, s: seq<T>)
    requires NoDuplicates(s)
    ensures NoDuplicates(Filter(p, s))
  {
    if s != [] {
      assert NoDuplicates(s[1..]) by {
        forall i, j | 0 <= i < j < |s[1..]| ensures s[1..][i] != s[1..][j] {
          assert s[1..][i] == s[i + 1] && s[1..][j] == s[j + 1];
        }
      }
      FilterNoDuplicates(p, s[1..]);
      var t := Filter(p, s[1..]);
      if p(s[0]) {
        assert s[0] !in s[1..] by {
          forall k | 0 <= k < |s[1..]| ensures s[1..][k] != s[0] {
            assert s[1..][k] == s[k + 1];
          }
        }
        assert s[0] !in t;
        var r := [s[0]] + t;
        assert Filter(p, s) == r;
        forall i, j | 0 <= i < j < |r| ensures r[i] != r[j] {
          if i == 0 {
            assert r[j] == t[j - 1];
            assert r[j] in t;
          } else {
            assert r[i] == t[i - 1] && r[j] == t[j - 1];
          }
        }
      }
    }
  }

  /** Every occurrence of `x` taken out: `s.filter(y => y !== x)`. */
  function RemoveAll<T(==)>(s: seq<T>, x: T): (r: seq<T>)
  {
    Filter(y => y != x, s)
  }

  /**
   * `s.includes(x) ? s.filter(y => y !== x) : [...s, x]`: the toggle used for
   * the open FAQ entries and for the selected immediate needs.
   */
  function Toggle<T(==)>(s: seq<T>, x: T): (r: seq<T>)
  {
    if x in s then RemoveAll(s, x) else s + [x]
  }

  /** Toggling flips the membership of `x` and of nothing else. */
  lemma ToggleMembership<T>(s: seq<T>, x: T)
    ensures x in Toggle(s, x) <==> x !in s
    ensures forall y :: y != x ==> (y in Toggle(s, x) <==> y in s)
  {
    if x !in s {
      assert forall y :: y in s + [x] <==> y in s || y == x;
    }
  }

  /** An absent element is appended at the end; a present one is removed with the rest kept in order. */
  lemma ToggleShape<T>(s: seq<T>, x: T)
    ensures x !in s ==> Toggle(s, x) == s + [x]
    ensures x in s ==> IsSubsequence(Toggle(s, x), s) && |Toggle(s, x)| < |s|
  {
    if x in s {
      FilterIsSubsequence(y => y != x, s);
      RemoveAllShorter(s, x);
    }
  }

  /** Removing an element that occurs makes the list strictly shorter. */
  lemma {:induction false} RemoveAllShorter<T>(s: seq<T>, x: T)
    requires x in s
    ensures |RemoveAll(s, x)| < |s|
  {
    assert s != [];
    assert RemoveAll(s, x) == (if s[0] != x then [s[0]] else []) + RemoveAll(s[1..], x);
    if s[0] != x {
      assert x in s[1..];
      RemoveAllShorter(s[1..], x);
    }
  }

  /** Toggling keeps a duplicate-free list duplicate-free. */
  lemma TogglePreservesNoDuplicates<T>(s: seq<T>, x: T)
    requires NoDuplicates(s)
    ensures NoDuplicates(Toggle(s, x))
  {
    if x in s {
      FilterNoDuplicates(y => y != x, s);
    } else {
      var r := s + [x];
      forall i, j | 0 <= i < j < |r| ensures r[i] != r[j] {
        if j == |s| {
          assert r[i] == s[i];
        } else {
          assert r[i] == s[i] && r[j] == s[j];
        }
      }
    }
  }

  /** Toggling an absent element twice restores the list exactly. */
  lemma ToggleTwiceAbsent<T>(s: seq<T>, x: T)
    requires x !in s
    ensures Toggle(Toggle(s, x), x) == s
  {
    assert x in s + [x];
    FilterAppend(y => y != x, s, [x]);
    FilterAll(y => y != x, s);
    assert Filter(y => y != x, [x]) == [] + Filter(y => y != x, [x][1..]);
  }

  /** Toggling any element twice restores the set of elements. */
  lemma ToggleTwiceSameElements<T>(s: seq<T>, x: T)
    ensures forall y :: y in Toggle(Toggle(s, x), x) <==> y in s
  {
    ToggleMembership(s, x);
    ToggleMembership(Toggle(s, x), x);
  }

  /**
   * `s.filter((_, i) => i !== index)`: the element at position `index` taken out.
   * Written as the filter walks the list, one position at a time.
   */
  function RemoveIndex<T>(s: seq<T>, index: int): (r: seq<T>)
  {
    if s == [] then []
    else (if index == 0 then [] else [s[0]]) + RemoveIndex(s[1..], index - 1)
  }

  /** Removal by index deletes exactly that element and keeps the others in order; out of range it is a no-op. */
  lemma {:induction false} RemoveIndexSpec<T>(s: seq<T>, index: int)
    ensures 0 <= index < |s| ==> RemoveIndex(s, index) == s[..index] + s[index + 1..]
    ensures !(0 <= index < |s|) ==> RemoveIndex(s, index) == s
  {
    if s != [] {
      RemoveIndexSpec(s[1..], index - 1);
      if index == 0 {
        assert s[..0] + s[1..] == s[1..];
      } else if 0 < index < |s| {
        assert [s[0]] + (s[1..][..index - 1] + s[1..][index..]) == s[..index] + s[index + 1..];
      } else {
        assert [s[0]] + s[1..] == s;
      }
    }
  }

  /** The left fold `s.reduce((acc, x) => acc + f(x), 0)`. */
  function SumOf<T>(f: T -> int, s: seq<T>): int
  {
    if s == [] then 0 else SumOf(f, s[..|s| - 1]) + f(s[|s| - 1])
  }

  /** Appending one element adds its value to the sum. */
  lemma SumOfSnoc<T>(f: T -> int, s: seq<T>, x: T)
    ensures SumOf(f, s + [x]) == SumOf(f, s) + f(x)
  {
    assert (s + [x])[..|s + [x]| - 1] == s;
  }

  /** The sum is also the first value plus the sum of the rest. */
  lemma SumOfFront<T>(f: T -> int, s: seq<T>)
    requires s != []
    ensures SumOf(f, s) == f(s[0]) + SumOf(f, s[1..])
  {
    assert s == [s[0]] + s[1..];
    SumOfAppend(f, [s[0]], s[1..]);
    assert SumOf(f, [s[0]]) == SumOf(f, []) + f(s[0]);
  }

  /** The sum of a concatenation is the sum of the parts. */
  lemma {:induction false} SumOfAppend<T>(f: T -> int, a: seq<T>, b: seq<T>)
    ensures SumOf(f, a + b) == SumOf(f, a) + SumOf(f, b)
  {
    if b == [] {
      assert a + b == a;
    } else {
      var b' := b[..|b| - 1];
      var x := b[|b| - 1];
      assert b == b' + [x];
      assert a + b == (a + b') + [x];
      SumOfAppend(f, a, b');
      SumOfSnoc(f, a + b', x);
      SumOfSnoc(f, b', x);
    }
  }

  /** A pointwise smaller function has a smaller sum. */
  lemma {:induction false} SumOfMonotone<T>(f: T -> int, g: T -> int, s: seq<T>)
    requires forall x :: x in s ==> f(x) <= g(x)
    ensures SumOf(f, s) <= SumOf(g, s)
  {
    if s != [] {
      assert s[|s| - 1] in s;
      assert forall x :: x in s[..|s| - 1] ==> x in s;
      SumOfMonotone(f, g, s[..|s| - 1]);
    }
  }

  /** The sum of non-negative values is non-negative. */
  lemma {:induction false} SumOfNonNegative<T>(f: T -> int, s: seq<T>)
    requires forall x :: x in s ==> f(x) >= 0
    ensures SumOf(f, s) >= 0
  {
    SumOfMonotone(_ => 0, f, s);
    SumOfZero(s);
  }

  /** Summing zeros gives zero. */
  lemma {:induction false} SumOfZero<T>(s: seq<T>)
    ensures SumOf(_ => 0, s) == 0
  {
    if s != [] {
      SumOfZero(s[..|s| - 1]);
    }
  }
}
