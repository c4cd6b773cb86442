/** Orderings on sequences used by the model.

    - Below is Python's `<` on `str` values: lexicographic by code point,
      with a proper prefix sorting first. pandas' groupby sorts its group
      keys in this order.
    - Insert keeps a strictly increasing list of keys, one entry per key.
    - Subsequence says that one list keeps the order of another while
      possibly skipping elements.
 */
module Ordering {

  /** Python's `a < b` on strings. */
  predicate Below(a: string, b: string)
    decreases |a|
  {
    if |a| == 0 then |b| > 0
    else |b| > 0 && (a[0] < b[0] || (a[0] == b[0] && Below(a[1..], b[1..])))
  }

  lemma {:induction false} BelowIrreflexive(a: string)
    ensures !Below(a, a)
    decreases |a|
  {
    if |a| > 0 {
      BelowIrreflexive(a[1..]);
    }
  }

  lemma {:induction false} BelowTransitive(a: string, b: string, c: string)
    requires Below(a, b) && Below(b, c)
    ensures Below(a, c)
    decreases |a|
  {
    if |a| > 0 && a[0] == b[0] && b[0] == c[0] {
      BelowTransitive(a[1..], b[1..], c[1..]);
    }
  }

  lemma {:induction false} BelowTotal(a: string, b: string)
    ensures a == b || Below(a, b) || Below(b, a)
    decreases |a|
  {
    if |a| > 0 && |b| > 0 && a[0] == b[0] {
      BelowTotal(a[1..], b[1..]);
      if a[1..] == b[1..] {
        assert a == [a[0]] + a[1..];
        assert b == [b[0]] + b[1..];
      }
    }
  }

  /** Strictly increasing: sorted, and therefore without repeated keys. */
  predicate StrictlySorted(s: seq<string>)
  {
    forall i, j :: 0 <= i < j < |s| ==> Below(s[i], s[j])
  }

  lemma StrictlySortedDistinct(s: seq<string>, i: int, j: int)
    requires StrictlySorted(s)
    requires 0 <= i < j < |s|
    ensures s[i] != s[j]
  {
    BelowIrreflexive(s[i]);
  }

  lemma BelowAll(keys: seq<string>, k: string)
    requires StrictlySorted(keys)
    requires |keys| > 0 && Below(k, keys[0])
    ensures forall j :: 0 <= j < |keys| ==> Below(k, keys[j])
  {
    forall j | 0 < j < |keys|
      ensures Below(k, keys[j])
    {
      BelowTransitive(k, keys[0], keys[j]);
    }
  }

  /** Adds key k to a strictly sorted key list, in its place, unless it is
      already there. */
  function Insert(keys: seq<string>, k: string): (r: seq<string>)
    requires StrictlySorted(keys)
    ensures StrictlySorted(r)
    ensures forall x :: x in r <==> x in keys || x == k
    decreases |keys|
  {
    if keys == [] then [k]
    else if k == keys[0] then keys
    else if Below(k, keys[0]) then
      BelowAll(keys, k);
      [k] + keys
    else
      BelowTotal(k, keys[0]);
      assert forall x :: x in keys[1..] ==> Below(keys[0], x);
      [keys[0]] + Insert(keys[1..], k)
  }

  /** xs is ys with some elements left out, the rest in the same order. */
  predicate Subsequence<T(==)>(xs: seq<T>, ys: seq<T>)
    decreases |ys|
  {
    if xs == [] then true
    else if ys == [] then false
    else if xs[0] == ys[0] then Subsequence(xs[1..], ys[1..])
    else Subsequence(xs, ys[1..])
  }

  predicate Distinct<T(==)>(s: seq<T>)
  {
    forall i, j :: 0 <= i < j < |s| ==> s[i] != s[j]
  }

  lemma {:induction false} SubsequenceMembers<T>(xs: seq<T>, ys: seq<T>)
    requires Subsequence(xs, ys)
    ensures forall x :: x in xs ==> x in ys
    decreases |ys|
  {
    if xs != [] {
      if xs[0] == ys[0] {
        SubsequenceMembers(xs[1..], ys[1..]);
        assert xs == [xs[0]] + xs[1..];
      } else {
        SubsequenceMembers(xs, ys[1..]);
      }
    }
  }

  /** Leaving elements out of a list without repetitions cannot create one. */
  lemma {:induction false} SubsequenceDistinct<T>(xs: seq<T>, ys: seq<T>)
    requires Subsequence(xs, ys) && Distinct(ys)
    ensures Distinct(xs)
    decreases |ys|
  {
    if xs != [] {
      assert ys != [];
      assert Distinct(ys[1..]) by {
        forall i, j | 0 <= i < j < |ys[1..]|
          ensures ys[1..][i] != ys[1..][j]
        {
          assert ys[1..][i] == ys[i + 1] && ys[1..][j] == ys[j + 1];
        }
      }
      if xs[0] == ys[0] {
        SubsequenceDistinct(xs[1..], ys[1..]);
        SubsequenceMembers(xs[1..], ys[1..]);
        forall j | 0 < j < |xs|
          ensures xs[0] != xs[j]
        {
          assert xs[j] == xs[1..][j - 1];
          assert xs[j] in ys[1..];
        }
      } else {
        SubsequenceDistinct(xs, ys[1..]);
      }
    }
  }

  lemma {:induction false} SubsequenceSkipLast<T>(xs: seq<T>, ys: seq<T>, y: T)
    requires Subsequence(xs, ys)
    ensures Subsequence(xs, ys + [y])
    decreases |ys|
  {
    if xs != [] {
      assert (ys + [y])[1..] == ys[1..] + [y];
      if xs[0] == ys[0] {
        SubsequenceSkipLast(xs[1..], ys[1..], y);
      } else {
        SubsequenceSkipLast(xs, ys[1..], y);
      }
    }
  }

  lemma {:induction false} SubsequenceSingleton<T>(y: T, ys: seq<T>)
    ensures Subsequence([y], ys + [y])
    decreases |ys|
  {
    if ys != [] {
      assert (ys + [y])[1..] == ys[1..] + [y];
      if ys[0] == y {
        assert [y][1..] == [];
      } else {
        SubsequenceSingleton(y, ys[1..]);
      }
    }
  }

  lemma {:induction false} SubsequenceKeepLast<T>(xs: seq<T>, ys: seq<T>, y: T)
    requires Subsequence(xs, ys)
    ensures Subsequence(xs + [y], ys + [y])
    decreases |ys|
  {
    if xs == [] {
      assert xs + [y] == [y];
      SubsequenceSingleton(y, ys);
    } else {
      assert (ys + [y])[1..] == ys[1..] + [y];
      assert (xs + [y])[1..] == xs[1..] + [y];
      if xs[0] == ys[0] {
        SubsequenceKeepLast(xs[1..], ys[1..], y);
      } else {
        SubsequenceKeepLast(xs, ys[1..], y);
      }
    }
  }
}
