/** Small vocabulary shared by the four scripts: optional values, Python
    truthiness of an optional string, powers of two for the back-off
    schedules, order-preserving sub-sequences and Python's code-point
    ordering of strings. */
module Common {

  datatype Option<T> = None | Some(value: T)

  /** Python truthiness of a value that is either None or a string:
      both None and the empty string are false. */
  predicate Truthy(s: Option<string>) {
    s.Some? && s.value != ""
  }

  function Pow2(n: nat): (r: nat)
    ensures r >= 1
  {
    if n == 0 then 1 else 2 * Pow2(n - 1)
  }

  lemma ConcatAssociative<T>(a: seq<T>, b: seq<T>, c: seq<T>)
    ensures a + (b + c) == (a + b) + c
  {
  }

  /** `len(range(n))`. */
  function RangeLength(n: int): nat {
    if n < 0 then 0 else n
  }

  /** The first `n` waits of an exponential back-off starting at `base`:
      `base * 2 ** i` for `i` in `range(n)`. */
  function Backoffs(base: int, n: nat): (r: seq<int>)
    ensures |r| == n
    ensures forall i :: 0 <= i < n ==> r[i] == base * Pow2(i)
  {
    if n == 0 then [] else Backoffs(base, n - 1) + [base * Pow2(n - 1)]
  }

  /** `a` is `b` with some elements deleted, the rest in their original order. */
  predicate IsSubsequence<T(==)>(a: seq<T>, b: seq<T>)
    decreases |b|
  {
    if |b| == 0 then |a| == 0
    else
      || IsSubsequence(a, b[..|b| - 1])
      || (|a| > 0 && a[|a| - 1] == b[|b| - 1] && IsSubsequence(a[..|a| - 1], b[..|b| - 1]))
  }

  /** Growing the source by one element keeps a sub-sequence a sub-sequence,
      whether or not the new element is also kept. */
  lemma SubsequenceSnoc<T>(a: seq<T>, b: seq<T>, x: T)
    requires IsSubsequence(a, b)
    ensures IsSubsequence(a, b + [x])
    ensures IsSubsequence(a + [x], b + [x])
  {
    assert (b + [x])[..|b|] == b;
    assert (a + [x])[..|a|] == a;
  }

  lemma {:induction false} SubsequenceOfEmpty<T>(b: seq<T>)
    ensures IsSubsequence([], b)
    decreases |b|
  {
    if |b| > 0 {
      SubsequenceOfEmpty(b[..|b| - 1]);
    }
  }

  /** Deleting from a sub-sequence leaves a sub-sequence: the relation is
      transitive. */
  lemma {:induction false} SubsequenceTransitive<T>(a: seq<T>, b: seq<T>, c: seq<T>)
    requires IsSubsequence(a, b) && IsSubsequence(b, c)
    ensures IsSubsequence(a, c)
    decreases |c|
  {
    if |c| == 0 {
    } else if |b| == 0 {
      SubsequenceOfEmpty(c);
    } else {
      var c' := c[..|c| - 1];
      var b' := b[..|b| - 1];
      if IsSubsequence(b, c') {
        SubsequenceTransitive(a, b, c');
      } else if IsSubsequence(a, b') {
        SubsequenceTransitive(a, b', c');
      } else {
        SubsequenceTransitive(a[..|a| - 1], b', c');
      }
    }
  }

  /** The elements of `s` that satisfy `keep`, in their original order (a
      boolean-mask selection of rows). */
  function Filter<T(!new)>(s: seq<T>, keep: T -> bool): (r: seq<T>)
    ensures forall x :: x in r <==> x in s && keep(x)
    ensures IsSubsequence(r, s)
  {
    if |s| == 0 then []
    else
      var n := |s| - 1;
      var r := Filter(s[..n], keep);
      assert s == s[..n] + [s[n]];
      SubsequenceSnoc(r, s[..n], s[n]);
      if keep(s[n]) then r + [s[n]] else r
  }

  /** Filtering a sequence with one more element in front. */
  lemma {:induction false} FilterCons<T(!new)>(x: T, s: seq<T>, keep: T -> bool)
    ensures Filter([x] + s, keep) == (if keep(x) then [x] else []) + Filter(s, keep)
  {
    if |s| > 0 {
      var n := |s| - 1;
      FilterCons(x, s[..n], keep);
      assert ([x] + s)[..n + 1] == [x] + s[..n];
      ConcatAssociative(if keep(x) then [x] else [], Filter(s[..n], keep), if keep(s[n]) then [s[n]] else []);
    } else {
      assert [x] + s == [x] && [x][..0] == [];
    }
  }

  /** Filtering keeps every occurrence of a kept element and none of a
      dropped one. */
  lemma {:induction false} FilterCounts<T(!new)>(s: seq<T>, keep: T -> bool, x: T)
    ensures multiset(Filter(s, keep))[x] == if keep(x) then multiset(s)[x] else 0
  {
    if |s| > 0 {
      var n := |s| - 1;
      FilterCounts(s[..n], keep, x);
      assert s == s[..n] + [s[n]];
      assert multiset(s) == multiset(s[..n]) + multiset{s[n]};
    }
  }

  /** Nothing is dropped when every element is kept. */
  lemma {:induction false} FilterKeepsAll<T(!new)>(s: seq<T>, keep: T -> bool)
    requires forall i :: 0 <= i < |s| ==> keep(s[i])
    ensures Filter(s, keep) == s
  {
    if |s| > 0 {
      FilterKeepsAll(s[..|s| - 1], keep);
      assert s == s[..|s| - 1] + [s[|s| - 1]];
    }
  }

  /** Python's `a <= b` on str: lexicographic by code point. */
  predicate LexLe(a: string, b: string)
    decreases |a|
  {
    if |a| == 0 then true
    else if |b| == 0 then false
    else if a[0] != b[0] then a[0] < b[0]
    else LexLe(a[1..], b[1..])
  }

  /** Python's `a < b` on str. */
  predicate LexLt(a: string, b: string) {
    LexLe(a, b) && a != b
  }

  lemma {:induction false} LexLeAntisymmetric(a: string, b: string)
    requires LexLe(a, b) && LexLe(b, a)
    ensures a == b
    decreases |a|
  {
    if |a| > 0 && |b| > 0 {
      LexLeAntisymmetric(a[1..], b[1..]);
      assert a == [a[0]] + a[1..] && b == [b[0]] + b[1..];
    }
  }

  lemma {:induction false} LexLeTransitive(a: string, b: string, c: string)
    requires LexLe(a, b) && LexLe(b, c)
    ensures LexLe(a, c)
    decreases |a|
  {
    if |a| > 0 && |b| > 0 && |c| > 0 && a[0] == b[0] && b[0] == c[0] {
      LexLeTransitive(a[1..], b[1..], c[1..]);
    }
  }

  lemma LexLtTransitive(a: string, b: string, c: string)
    requires LexLt(a, b) && LexLt(b, c)
    ensures LexLt(a, c)
  {
    LexLeTransitive(a, b, c);
    if a == c {
      LexLeAntisymmetric(a, b);
    }
  }

  /** Python's `a <= b` is the negation of `b < a`: the order is total. */
  lemma {:induction false} LexLeTotal(a: string, b: string)
    ensures LexLe(a, b) || LexLt(b, a)
    decreases |a|
  {
    if |a| > 0 && |b| > 0 && a[0] == b[0] {
      LexLeTotal(a[1..], b[1..]);
      assert a == [a[0]] + a[1..] && b == [b[0]] + b[1..];
    }
  }

  /** Every element is strictly greater than every earlier one. */
  predicate StrictlyIncreasing(s: seq<string>) {
    forall i, j :: 0 <= i < j < |s| ==> LexLt(s[i], s[j])
  }

  /** Appending something above the current last element keeps the
      sequence strictly increasing. */
  lemma IncreasingSnoc(s: seq<string>, x: string)
    requires StrictlyIncreasing(s)
    requires |s| > 0 ==> LexLt(s[|s| - 1], x)
    ensures StrictlyIncreasing(s + [x])
  {
    forall i | 0 <= i < |s|
      ensures LexLt(s[i], x)
    {
      if i < |s| - 1 {
        LexLtTransitive(s[i], s[|s| - 1], x);
      }
    }
  }
}
