/**
 * Boolean-mask selection (`df[mask]`) and keyed sums (`groupby(...).sum()`),
 * once for every element type. A keyed sum is kept as a list of
 * `(key, amount)` pairs in row order.
 */
module Sequences {
  import opened Sorting

  /** `s[mask]`: the elements that satisfy `p`, in their original order. */
  function Filter<T(!new)>(p: T -> bool, s: seq<T>): (r: seq<T>)
    ensures |r| <= |s|
    ensures forall x :: x in r <==> x in s && p(x)
  {
    if s == [] then []
    else if p(s[0]) then [s[0]] + Filter(p, s[1..])
    else Filter(p, s[1..])
  }

  /** A mask every element satisfies selects the whole sequence. */
  lemma {:induction false} FilterAll<T(!new)>(p: T -> bool, s: seq<T>)
    requires forall i :: 0 <= i < |s| ==> p(s[i])
    ensures Filter(p, s) == s
  {
    if s != [] {
      assert forall i :: 0 <= i < |s[1..]| ==> s[1..][i] == s[i + 1];
      FilterAll(p, s[1..]);
      assert s == [s[0]] + s[1..];
    }
  }

  /** A mask no element satisfies selects nothing. */
  lemma {:induction false} FilterNone<T(!new)>(p: T -> bool, s: seq<T>)
    requires forall i :: 0 <= i < |s| ==> !p(s[i])
    ensures Filter(p, s) == []
  {
    if s != [] {
      assert forall i :: 0 <= i < |s[1..]| ==> s[1..][i] == s[i + 1];
      FilterNone(p, s[1..]);
    }
  }

  /** Selection distributes over concatenation. */
  lemma {:induction false} FilterAppend<T(!new)>(p: T -> bool, a: seq<T>, b: seq<T>)
    ensures Filter(p, a + b) == Filter(p, a) + Filter(p, b)
  {
    if a == [] {
      assert a + b == b;
    } else {
      assert (a + b)[0] == a[0] && (a + b)[1..] == a[1..] + b;
      FilterAppend(p, a[1..], b);
    }
  }

  /**
   * Splitting by two mutually exclusive masks that together cover `u`
   * loses and duplicates nothing.
   */
  lemma {:induction false} FilterSplit<T(!new)>(u: T -> bool, p: T -> bool, q: T -> bool, s: seq<T>)
    requires forall x :: !(p(x) && q(x))
    requires forall x :: u(x) <==> p(x) || q(x)
    ensures multiset(Filter(u, s)) == multiset(Filter(p, s)) + multiset(Filter(q, s))
    ensures |Filter(u, s)| == |Filter(p, s)| + |Filter(q, s)|
  {
    if s != [] {
      FilterSplit(u, p, q, s[1..]);
    }
  }

  /**
   * Two mutually exclusive masks that between them accept every element
   * select the whole sequence, each element once.
   */
  lemma {:induction false} FilterCover<T(!new)>(p: T -> bool, q: T -> bool, s: seq<T>)
    requires forall x :: !(p(x) && q(x))
    requires forall i :: 0 <= i < |s| ==> p(s[i]) || q(s[i])
    ensures multiset(Filter(p, s)) + multiset(Filter(q, s)) == multiset(s)
  {
    if s != [] {
      assert s == [s[0]] + s[1..];
      assert forall i :: 0 <= i < |s[1..]| ==> s[1..][i] == s[i + 1];
      FilterCover(p, q, s[1..]);
    }
  }

  /** The total of all amounts. */
  function Total<K>(ps: seq<(K, int)>): int {
    if ps == [] then 0 else ps[0].1 + Total(ps[1..])
  }

  /** The total of the amounts filed under key `k`; 0 when there are none. */
  function SumKey<K(==)>(ps: seq<(K, int)>, k: K): int {
    if ps == [] then 0
    else (if ps[0].0 == k then ps[0].1 else 0) + SumKey(ps[1..], k)
  }

  /** The key of every pair, in order. */
  function Keys<K>(ps: seq<(K, int)>): (r: seq<K>)
    ensures |r| == |ps|
    ensures forall i :: 0 <= i < |ps| ==> r[i] == ps[i].0
  {
    seq(|ps|, i requires 0 <= i < |ps| => ps[i].0)
  }

  lemma {:induction false} TotalAppend<K>(a: seq<(K, int)>, b: seq<(K, int)>)
    ensures Total(a + b) == Total(a) + Total(b)
  {
    if a == [] {
      assert a + b == b;
    } else {
      assert (a + b)[0] == a[0] && (a + b)[1..] == a[1..] + b;
      TotalAppend(a[1..], b);
    }
  }

  lemma {:induction false} SumKeyAppend<K>(a: seq<(K, int)>, b: seq<(K, int)>, k: K)
    ensures SumKey(a + b, k) == SumKey(a, k) + SumKey(b, k)
  {
    if a == [] {
      assert a + b == b;
    } else {
      assert (a + b)[0] == a[0] && (a + b)[1..] == a[1..] + b;
      SumKeyAppend(a[1..], b, k);
    }
  }

  /** A key that no pair carries sums to 0. */
  lemma {:induction false} SumKeyAbsent<K>(ps: seq<(K, int)>, k: K)
    requires k !in Keys(ps)
    ensures SumKey(ps, k) == 0
  {
    if ps != [] {
      assert Keys(ps[1..]) == Keys(ps)[1..];
      SumKeyAbsent(ps[1..], k);
    }
  }

  /** A keyed sum of amounts of one sign has that sign. */
  lemma {:induction false} SumKeySign<K>(ps: seq<(K, int)>, k: K)
    ensures (forall i :: 0 <= i < |ps| ==> ps[i].1 >= 0) ==> SumKey(ps, k) >= 0
    ensures (forall i :: 0 <= i < |ps| ==> ps[i].1 <= 0) ==> SumKey(ps, k) <= 0
  {
    if ps != [] {
      assert forall i :: 0 <= i < |ps[1..]| ==> ps[1..][i] == ps[i + 1];
      SumKeySign(ps[1..], k);
    }
  }

  /** `SumKey` added up over a list of keys. */
  function SumOver<K(==)>(ps: seq<(K, int)>, ks: seq<K>): int {
    if ks == [] then 0 else SumKey(ps, ks[0]) + SumOver(ps, ks[1..])
  }

  /** The row of one pair spread over `ks`: its amount under its own key, and 0 elsewhere. */
  lemma {:induction false} SumOverSingle<K>(k: K, v: int, ks: seq<K>)
    requires Distinct(ks)
    ensures SumOver([(k, v)], ks) == if k in ks then v else 0
  {
    if ks != [] {
      assert [(k, v)][1..] == [];
      assert SumKey([(k, v)], ks[0]) == if k == ks[0] then v else 0;
      assert Distinct(ks[1..]) by {
        forall i, j | 0 <= i < j < |ks[1..]| ensures ks[1..][i] != ks[1..][j] {
          assert ks[1..][i] == ks[i + 1] && ks[1..][j] == ks[j + 1];
        }
      }
      assert ks[0] == k ==> k !in ks[1..] by {
        if ks[0] == k {
          forall i | 0 <= i < |ks[1..]| ensures ks[1..][i] != k {
            assert ks[1..][i] == ks[i + 1];
          }
        }
      }
      assert k in ks <==> k == ks[0] || k in ks[1..];
      SumOverSingle(k, v, ks[1..]);
    }
  }

  lemma {:induction false} SumOverAppend<K>(a: seq<(K, int)>, b: seq<(K, int)>, ks: seq<K>)
    ensures SumOver(a + b, ks) == SumOver(a, ks) + SumOver(b, ks)
  {
    if ks != [] {
      SumKeyAppend(a, b, ks[0]);
      SumOverAppend(a, b, ks[1..]);
    }
  }

  /**
   * Regrouping: summing each key's total over a list of distinct keys that
   * covers every pair gives the grand total.
   */
  lemma {:induction false} Regroup<K>(ps: seq<(K, int)>, ks: seq<K>)
    requires Distinct(ks)
    requires forall i :: 0 <= i < |ps| ==> ps[i].0 in ks
    ensures SumOver(ps, ks) == Total(ps)
  {
    if ps == [] {
      SumOverZero(ks);
    } else {
      assert ps == [ps[0]] + ps[1..];
      SumOverAppend([ps[0]], ps[1..], ks);
      SumOverSingle(ps[0].0, ps[0].1, ks);
      Regroup(ps[1..], ks);
    }
  }

  lemma {:induction false} SumOverZero<K>(ks: seq<K>)
    ensures SumOver([], ks) == 0
  {
    if ks != [] {
      SumOverZero(ks[1..]);
    }
  }
}
