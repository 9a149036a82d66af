/**
 * Ordering of the pivot axes. pandas sorts the distinct keys of a pivot
 * (index and columns), and the ledger reorders its rows with Python's
 * `sorted`. Both are modelled here once, for any strict total order.
 */
module Sorting {

  ghost predicate IsStrictOrder<T(!new)>(lt: (T, T) -> bool) {
    && (forall x :: !lt(x, x))
    && (forall x, y, z :: lt(x, y) && lt(y, z) ==> lt(x, z))
    && (forall x, y :: x != y ==> lt(x, y) || lt(y, x))
  }

  /** Ascending with no repeated element: the shape of a pivot axis. */
  predicate StrictlySorted<T>(lt: (T, T) -> bool, s: seq<T>) {
    forall i, j :: 0 <= i < j < |s| ==> lt(s[i], s[j])
  }

  /** Ascending, repeats allowed: the shape of what `sorted` returns. */
  predicate Sorted<T>(lt: (T, T) -> bool, s: seq<T>) {
    forall i, j :: 0 <= i < j < |s| ==> !lt(s[j], s[i])
  }

  predicate Distinct<T(==)>(s: seq<T>) {
    forall i, j :: 0 <= i < j < |s| ==> s[i] != s[j]
  }

  /** Adds `x` to an axis unless it is already there. */
  function InsertUnique<T(!new,==)>(lt: (T, T) -> bool, x: T, s: seq<T>): (r: seq<T>)
    requires IsStrictOrder(lt)
    requires StrictlySorted(lt, s)
    ensures StrictlySorted(lt, r)
    ensures forall y :: y in r <==> y in s || y == x
  {
    if s == [] then [x]
    else if x == s[0] then s
    else if lt(x, s[0]) then [x] + s
    else
      var rest := InsertUnique(lt, x, s[1..]);
      assert lt(s[0], x);
      assert forall y :: y in rest ==> lt(s[0], y) by {
        forall y | y in rest ensures lt(s[0], y) {
          if y != x {
            var k :| 1 <= k < |s| && s[k] == y;
          }
        }
      }
      [s[0]] + rest
  }

  /** The distinct elements of `xs`, ascending: how a pivot orders its keys. */
  function SortUnique<T(!new,==)>(lt: (T, T) -> bool, xs: seq<T>): (r: seq<T>)
    requires IsStrictOrder(lt)
    ensures StrictlySorted(lt, r)
    ensures forall y :: y in r <==> y in xs
  {
    if xs == [] then [] else InsertUnique(lt, xs[0], SortUnique(lt, xs[1..]))
  }

  /** Two distinct elements come out of the pivot sort ascending, whatever their order in. */
  lemma SortUniquePair<T(!new)>(lt: (T, T) -> bool, x: T, y: T)
    requires IsStrictOrder(lt)
    requires lt(x, y)
    ensures SortUnique(lt, [x, y]) == [x, y]
    ensures SortUnique(lt, [y, x]) == [x, y]
  {
    assert [x, y][1..] == [y] && [y, x][1..] == [x];
    assert [y][1..] == [] && [x][1..] == [];
    assert SortUnique(lt, [y]) == [y];
    assert SortUnique(lt, [x]) == [x];
    assert x != y;
    assert !lt(y, x);
    assert InsertUnique(lt, y, [x]) == [x] + InsertUnique(lt, y, []);
  }

  /** Putting an element no larger than any of `t` in front keeps `t` sorted. */
  lemma SortedCons<T(!new)>(lt: (T, T) -> bool, y: T, t: seq<T>)
    requires Sorted(lt, t)
    requires forall z :: z in t ==> !lt(z, y)
    ensures Sorted(lt, [y] + t)
  {
    forall i, j | 0 <= i < j < |[y] + t| ensures !lt(([y] + t)[j], ([y] + t)[i]) {
      assert ([y] + t)[j] == t[j - 1];
      if i > 0 {
        assert ([y] + t)[i] == t[i - 1];
      }
    }
  }

  /** Nothing in a sorted sequence is smaller than `x` if its head is not. */
  lemma SortedHeadIsLeast<T(!new)>(lt: (T, T) -> bool, s: seq<T>, x: T)
    requires IsStrictOrder(lt)
    requires Sorted(lt, s)
    requires s != [] ==> !lt(s[0], x)
    ensures forall z :: z in s ==> !lt(z, x)
  {
    forall z | z in s ensures !lt(z, x) {
      var k :| 0 <= k < |s| && s[k] == z;
      if k > 0 {
        assert !lt(s[k], s[0]);
      }
    }
  }

  function Insert<T(!new,==)>(lt: (T, T) -> bool, x: T, s: seq<T>): (r: seq<T>)
    requires IsStrictOrder(lt)
    requires Sorted(lt, s)
    ensures Sorted(lt, r)
    ensures multiset(r) == multiset(s) + multiset{x}
  {
    if s == [] || !lt(s[0], x) then
      SortedHeadIsLeast(lt, s, x);
      SortedCons(lt, x, s);
      [x] + s
    else
      var rest := Insert(lt, x, s[1..]);
      assert s == [s[0]] + s[1..];
      assert multiset(s) == multiset{s[0]} + multiset(s[1..]);
      assert forall z :: z in rest ==> !lt(z, s[0]) by {
        forall z | z in rest ensures !lt(z, s[0]) {
          assert z in multiset(rest);
          if z != x {
            assert z in s[1..];
            var k :| 0 <= k < |s[1..]| && s[1..][k] == z;
            assert s[k + 1] == z;
          }
        }
      }
      assert Sorted(lt, s[1..]);
      SortedCons(lt, s[0], rest);
      [s[0]] + rest
  }

  /** Python's `sorted` over a strict total order. */
  function Sort<T(!new,==)>(lt: (T, T) -> bool, xs: seq<T>): (r: seq<T>)
    requires IsStrictOrder(lt)
    ensures Sorted(lt, r)
    ensures multiset(r) == multiset(xs)
  {
    if xs == [] then []
    else
      assert xs == [xs[0]] + xs[1..];
      Insert(lt, xs[0], Sort(lt, xs[1..]))
  }

  /** The tail of a strictly sorted sequence holds exactly its elements other than the head. */
  lemma StrictlySortedTail<T(!new)>(lt: (T, T) -> bool, s: seq<T>)
    requires IsStrictOrder(lt)
    requires StrictlySorted(lt, s) && s != []
    ensures StrictlySorted(lt, s[1..])
    ensures forall x :: x in s[1..] <==> x in s && x != s[0]
  {
    forall x | x in s[1..] ensures x != s[0] {
      var k :| 0 <= k < |s[1..]| && s[1..][k] == x;
      assert lt(s[0], s[k + 1]);
    }
    forall x | x in s && x != s[0] ensures x in s[1..] {
      var k :| 0 <= k < |s| && s[k] == x;
      assert s[1..][k - 1] == x;
    }
  }

  /** In a strictly sorted sequence the head comes before every other element. */
  lemma HeadIsLeast<T(!new)>(lt: (T, T) -> bool, s: seq<T>, k: nat)
    requires StrictlySorted(lt, s) && k < |s|
    ensures s[k] == s[0] || lt(s[0], s[k])
  {
  }

  /** A strictly sorted sequence is fixed by its elements: it is the one way to list them ascending. */
  lemma {:induction false} StrictlySortedSameElements<T(!new)>(lt: (T, T) -> bool, a: seq<T>, b: seq<T>)
    requires IsStrictOrder(lt)
    requires StrictlySorted(lt, a) && StrictlySorted(lt, b)
    requires forall x :: x in a <==> x in b
    ensures a == b
  {
    assert a != [] ==> a[0] in b;
    assert b != [] ==> b[0] in a;
    if a != [] && b != [] {
      assert a[0] in a && b[0] in b;
      var i :| 0 <= i < |b| && b[i] == a[0];
      var j :| 0 <= j < |a| && a[j] == b[0];
      HeadIsLeast(lt, b, i);
      HeadIsLeast(lt, a, j);
      assert a[0] == b[0];
      StrictlySortedTail(lt, a);
      StrictlySortedTail(lt, b);
      StrictlySortedSameElements(lt, a[1..], b[1..]);
      assert a == [a[0]] + a[1..] && b == [b[0]] + b[1..];
    }
  }

  lemma StrictlySortedIsDistinct<T(!new)>(lt: (T, T) -> bool, s: seq<T>)
    requires IsStrictOrder(lt)
    requires StrictlySorted(lt, s)
    ensures Distinct(s)
  {
    forall i, j | 0 <= i < j < |s| ensures s[i] != s[j] {
      assert lt(s[i], s[j]);
    }
  }

  /** A sequence repeats nothing exactly when each element occurs at most once. */
  lemma {:induction false} DistinctIffSingleOccurrences<T>(s: seq<T>)
    ensures Distinct(s) <==> forall x :: multiset(s)[x] <= 1
  {
    if s != [] {
      var t := s[1..];
      assert s == [s[0]] + t;
      DistinctIffSingleOccurrences(t);
      if Distinct(s) {
        assert s[0] !in t by {
          forall k | 0 <= k < |t| ensures t[k] != s[0] {
            assert t[k] == s[k + 1];
          }
        }
        assert Distinct(t) by {
          forall i, j | 0 <= i < j < |t| ensures t[i] != t[j] {
            assert t[i] == s[i + 1] && t[j] == s[j + 1];
          }
        }
        forall x ensures multiset(s)[x] <= 1 {
          assert multiset(s)[x] == multiset{s[0]}[x] + multiset(t)[x];
        }
      }
      if forall x :: multiset(s)[x] <= 1 {
        forall x ensures multiset(t)[x] <= 1 {
          assert multiset(s)[x] == multiset{s[0]}[x] + multiset(t)[x];
        }
        assert multiset(s)[s[0]] == 1 + multiset(t)[s[0]];
        assert s[0] !in t;
        forall i, j | 0 <= i < j < |s| ensures s[i] != s[j] {
          if i == 0 {
            assert s[j] == t[j - 1];
          } else {
            assert s[i] == t[i - 1] && s[j] == t[j - 1];
          }
        }
      }
    }
  }
}
