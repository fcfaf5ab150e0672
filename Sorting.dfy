/**
 * Stable sorting and de-duplication, as Python's `sorted`, `set` and
 * JavaScript's `Array.prototype.sort` / `Array.from(new Set(...))` provide them.
 */
module Sorting {
  import Strings

  /** `le` is total and transitive: any two items compare, and chains compose. */
  ghost predicate TotalPreorder<T(!new)>(le: (T, T) -> bool)
  {
    (forall a, b :: le(a, b) || le(b, a)) &&
    (forall a, b, c :: le(a, b) && le(b, c) ==> le(a, c))
  }

  ghost predicate SortedBy<T>(s: seq<T>, le: (T, T) -> bool)
  {
    forall i, j :: 0 <= i < j < |s| ==> le(s[i], s[j])
  }

  /** An element before a sorted list, ordered before each of its elements, keeps it sorted. */
  lemma ConsSorted<T>(x: T, rest: seq<T>, le: (T, T) -> bool)
    requires SortedBy(rest, le)
    requires forall k :: 0 <= k < |rest| ==> le(x, rest[k])
    ensures SortedBy([x] + rest, le)
  {
    var r := [x] + rest;
    forall i, j | 0 <= i < j < |r| ensures le(r[i], r[j]) {
      assert r[j] == rest[j - 1];
      if i > 0 {
        assert r[i] == rest[i - 1];
      }
    }
  }

  /** Places `x` after every element that is not greater than it (which keeps the sort stable). */
  function Insert<T(!new)>(x: T, s: seq<T>, le: (T, T) -> bool): (r: seq<T>)
    requires TotalPreorder(le)
    requires SortedBy(s, le)
    ensures SortedBy(r, le)
    ensures multiset(r) == multiset(s) + multiset{x}
    ensures |r| == |s| + 1
  {
    if |s| == 0 then [x]
    else if !le(s[0], x) then
      PrependSmaller(x, s, le);
      [x] + s
    else
      var rest := Insert(x, s[1..], le);
      assert s == [s[0]] + s[1..];
      HeadBound(s[0], x, s[1..], rest, le);
      ConsSorted(s[0], rest, le);
      [s[0]] + rest
  }

  /** An element ranked before the head of a sorted list may go first. */
  lemma PrependSmaller<T(!new)>(x: T, s: seq<T>, le: (T, T) -> bool)
    requires TotalPreorder(le)
    requires SortedBy(s, le) && |s| > 0 && !le(s[0], x)
    ensures SortedBy([x] + s, le)
  {
    assert le(x, s[0]);
    forall k | 0 <= k < |s| ensures le(x, s[k]) {
      if k > 0 {
        assert le(s[0], s[k]);
      }
    }
    ConsSorted(x, s, le);
  }

  /** A bound on `x` and on every element of `t` bounds every element of a rearrangement of `t` and `x`. */
  lemma HeadBound<T>(y: T, x: T, t: seq<T>, rest: seq<T>, le: (T, T) -> bool)
    requires le(y, x) && forall k :: 0 <= k < |t| ==> le(y, t[k])
    requires multiset(rest) == multiset(t) + multiset{x}
    ensures forall k :: 0 <= k < |rest| ==> le(y, rest[k])
  {
    forall k | 0 <= k < |rest| ensures le(y, rest[k]) {
      assert rest[k] in multiset(rest);
      assert rest[k] in multiset(t) + multiset{x};
      if rest[k] != x {
        assert rest[k] in t;
      }
    }
  }

  /** Stable insertion sort: a permutation of `s`, ordered by `le`. */
  function Sort<T(!new)>(s: seq<T>, le: (T, T) -> bool): (r: seq<T>)
    requires TotalPreorder(le)
    ensures SortedBy(r, le)
    ensures multiset(r) == multiset(s)
    ensures |r| == |s|
  {
    if |s| == 0 then []
    else
      assert s == s[..|s| - 1] + [s[|s| - 1]];
      Insert(s[|s| - 1], Sort(s[..|s| - 1], le), le)
  }

  /** The elements of `s` that `le` ranks equal to `y`, in their order in `s`. */
  function Ties<T>(s: seq<T>, y: T, le: (T, T) -> bool): seq<T>
  {
    if |s| == 0 then []
    else (if le(s[0], y) && le(y, s[0]) then [s[0]] else []) + Ties(s[1..], y, le)
  }

  lemma {:induction false} TiesConcat<T>(a: seq<T>, b: seq<T>, y: T, le: (T, T) -> bool)
    ensures Ties(a + b, y, le) == Ties(a, y, le) + Ties(b, y, le)
    decreases |a|
  {
    if |a| > 0 {
      assert (a + b)[0] == a[0];
      assert (a + b)[1..] == a[1..] + b;
      TiesConcat(a[1..], b, y, le);
    } else {
      assert a + b == b;
    }
  }

  /** No element of `s` is tied with `y`, so `s` contributes no ties. */
  lemma {:induction false} TiesNone<T>(s: seq<T>, y: T, le: (T, T) -> bool)
    requires forall k :: 0 <= k < |s| ==> !(le(s[k], y) && le(y, s[k]))
    ensures Ties(s, y, le) == []
    decreases |s|
  {
    if |s| > 0 {
      TiesNone(s[1..], y, le);
    }
  }

  /** `Insert` puts `x` after every element tied with it. */
  lemma {:induction false} InsertTies<T(!new)>(x: T, s: seq<T>, y: T, le: (T, T) -> bool)
    requires TotalPreorder(le)
    requires SortedBy(s, le)
    ensures Ties(Insert(x, s, le), y, le) == Ties(s, y, le) + Ties([x], y, le)
    decreases |s|
  {
    var tx := Ties([x], y, le);
    if |s| == 0 {
      assert Insert(x, s, le) == [x];
      TiesConcat([], [x], y, le);
    } else if !le(s[0], x) {
      assert Insert(x, s, le) == [x] + s;
      TiesConcat([x], s, y, le);
      if le(x, y) && le(y, x) {
        NoTiesAbove(x, s, y, le);
      } else {
        assert tx == [];
      }
    } else {
      var t := s[1..];
      var rest := Insert(x, t, le);
      assert Insert(x, s, le) == [s[0]] + rest;
      InsertTies(x, t, y, le);
      TiesConcat([s[0]], rest, y, le);
      TiesConcat([s[0]], t, y, le);
      assert s == [s[0]] + t;
    }
  }

  /** Above an element ranked before the head of a sorted list, nothing in it ties with that element. */
  lemma NoTiesAbove<T(!new)>(x: T, s: seq<T>, y: T, le: (T, T) -> bool)
    requires TotalPreorder(le)
    requires SortedBy(s, le) && |s| > 0 && !le(s[0], x)
    requires le(x, y) && le(y, x)
    ensures Ties(s, y, le) == []
  {
    forall k | 0 <= k < |s| ensures le(s[k], y) ==> le(s[0], x) {
      if k > 0 {
        assert le(s[0], s[k]);
      }
    }
    TiesNone(s, y, le);
  }

  /** Stability: elements that `le` ranks equal keep their relative order. */
  lemma {:induction false} SortStable<T(!new)>(s: seq<T>, y: T, le: (T, T) -> bool)
    requires TotalPreorder(le)
    ensures Ties(Sort(s, le), y, le) == Ties(s, y, le)
    decreases |s|
  {
    if |s| > 0 {
      var init := s[..|s| - 1];
      SortStable(init, y, le);
      InsertTies(s[|s| - 1], Sort(init, le), y, le);
      TiesSnoc(s, y, le);
    }
  }

  lemma TiesSnoc<T>(s: seq<T>, y: T, le: (T, T) -> bool)
    requires |s| > 0
    ensures Ties(s, y, le) == Ties(s[..|s| - 1], y, le) + Ties([s[|s| - 1]], y, le)
  {
    assert s == s[..|s| - 1] + [s[|s| - 1]];
    TiesConcat(s[..|s| - 1], [s[|s| - 1]], y, le);
  }

  // ---------------------------------------------------------------------------
  // De-duplication

  predicate NoDuplicates<T(==)>(s: seq<T>)
  {
    forall i, j :: 0 <= i < j < |s| ==> s[i] != s[j]
  }

  /** Index of the first occurrence of `x` in `s`. */
  function FirstIndex<T(==)>(s: seq<T>, x: T): (k: nat)
    requires x in s
    ensures k < |s| && s[k] == x && x !in s[..k]
  {
    if s[0] == x then 0
    else
      var k := 1 + FirstIndex(s[1..], x);
      assert s[1..][..k - 1] == s[1..k];
      assert s[..k] == [s[0]] + s[1..k];
      k
  }

  /** The distinct elements of `s` in order of first appearance (`Array.from(new Set(s))`). */
  function Distinct<T(==,!new)>(s: seq<T>): (r: seq<T>)
    ensures NoDuplicates(r)
    ensures forall x :: x in r <==> x in s
    ensures forall i, j :: 0 <= i < j < |r| ==> FirstIndex(s, r[i]) < FirstIndex(s, r[j])
    ensures |r| <= |s|
  {
    if |s| == 0 then []
    else
      var n := |s| - 1;
      var s' := s[..n];
      var d := Distinct(s');
      assert s == s' + [s[n]];
      assert forall x :: x in s <==> x in s' || x == s[n];
      FirstIndexInPrefix(s, n);
      if s[n] in d then d
      else
        FirstIndexUnique(s, s[n], n);
        d + [s[n]]
  }

  /** An element of a prefix is first found at the same place in the whole sequence. */
  lemma FirstIndexInPrefix<T>(s: seq<T>, n: nat)
    requires n <= |s|
    ensures forall x :: x in s[..n] ==> FirstIndex(s, x) == FirstIndex(s[..n], x)
  {
    forall x | x in s[..n] ensures FirstIndex(s, x) == FirstIndex(s[..n], x) {
      var k := FirstIndex(s[..n], x);
      assert s[..k] == s[..n][..k];
      FirstIndexUnique(s, x, k);
    }
  }

  lemma FirstIndexUnique<T>(s: seq<T>, x: T, k: nat)
    requires k < |s| && s[k] == x && x !in s[..k]
    ensures FirstIndex(s, x) == k
  {
  }

  // ---------------------------------------------------------------------------
  // Specific orders

  predicate RealLe(a: real, b: real) { a <= b }
  predicate RealGe(a: real, b: real) { a >= b }
  predicate IntLe(a: int, b: int) { a <= b }

  lemma RealLeTotal()
    ensures TotalPreorder(RealLe)
  {
  }

  lemma RealGeTotal()
    ensures TotalPreorder(RealGe)
  {
  }

  lemma StrLeTotal()
    ensures TotalPreorder(Strings.StrLe)
  {
    forall a, b ensures Strings.StrLe(a, b) || Strings.StrLe(b, a) {
      Strings.StrLeTotal(a, b);
    }
    forall a, b, c | Strings.StrLe(a, b) && Strings.StrLe(b, c) ensures Strings.StrLe(a, c) {
      Strings.StrLeTrans(a, b, c);
    }
  }

  /** Strictly increasing in `Strings.StrLe`. */
  predicate StrictlyAscending(s: seq<string>)
  {
    forall i, j :: 0 <= i < j < |s| ==> Strings.StrLt(s[i], s[j])
  }

  /** Python's `sorted(set(s))` for strings: each element once, in ascending order. */
  function SortedSet(s: seq<string>): (r: seq<string>)
    ensures StrictlyAscending(r)
    ensures forall x :: x in r <==> x in s
  {
    StrLeTotal();
    var d := Distinct(s);
    var r := Sort(d, Strings.StrLe);
    assert forall x :: x in r <==> x in d by {
      forall x ensures x in r <==> x in d {
        assert x in r <==> x in multiset(r);
        assert x in d <==> x in multiset(d);
      }
    }
    assert NoDuplicates(r) by {
      MultisetNoDuplicates(d, r);
    }
    r
  }

  lemma MultisetNoDuplicates<T>(d: seq<T>, r: seq<T>)
    requires NoDuplicates(d)
    requires multiset(d) == multiset(r)
    ensures NoDuplicates(r)
  {
    forall i, j | 0 <= i < j < |r| ensures r[i] != r[j] {
      if r[i] == r[j] {
        assert r == r[..j] + [r[j]] + r[j + 1..];
        assert r[..j][i] == r[i];
        assert multiset(r)[r[i]] >= 2 by {
          assert multiset(r) == multiset(r[..j]) + multiset{r[j]} + multiset(r[j + 1..]);
          assert r[i] in multiset(r[..j]);
        }
        NoDuplicatesCount(d, r[i]);
        assert false;
      }
    }
  }

  lemma {:induction false} NoDuplicatesCount<T>(d: seq<T>, x: T)
    requires NoDuplicates(d)
    ensures multiset(d)[x] <= 1
    decreases |d|
  {
    if |d| > 0 {
      var t := d[..|d| - 1];
      assert d == t + [d[|d| - 1]];
      NoDuplicatesCount(t, x);
      if x == d[|d| - 1] {
        assert x !in t;
      }
    }
  }
}
