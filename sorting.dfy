/**
 * `Array.prototype.sort` with a comparator, as the client pages use it. The
 * engines the client targets sort stably, so the model is a stable insertion
 * sort driven by `le(a, b)`: "the comparator does not put b before a".
 */
module Sorting {

  /** Puts `x` in front of the first element `y` of `s` with `le(x, y)`. */
  function Insert<T>(x: T, s: seq<T>, le: (T, T) -> bool): (r: seq<T>)
    ensures |r| == |s| + 1
  {
    if s == [] || le(x, s[0]) then [x] + s
    else [s[0]] + Insert(x, s[1..], le)
  }

  lemma {:induction false} InsertPermutes<T>(x: T, s: seq<T>, le: (T, T) -> bool)
    ensures multiset(Insert(x, s, le)) == multiset(s) + multiset{x}
  {
    if s != [] && !le(x, s[0]) {
      InsertPermutes(x, s[1..], le);
      assert s == [s[0]] + s[1..];
    }
  }

  /** The stable sort of `s` under `le`. */
  function SortBy<T>(s: seq<T>, le: (T, T) -> bool): (r: seq<T>)
    ensures |r| == |s|
  {
    if s == [] then [] else Insert(s[0], SortBy(s[1..], le), le)
  }

  /** The sorted list is a permutation of the input. */
  lemma {:induction false} SortByPermutes<T>(s: seq<T>, le: (T, T) -> bool)
    ensures multiset(SortBy(s, le)) == multiset(s)
  {
    if s != [] {
      SortByPermutes(s[1..], le);
      InsertPermutes(s[0], SortBy(s[1..], le), le);
      assert s == [s[0]] + s[1..];
    }
  }

  lemma InsertBefore<T>(x: T, y: T, rest: seq<T>, le: (T, T) -> bool)
    requires le(x, y)
    ensures Insert(x, [y] + rest, le) == [x, y] + rest
  {
  }

  lemma InsertAfter<T>(x: T, y: T, rest: seq<T>, le: (T, T) -> bool)
    requires !le(x, y)
    ensures Insert(x, [y] + rest, le) == [y] + Insert(x, rest, le)
  {
    assert ([y] + rest)[1..] == rest;
  }

  /** `x` goes after every element of `t` it may not precede, and before `u`. */
  lemma {:induction false} InsertAfterPrefix<T>(x: T, t: seq<T>, u: seq<T>, le: (T, T) -> bool)
    requires forall i :: 0 <= i < |t| ==> !le(x, t[i])
    requires u == [] || le(x, u[0])
    ensures Insert(x, t + u, le) == t + [x] + u
  {
    if t == [] {
      assert t + u == u;
    } else {
      assert (t + u)[0] == t[0];
      assert (t + u)[1..] == t[1..] + u;
      InsertAfterPrefix(x, t[1..], u, le);
      assert t == [t[0]] + t[1..];
    }
  }

  lemma SortByCons<T>(x: T, rest: seq<T>, le: (T, T) -> bool)
    ensures SortBy([x] + rest, le) == Insert(x, SortBy(rest, le), le)
  {
    assert ([x] + rest)[1..] == rest;
  }

  /** `le` is total and transitive: what a consistent comparator gives. */
  ghost predicate TotalPreorder<T(!new)>(le: (T, T) -> bool) {
    && (forall a, b :: le(a, b) || le(b, a))
    && (forall a, b, c :: le(a, b) && le(b, c) ==> le(a, c))
  }

  ghost predicate Sorted<T>(s: seq<T>, le: (T, T) -> bool) {
    forall i, j :: 0 <= i < j < |s| ==> le(s[i], s[j])
  }

  lemma {:induction false} InsertSorted<T(!new)>(x: T, s: seq<T>, le: (T, T) -> bool)
    requires TotalPreorder(le) && Sorted(s, le)
    ensures Sorted(Insert(x, s, le), le)
  {
    if s == [] || le(x, s[0]) {
    } else {
      var t := Insert(x, s[1..], le);
      InsertSorted(x, s[1..], le);
      InsertPermutes(x, s[1..], le);
      forall k | 0 <= k < |t| ensures le(s[0], t[k]) {
        assert t[k] in multiset(t);
        if t[k] != x {
          assert t[k] in multiset(s[1..]);
          var j :| 0 <= j < |s[1..]| && s[1..][j] == t[k];
          assert s[j + 1] == t[k];
        }
      }
      var r := [s[0]] + t;
      forall i, j | 0 <= i < j < |r| ensures le(r[i], r[j]) {
        if i > 0 {
          assert r[i] == t[i - 1] && r[j] == t[j - 1];
        } else {
          assert r[j] == t[j - 1];
        }
      }
    }
  }

  /** With a consistent comparator the output is in order. */
  lemma {:induction false} SortBySorted<T(!new)>(s: seq<T>, le: (T, T) -> bool)
    requires TotalPreorder(le)
    ensures Sorted(SortBy(s, le), le)
  {
    if s != [] {
      SortBySorted(s[1..], le);
      InsertSorted(s[0], SortBy(s[1..], le), le);
    }
  }

  /** Two sorted arrangements of the same values are one list when `le`
      ranks no two different values among them equal. */
  lemma {:induction false} SortedUnique<T(!new)>(s: seq<T>, t: seq<T>, le: (T, T) -> bool)
    requires Sorted(s, le) && Sorted(t, le) && multiset(s) == multiset(t)
    requires forall a, b :: a in multiset(s) && b in multiset(s) && le(a, b) && le(b, a) ==> a == b
    ensures s == t
  {
    if s != [] {
      assert |t| == |multiset(t)| == |s|;
      SortedHeadLeast(t, le, s[0]);
      SortedHeadLeast(s, le, t[0]);
      assert s[0] == t[0];
      SameTails(s, t);
      SortedTail(s, le);
      SortedTail(t, le);
      SortedUnique(s[1..], t[1..], le);
    }
  }

  /** The head of a sorted list is ranked no higher than any of its values. */
  lemma SortedHeadLeast<T>(s: seq<T>, le: (T, T) -> bool, x: T)
    requires Sorted(s, le) && x in multiset(s)
    ensures s != [] && (s[0] == x || le(s[0], x))
  {
    var j :| 0 <= j < |s| && s[j] == x;
    if j > 0 {
      assert le(s[0], s[j]);
    }
  }

  lemma SortedTail<T>(s: seq<T>, le: (T, T) -> bool)
    requires s != [] && Sorted(s, le)
    ensures Sorted(s[1..], le)
  {
  }

  /** Equal heads and equal multisets leave equal tail multisets, drawn from the whole. */
  lemma SameTails<T>(s: seq<T>, t: seq<T>)
    requires s != [] && t != [] && s[0] == t[0] && multiset(s) == multiset(t)
    ensures multiset(s[1..]) == multiset(t[1..]) && multiset(s[1..]) <= multiset(s)
  {
    assert s == [s[0]] + s[1..];
    assert t == [t[0]] + t[1..];
    assert multiset(s) == multiset{s[0]} + multiset(s[1..]);
    assert multiset(t) == multiset{t[0]} + multiset(t[1..]);
    forall x ensures multiset(s[1..])[x] == multiset(t[1..])[x] {
      assert multiset(s)[x] == multiset{s[0]}[x] + multiset(s[1..])[x];
      assert multiset(t)[x] == multiset{t[0]}[x] + multiset(t[1..])[x];
    }
  }

  /** A comparator that ranks everything equal (`return 0`) keeps the input order. */
  lemma {:induction false} SortByAllEqual<T>(s: seq<T>, le: (T, T) -> bool)
    requires forall a, b :: le(a, b)
    ensures SortBy(s, le) == s
  {
    if s != [] {
      SortByAllEqual(s[1..], le);
    }
  }
}
