/** The ordering the screens obtain from `Array.prototype.sort` with a
    comparator. That sort is stable: `a` stays before `b` whenever the
    comparator says `a` may come first. Here the comparator is the predicate
    `le(a, b)`, "the comparator's value for (a, b) is at most 0", and the
    sort is a stable insertion sort. */
module Sorting {
  import opened Common

  /** Every earlier element may come before every later one. */
  ghost predicate Sorted<T>(s: seq<T>, le: (T, T) -> bool) {
    forall i, j :: 0 <= i < j < |s| ==> le(s[i], s[j])
  }

  /** Any two elements can be ordered one way or the other. */
  ghost predicate Total<T(!new)>(le: (T, T) -> bool) {
    forall a, b :: le(a, b) || le(b, a)
  }

  ghost predicate Transitive<T(!new)>(le: (T, T) -> bool) {
    forall a, b, c :: le(a, b) && le(b, c) ==> le(a, c)
  }

  /** Places `x` before the first element it may precede. When `s` is
      sorted and `x` came before all of `s` in the input, ties keep `x` first. */
  function Insert<T>(x: T, s: seq<T>, le: (T, T) -> bool): (r: seq<T>)
    ensures multiset(r) == multiset(s) + multiset{x}
  {
    if s == [] then [x]
    else if le(x, s[0]) then [x] + s
    else
      assert s == [s[0]] + s[1..];
      [s[0]] + Insert(x, s[1..], le)
  }

  /** The stable sort of `s` under `le`. */
  function SortBy<T>(s: seq<T>, le: (T, T) -> bool): (r: seq<T>)
    ensures multiset(r) == multiset(s)
  {
    if s == [] then []
    else
      assert s == [s[0]] + s[1..];
      Insert(s[0], SortBy(s[1..], le), le)
  }

  lemma {:induction false} InsertSorted<T(!new)>(x: T, s: seq<T>, le: (T, T) -> bool)
    requires Total(le) && Transitive(le) && Sorted(s, le)
    ensures Sorted(Insert(x, s, le), le)
  {
    if s != [] && !le(x, s[0]) {
      var tail := Insert(x, s[1..], le);
      InsertSorted(x, s[1..], le);
      assert le(s[0], x);
      forall k | 0 <= k < |tail| ensures le(s[0], tail[k]) {
        assert tail[k] in multiset(tail);
        assert tail[k] == x || tail[k] in multiset(s[1..]);
        if tail[k] != x {
          assert tail[k] in s[1..];
        }
      }
    }
  }

  /** With a total, transitive comparator, the result is in order. */
  lemma {:induction false} SortBySorted<T(!new)>(s: seq<T>, le: (T, T) -> bool)
    requires Total(le) && Transitive(le)
    ensures Sorted(SortBy(s, le), le)
  {
    if s != [] {
      SortBySorted(s[1..], le);
      InsertSorted(s[0], SortBy(s[1..], le), le);
    }
  }

  /** A comparator that always answers 0 (every element may precede every
      other) leaves the input order unchanged. */
  lemma {:induction false} SortByAllTies<T>(s: seq<T>, le: (T, T) -> bool)
    requires forall i, j :: 0 <= i < |s| && 0 <= j < |s| ==> le(s[i], s[j])
    ensures SortBy(s, le) == s
  {
    if s != [] {
      SortByAllTies(s[1..], le);
      assert SortBy(s[1..], le) == s[1..];
      if |s| > 1 {
        assert le(s[0], s[1]);
      }
    }
  }

  /** Inserting an element the filter drops leaves the filtered sequence as it was. */
  lemma {:induction false} InsertDropped<T>(x: T, s: seq<T>, le: (T, T) -> bool, keep: T -> bool)
    requires !keep(x)
    ensures Filter(Insert(x, s, le), keep) == Filter(s, keep)
  {
    if s == [] {
      assert Filter([x], keep) == Filter([x][1..], keep);
    } else if le(x, s[0]) {
      assert ([x] + s)[1..] == s;
    } else {
      var t := [s[0]] + Insert(x, s[1..], le);
      assert t[0] == s[0] && t[1..] == Insert(x, s[1..], le);
      InsertDropped(x, s[1..], le, keep);
    }
  }

  /** An element the filter keeps lands before every kept element, when the
      comparator lets any two kept elements come in either order. */
  lemma {:induction false} InsertKept<T>(x: T, s: seq<T>, le: (T, T) -> bool, keep: T -> bool)
    requires keep(x)
    requires forall a, b :: keep(a) && keep(b) ==> le(a, b)
    ensures Filter(Insert(x, s, le), keep) == [x] + Filter(s, keep)
  {
    if s == [] {
      assert Filter([x], keep) == [x] + Filter([x][1..], keep);
    } else if le(x, s[0]) {
      assert ([x] + s)[0] == x && ([x] + s)[1..] == s;
    } else {
      assert !keep(s[0]);
      var t := [s[0]] + Insert(x, s[1..], le);
      assert t[0] == s[0] && t[1..] == Insert(x, s[1..], le);
      InsertKept(x, s[1..], le, keep);
    }
  }

  /** Stability: elements the comparator cannot tell apart (any two of them
      may come in either order) keep their input order. */
  lemma {:induction false} SortByStable<T>(s: seq<T>, le: (T, T) -> bool, keep: T -> bool)
    requires forall a, b :: keep(a) && keep(b) ==> le(a, b)
    ensures Filter(SortBy(s, le), keep) == Filter(s, keep)
  {
    if s != [] {
      SortByStable(s[1..], le, keep);
      if keep(s[0]) {
        InsertKept(s[0], SortBy(s[1..], le), le, keep);
      } else {
        InsertDropped(s[0], SortBy(s[1..], le), le, keep);
      }
    }
  }
}
