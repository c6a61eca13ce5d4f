/** A value that may be absent: the source's None, nullptr and std::optional; and filtering,
    the source's list comprehensions with a condition. */
module Wrappers {

  datatype Option<+T> = None | Some(value: T)

  function Filter<T(!new)>(keep: T -> bool, s: seq<T>): (r: seq<T>)
    ensures forall x :: x in r <==> x in s && keep(x)
    ensures |r| <= |s|
  {
    if s == [] then [] else (if keep(s[0]) then [s[0]] else []) + Filter(keep, s[1..])
  }

  lemma {:induction false} FilterJoin<T(!new)>(keep: T -> bool, s: seq<T>, t: seq<T>)
    ensures Filter(keep, s + t) == Filter(keep, s) + Filter(keep, t)
  {
    if s == [] {
      assert s + t == t;
    } else {
      FilterJoin(keep, s[1..], t);
      hide Filter;
      FilterStep(keep, s);
      FilterStep(keep, s + t);
      assert (s + t)[1..] == s[1..] + t;
      Regroup(if keep(s[0]) then [s[0]] else [], Filter(keep, s[1..]), Filter(keep, t));
    }
  }

  lemma FilterAppend<T(!new)>(keep: T -> bool, s: seq<T>, x: T)
    ensures Filter(keep, s + [x]) == Filter(keep, s) + if keep(x) then [x] else []
  {
    FilterJoin(keep, s, [x]);
    assert [x][1..] == [];
  }

  lemma FilterStep<T(!new)>(keep: T -> bool, s: seq<T>)
    requires s != []
    ensures Filter(keep, s) == (if keep(s[0]) then [s[0]] else []) + Filter(keep, s[1..])
  {}

  lemma Regroup<T>(a: seq<T>, b: seq<T>, c: seq<T>)
    ensures a + b + c == a + (b + c)
  {}

  lemma {:induction false} AllKept<T(!new)>(keep: T -> bool, s: seq<T>)
    requires forall x :: x in s ==> keep(x)
    ensures Filter(keep, s) == s
  {
    if s != [] {
      assert s[0] in s && s == [s[0]] + s[1..];
      AllKept(keep, s[1..]);
    }
  }

  lemma {:induction false} NoneKept<T(!new)>(keep: T -> bool, s: seq<T>)
    requires forall x :: x in s ==> !keep(x)
    ensures Filter(keep, s) == []
  {
    if s != [] {
      assert s[0] in s && s == [s[0]] + s[1..];
      NoneKept(keep, s[1..]);
    }
  }

  ghost predicate SortedBy<T(!new)>(le: (T, T) -> bool, s: seq<T>) {
    forall i, j :: 0 <= i < j < |s| ==> le(s[i], s[j])
  }

  /** What a filter keeps stays in order. */
  lemma {:induction false} FilterSorted<T(!new)>(le: (T, T) -> bool, keep: T -> bool, s: seq<T>)
    requires SortedBy(le, s)
    ensures SortedBy(le, Filter(keep, s))
  {
    if s != [] {
      FilterSorted(le, keep, s[1..]);
      var rest := Filter(keep, s[1..]);
      forall x | x in rest ensures le(s[0], x) {
        var i :| 0 <= i < |s[1..]| && s[1..][i] == x;
        assert s[i + 1] == x;
      }
      assert Filter(keep, s) == if keep(s[0]) then [s[0]] + rest else rest;
    }
  }

  /** Two filters in either order. */
  lemma {:induction false} FiltersCommute<T(!new)>(a: T -> bool, b: T -> bool, s: seq<T>)
    ensures Filter(a, Filter(b, s)) == Filter(b, Filter(a, s))
  {
    if s != [] {
      FiltersCommute(a, b, s[1..]);
      FilterJoin(a, if b(s[0]) then [s[0]] else [], Filter(b, s[1..]));
      FilterJoin(b, if a(s[0]) then [s[0]] else [], Filter(a, s[1..]));
      assert [s[0]][1..] == [];
    }
  }

  lemma Larger<T>(a: set<T>, b: set<T>)
    requires a <= b
    ensures |a| <= |b|
  {
    assert b == a + (b - a);
  }
}
