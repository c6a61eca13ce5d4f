/** Stable ordering in bounded batches (search_batches.py), against one native stable sort. */
module SearchBatches {

  const BATCH_SIZE: nat := 32

  /** A reflexive, total and transitive comparison of sort keys. */
  ghost predicate TotalPreorder<T(!new)>(le: (T, T) -> bool) {
    && (forall a, b :: le(a, b) || le(b, a))
    && (forall a, b, c :: le(a, b) && le(b, c) ==> le(a, c))
  }

  /** The tuples the batches hold: the key is a function of the value, so only the
      position is kept beside it. */
  datatype Tagged<T> = Tagged(position: nat, value: T)

  /** Tuple order: first by key, then by position; positions never repeat, so the value
      itself is never compared. */
  predicate Before<T>(le: (T, T) -> bool, a: Tagged<T>, b: Tagged<T>) {
    le(a.value, b.value) && (!le(b.value, a.value) || a.position < b.position)
  }

  ghost predicate Ascending<T(!new)>(le: (T, T) -> bool, s: seq<Tagged<T>>) {
    forall i, j :: 0 <= i < j < |s| ==> Before(le, s[i], s[j])
  }

  function Tag<T>(values: seq<T>): (r: seq<Tagged<T>>)
    ensures |r| == |values|
    ensures forall i :: 0 <= i < |r| ==> r[i] == Tagged(i, values[i])
  {
    seq(|values|, i requires 0 <= i < |values| => Tagged(i, values[i]))
  }

  function Untag<T>(s: seq<Tagged<T>>): (r: seq<T>)
    ensures |r| == |s|
    ensures forall i :: 0 <= i < |r| ==> r[i] == s[i].value
  {
    seq(|s|, i requires 0 <= i < |s| => s[i].value)
  }

  ghost function Elements<T(!new)>(s: seq<Tagged<T>>): set<Tagged<T>> {
    set i | 0 <= i < |s| :: s[i]
  }

  // ---------------------------------------------------------------------------------
  // The native stable sort, as insertion from the left.

  function InsertLast<T>(le: (T, T) -> bool, s: seq<T>, x: T): (r: seq<T>)
    ensures |r| == |s| + 1
  {
    if s == [] then [x]
    else if le(s[|s| - 1], x) then s + [x]
    else InsertLast(le, s[..|s| - 1], x) + [s[|s| - 1]]
  }

  function StableSort<T>(le: (T, T) -> bool, values: seq<T>): (r: seq<T>)
    ensures |r| == |values|
  {
    if values == [] then [] else InsertLast(le, StableSort(le, values[..|values| - 1]), values[|values| - 1])
  }

  /** What makes a sort stable and correct: the result lists every input position once,
      in increasing (key, position) order. */
  ghost predicate IsStableOrder<T(!new)>(le: (T, T) -> bool, values: seq<T>, s: seq<Tagged<T>>) {
    Ascending(le, s) && Elements(s) == Elements(Tag(values))
  }

  lemma {:induction false} BeforeTransitive<T(!new)>(le: (T, T) -> bool, a: Tagged<T>, b: Tagged<T>, c: Tagged<T>)
    requires TotalPreorder(le) && Before(le, a, b) && Before(le, b, c)
    ensures Before(le, a, c)
  {
    if le(c.value, a.value) {
      assert le(b.value, a.value) && le(c.value, b.value);
    }
  }

  lemma {:induction false} InsertKeepsStableOrder<T(!new)>(le: (T, T) -> bool, s: seq<Tagged<T>>, x: Tagged<T>)
    returns (r: seq<Tagged<T>>)
    requires TotalPreorder(le) && Ascending(le, s)
    requires forall i :: 0 <= i < |s| ==> s[i].position < x.position
    ensures Ascending(le, r) && Elements(r) == Elements(s) + {x}
    ensures Untag(r) == InsertLast(le, Untag(s), x.value)
  {
    if s == [] {
      r := [x];
      assert r[0] in Elements(r);
    } else {
      var last, front := s[|s| - 1], s[..|s| - 1];
      SplitLast(s);
      if le(last.value, x.value) {
        AppendAscending(le, s, x);
        r := s + [x];
        assert Untag(r) == Untag(s) + [x.value];
      } else {
        var q := InsertKeepsStableOrder(le, front, x);
        forall i | 0 <= i < |q| ensures Before(le, q[i], last) {
          assert q[i] in Elements(front) + {x};
        }
        AppendsElement(q, last);
        r := q + [last];
        assert Untag(s)[..|s| - 1] == Untag(front);
        assert Untag(r) == Untag(q) + [last.value];
      }
    }
  }

  lemma AppendAscending<T(!new)>(le: (T, T) -> bool, s: seq<Tagged<T>>, x: Tagged<T>)
    requires TotalPreorder(le) && Ascending(le, s) && s != []
    requires Before(le, s[|s| - 1], x)
    ensures Ascending(le, s + [x]) && Elements(s + [x]) == Elements(s) + {x}
  {
    AppendsElement(s, x);
    forall i | 0 <= i < |s| ensures Before(le, s[i], x) {
      if i < |s| - 1 { BeforeTransitive(le, s[i], s[|s| - 1], x); }
    }
  }

  lemma AppendsElement<T(!new)>(s: seq<Tagged<T>>, x: Tagged<T>)
    ensures Elements(s + [x]) == Elements(s) + {x}
  {
    var r := s + [x];
    SplitLast(r);
    assert r[..|r| - 1] == s;
  }

  lemma SplitLast<T(!new)>(s: seq<Tagged<T>>)
    requires s != []
    ensures Elements(s) == Elements(s[..|s| - 1]) + {s[|s| - 1]}
  {
    var front := s[..|s| - 1];
    forall t | t in Elements(s) ensures t in Elements(front) + {s[|s| - 1]} {
      var i :| 0 <= i < |s| && s[i] == t;
      if i < |front| { assert front[i] == t; }
    }
    forall t | t in Elements(front) ensures t in Elements(s) {
      var i :| 0 <= i < |front| && front[i] == t;
      assert s[i] == t;
    }
    assert s[|s| - 1] in Elements(s);
  }

  /** The insertion sort is a stable sort in the sense of IsStableOrder. */
  lemma {:induction false} StableSortIsStable<T(!new)>(le: (T, T) -> bool, values: seq<T>)
    returns (s: seq<Tagged<T>>)
    requires TotalPreorder(le)
    ensures IsStableOrder(le, values, s) && Untag(s) == StableSort(le, values)
  {
    if values == [] {
      s := [];
    } else {
      var n := |values| - 1;
      var q := StableSortIsStable(le, values[..n]);
      forall i | 0 <= i < |q| ensures q[i].position < n {
        assert q[i] in Elements(Tag(values[..n]));
      }
      s := InsertKeepsStableOrder(le, q, Tagged(n, values[n]));
      SplitLast(Tag(values));
      assert Tag(values)[..n] == Tag(values[..n]);
    }
  }

  /** A stable order is unique, so any two ways of reaching one agree. */
  lemma StableOrderUnique<T(!new)>(le: (T, T) -> bool, s: seq<Tagged<T>>, t: seq<Tagged<T>>)
    requires Ascending(le, s) && Ascending(le, t) && Elements(s) == Elements(t)
    ensures s == t
  {
    var before := (a: Tagged<T>, b: Tagged<T>) => Before(le, a, b);
    assert forall x :: x in s <==> x in Elements(s);
    assert forall x :: x in t <==> x in Elements(t);
    IncreasingUnique(before, s, t);
  }

  // ---------------------------------------------------------------------------------
  // cooperative_sorted: sorted runs of BATCH_SIZE, then a k-way merge of the runs.

  ghost function Pending<T(!new)>(runs: seq<seq<Tagged<T>>>, cursors: seq<nat>): set<Tagged<T>>
    requires |cursors| == |runs| && forall k :: 0 <= k < |runs| ==> cursors[k] <= |runs[k]|
  {
    set k, i | 0 <= k < |runs| && cursors[k] <= i < |runs[k]| :: runs[k][i]
  }

  ghost predicate Cursors<T(!new)>(runs: seq<seq<Tagged<T>>>, cursors: seq<nat>) {
    |cursors| == |runs| && forall k :: 0 <= k < |runs| ==> cursors[k] <= |runs[k]|
  }

  /** Sort one batch of tagged values by (key, position), as sorted(batch) does. */
  method SortBatch<T(!new)>(le: (T, T) -> bool, batch: seq<Tagged<T>>) returns (r: seq<Tagged<T>>)
    requires TotalPreorder(le)
    requires forall i, j :: 0 <= i < j < |batch| ==> batch[i].position < batch[j].position
    ensures Ascending(le, r) && Elements(r) == Elements(batch)
  {
    r := [];
    for n := 0 to |batch|
      invariant Ascending(le, r) && Elements(r) == Elements(batch[..n])
    {
      var k := |r|;
      while k > 0 && Before(le, batch[n], r[k - 1])
        invariant 0 <= k <= |r|
        invariant forall i :: k <= i < |r| ==> Before(le, batch[n], r[i])
      {
        k := k - 1;
      }
      forall i | 0 <= i < k ensures Before(le, r[i], batch[n]) {
        assert r[i] in Elements(batch[..n]);
        assert r[k - 1] in Elements(batch[..n]);
        if i < k - 1 { BeforeTransitive(le, r[i], r[k - 1], batch[n]); }
      }
      ghost var old_r := r;
      r := r[..k] + [batch[n]] + r[k..];
      InsertedElements(old_r, k, batch[n]);
      assert batch[..n + 1][..n] == batch[..n];
      SplitLast(batch[..n + 1]);
    }
    assert batch[..|batch|] == batch;
  }

  lemma InsertedElements<T(!new)>(s: seq<Tagged<T>>, k: nat, x: Tagged<T>)
    requires k <= |s|
    ensures Elements(s[..k] + [x] + s[k..]) == Elements(s) + {x}
  {
    var r := s[..k] + [x] + s[k..];
    forall t | t in Elements(s) + {x} ensures t in Elements(r) {
      if t == x { assert r[k] == x; } else {
        var i :| 0 <= i < |s| && s[i] == t;
        assert r[if i < k then i else i + 1] == t;
      }
    }
    forall t | t in Elements(r) ensures t in Elements(s) + {x} {
      var i :| 0 <= i < |r| && r[i] == t;
      if i != k { assert s[if i < k then i else i - 1] == t; }
    }
  }

  /** The run whose head comes first: what heapq.merge pops next. */
  method FirstHead<T(!new)>(le: (T, T) -> bool, runs: seq<seq<Tagged<T>>>, cursors: seq<nat>) returns (best: nat, found: bool)
    requires TotalPreorder(le) && Cursors(runs, cursors)
    requires forall k :: 0 <= k < |runs| ==> Ascending(le, runs[k])
    requires forall a, b :: a in Pending(runs, cursors) && b in Pending(runs, cursors) && a != b ==> a.position != b.position
    ensures !found ==> Pending(runs, cursors) == {}
    ensures found ==> best < |runs| == |cursors| && cursors[best] < |runs[best]|
    ensures found ==> forall t :: t in Pending(runs, cursors) && t != runs[best][cursors[best]] ==>
                                    Before(le, runs[best][cursors[best]], t)
  {
    best, found := 0, false;
    for k := 0 to |runs|
      invariant !found ==> forall j :: 0 <= j < k ==> cursors[j] == |runs[j]|
      invariant found ==> best < k && cursors[best] < |runs[best]|
      invariant found ==> forall j :: 0 <= j < k && j != best && cursors[j] < |runs[j]| ==>
                                        runs[j][cursors[j]] == runs[best][cursors[best]]
                                        || Before(le, runs[best][cursors[best]], runs[j][cursors[j]])
    {
      if cursors[k] < |runs[k]| {
        assert runs[k][cursors[k]] in Pending(runs, cursors);
        if found { assert runs[best][cursors[best]] in Pending(runs, cursors); }
        if !found || Before(le, runs[k][cursors[k]], runs[best][cursors[best]]) {
          if found {
            forall j | 0 <= j < k && j != best && cursors[j] < |runs[j]|
              ensures Before(le, runs[k][cursors[k]], runs[j][cursors[j]])
            {
              if runs[j][cursors[j]] != runs[best][cursors[best]] {
                BeforeTransitive(le, runs[k][cursors[k]], runs[best][cursors[best]], runs[j][cursors[j]]);
              }
            }
          }
          best, found := k, true;
        }
      }
    }
    if found {
      var h := runs[best][cursors[best]];
      forall t | t in Pending(runs, cursors) && t != h ensures Before(le, h, t) {
        var k, i :| 0 <= k < |runs| && cursors[k] <= i < |runs[k]| && runs[k][i] == t;
        if i > cursors[k] {
          assert Before(le, runs[k][cursors[k]], runs[k][i]);
          if k != best && runs[k][cursors[k]] != h {
            BeforeTransitive(le, h, runs[k][cursors[k]], t);
          }
        }
      }
    }
  }

  lemma TakenFromPending<T(!new)>(le: (T, T) -> bool, runs: seq<seq<Tagged<T>>>, cursors: seq<nat>, best: nat)
    requires Cursors(runs, cursors) && best < |runs| && cursors[best] < |runs[best]|
    ensures Pending(runs, cursors) == Pending(runs, cursors[best := cursors[best] + 1]) + {runs[best][cursors[best]]}
  {
    var next := cursors[best := cursors[best] + 1];
    var h := runs[best][cursors[best]];
    forall t | t in Pending(runs, cursors) ensures t in Pending(runs, next) + {h} {
      var k, i :| 0 <= k < |runs| && cursors[k] <= i < |runs[k]| && runs[k][i] == t;
      if t != h { assert next[k] <= i; }
    }
  }

  function Remaining<T>(runs: seq<seq<Tagged<T>>>, cursors: seq<nat>): (n: nat)
    requires |cursors| == |runs| && forall k :: 0 <= k < |runs| ==> cursors[k] <= |runs[k]|
  {
    if runs == [] then 0 else |runs[0]| - cursors[0] + Remaining(runs[1..], cursors[1..])
  }

  lemma {:induction false} RemainingDrops<T>(runs: seq<seq<Tagged<T>>>, cursors: seq<nat>, best: nat)
    requires |cursors| == |runs| && forall k :: 0 <= k < |runs| ==> cursors[k] <= |runs[k]|
    requires best < |runs| && cursors[best] < |runs[best]|
    ensures Remaining(runs, cursors[best := cursors[best] + 1]) < Remaining(runs, cursors)
  {
    var next := cursors[best := cursors[best] + 1];
    if best == 0 {
      assert next[1..] == cursors[1..];
    } else {
      RemainingDrops(runs[1..], cursors[1..], best - 1);
      assert next[1..] == cursors[1..][best - 1 := cursors[best] + 1];
    }
  }

  /** Runs that are sorted and share no position. */
  ghost predicate Separate<T(!new)>(le: (T, T) -> bool, runs: seq<seq<Tagged<T>>>) {
    && (forall k :: 0 <= k < |runs| ==> Ascending(le, runs[k]))
    && (forall k, l, i, j :: 0 <= k < l < |runs| && 0 <= i < |runs[k]| && 0 <= j < |runs[l]| ==>
                               runs[k][i].position != runs[l][j].position)
  }

  /** What the merge has popped precedes everything still pending, and nothing is missing. */
  ghost predicate Merging<T(!new)>(le: (T, T) -> bool, ordered: seq<Tagged<T>>, rest: set<Tagged<T>>, all: set<Tagged<T>>) {
    && Ascending(le, ordered) && Elements(ordered) + rest == all
    && (forall i, t :: 0 <= i < |ordered| && t in rest ==> Before(le, ordered[i], t))
  }

  lemma Popped<T(!new)>(le: (T, T) -> bool, ordered: seq<Tagged<T>>, rest: set<Tagged<T>>, head: Tagged<T>, less: set<Tagged<T>>, all: set<Tagged<T>>)
    requires Merging(le, ordered, rest, all) && rest == less + {head} && head !in less
    requires forall t :: t in rest && t != head ==> Before(le, head, t)
    ensures Merging(le, ordered + [head], less, all)
  {
    AppendsElement(ordered, head);
  }

  /** heapq.merge of sorted runs: every pending element, in ascending order. */
  method MergeRuns<T(!new)>(le: (T, T) -> bool, runs: seq<seq<Tagged<T>>>, ghost all: set<Tagged<T>>)
    returns (ordered: seq<Tagged<T>>)
    requires TotalPreorder(le) && Separate(le, runs)
    requires forall a, b :: a in all && b in all && a != b ==> a.position != b.position
    requires Pending(runs, seq(|runs|, _ => 0)) == all
    ensures Ascending(le, ordered) && Elements(ordered) == all
  {
    hide Before, TotalPreorder, Pending, Ascending;
    var cursors: seq<nat> := seq(|runs|, _ => 0);
    ordered := [];
    var best: nat, found: bool := FirstHead(le, runs, cursors);
    NothingMerged(le, all);
    while found
      invariant |cursors| == |runs| && Cursors(runs, cursors) && Merging(le, ordered, Pending(runs, cursors), all)
      invariant !found ==> Pending(runs, cursors) == {}
      invariant found ==> best < |runs| && cursors[best] < |runs[best]|
      invariant found ==> forall t :: t in Pending(runs, cursors) && t != runs[best][cursors[best]] ==>
                                        Before(le, runs[best][cursors[best]], t)
      decreases Remaining(runs, cursors), found
    {
      var head := runs[best][cursors[best]];
      TakenFromPending(le, runs, cursors, best);
      RemainingDrops(runs, cursors, best);
      HeadLeaves(le, runs, cursors, best);
      ghost var rest := Pending(runs, cursors);
      cursors := cursors[best := cursors[best] + 1];
      Popped(le, ordered, rest, head, Pending(runs, cursors), all);
      ordered := ordered + [head];
      best, found := FirstHead(le, runs, cursors);
    }
  }

  lemma NothingMerged<T(!new)>(le: (T, T) -> bool, all: set<Tagged<T>>)
    ensures Merging(le, [], all, all)
  {}

  lemma HeadLeaves<T(!new)>(le: (T, T) -> bool, runs: seq<seq<Tagged<T>>>, cursors: seq<nat>, best: nat)
    requires Cursors(runs, cursors) && best < |runs| && cursors[best] < |runs[best]| && Separate(le, runs)
    ensures runs[best][cursors[best]] !in Pending(runs, cursors[best := cursors[best] + 1])
  {
    var next := cursors[best := cursors[best] + 1];
    var h := runs[best][cursors[best]];
    forall t | t in Pending(runs, next) ensures t != h {
      var k, i :| 0 <= k < |runs| && next[k] <= i < |runs[k]| && runs[k][i] == t;
      if k == best {
        assert Before(le, h, runs[best][i]);
      }
    }
  }

  /** The runs cut from the first n values: each sorted, positions split in blocks. */
  ghost predicate Runs<T(!new)>(le: (T, T) -> bool, values: seq<T>, runs: seq<seq<Tagged<T>>>, n: nat) {
    && n <= |values|
    && (forall k :: 0 <= k < |runs| ==> Ascending(le, runs[k]) && CutFrom(values, runs[k], n))
    && (forall k, l, i, j :: 0 <= k < l < |runs| && 0 <= i < |runs[k]| && 0 <= j < |runs[l]| ==>
                               runs[k][i].position < runs[l][j].position)
    && (forall p :: 0 <= p < n ==> Listed(runs, Tagged(p, values[p])))
  }

  ghost predicate CutFrom<T(!new)>(values: seq<T>, run: seq<Tagged<T>>, n: nat) {
    forall i :: 0 <= i < |run| ==>
                  run[i].position < n && run[i].position < |values| && run[i].value == values[run[i].position]
  }

  ghost predicate Listed<T(!new)>(runs: seq<seq<Tagged<T>>>, t: Tagged<T>) {
    exists k, i :: 0 <= k < |runs| && 0 <= i < |runs[k]| && runs[k][i] == t
  }

  lemma RunAppended<T(!new)>(le: (T, T) -> bool, values: seq<T>, runs: seq<seq<Tagged<T>>>, n: nat, m: nat, run: seq<Tagged<T>>)
    requires Runs(le, values, runs, n) && n <= m <= |values|
    requires Ascending(le, run) && Elements(run) == Elements(Tag(values)[n..m])
    ensures Runs(le, values, runs + [run], m)
  {
    hide Ascending;
    var more := runs + [run];
    forall i | 0 <= i < |run| ensures n <= run[i].position < m && run[i].value == values[run[i].position] {
      assert run[i] in Elements(Tag(values)[n..m]);
    }
    forall p | 0 <= p < m ensures Listed(more, Tagged(p, values[p])) {
      RunLists(values, runs, n, m, run, p);
    }
  }

  lemma RunLists<T(!new)>(values: seq<T>, runs: seq<seq<Tagged<T>>>, n: nat, m: nat, run: seq<Tagged<T>>, p: nat)
    requires p < m <= |values| && n <= m && (p < n ==> Listed(runs, Tagged(p, values[p])))
    requires Elements(run) == Elements(Tag(values)[n..m])
    ensures Listed(runs + [run], Tagged(p, values[p]))
  {
    var more, t := runs + [run], Tagged(p, values[p]);
    if p < n {
      var k, i :| 0 <= k < |runs| && 0 <= i < |runs[k]| && runs[k][i] == t;
      assert more[k][i] == t;
    } else {
      assert Tag(values)[n..m][p - n] == t;
      assert t in Elements(run);
      var i :| 0 <= i < |run| && run[i] == t;
      assert more[|runs|][i] == t;
    }
  }

  /** cooperative_sorted returns exactly what the native stable sort returns, so the
      synchronous and the cooperative consumers see the same sequence. */
  method CooperativeSorted<T(!new)>(values: seq<T>, le: (T, T) -> bool) returns (ordered: seq<T>)
    requires TotalPreorder(le)
    ensures ordered == StableSort(le, values)
  {
    hide Before, TotalPreorder, Runs, Ascending, Elements;
    NoRuns(le, values);
    var runs: seq<seq<Tagged<T>>> := [];
    var batch: seq<Tagged<T>> := [];
    for position := 0 to |values|
      invariant |batch| < BATCH_SIZE && |batch| <= position
      invariant batch == Tag(values)[position - |batch|..position]
      invariant Runs(le, values, runs, position - |batch|)
    {
      batch := batch + [Tagged(position, values[position])];
      assert batch == Tag(values)[position + 1 - |batch|..position + 1];
      if |batch| == BATCH_SIZE {
        var run := SortBatch(le, batch);
        RunAppended(le, values, runs, position + 1 - |batch|, position + 1, run);
        runs := runs + [run];
        batch := [];
      }
    }
    if batch != [] {
      var run := SortBatch(le, batch);
      RunAppended(le, values, runs, |values| - |batch|, |values|, run);
      runs := runs + [run];
    }
    ghost var all := Elements(Tag(values));
    RunsHoldEverything(le, values, runs);
    var merged := MergeRuns(le, runs, all);
    ghost var native := StableSortIsStable(le, values);
    StableOrderUnique(le, merged, native);
    ordered := Untag(merged);
  }

  lemma NoRuns<T(!new)>(le: (T, T) -> bool, values: seq<T>)
    ensures Runs(le, values, [], 0)
  {}

  lemma RunsHoldEverything<T(!new)>(le: (T, T) -> bool, values: seq<T>, runs: seq<seq<Tagged<T>>>)
    requires Runs(le, values, runs, |values|)
    ensures Separate(le, runs) && Pending(runs, seq(|runs|, _ => 0)) == Elements(Tag(values))
    ensures forall a, b :: a in Elements(Tag(values)) && b in Elements(Tag(values)) && a != b ==> a.position != b.position
  {
    hide Ascending;
    var zero: seq<nat> := seq(|runs|, _ => 0);
    forall t | t in Pending(runs, zero) ensures t in Elements(Tag(values)) {
      var k, i :| 0 <= k < |runs| && 0 <= i < |runs[k]| && runs[k][i] == t;
      assert CutFrom(values, runs[k], |values|);
      assert Tag(values)[t.position] == t;
    }
    forall t | t in Elements(Tag(values)) ensures t in Pending(runs, zero) {
      assert t == Tagged(t.position, values[t.position]);
      assert Listed(runs, t);
    }
  }

  /** What a consumer may rely on: the same values, no more often, in key order. */
  lemma StableSortOrders<T(!new)>(le: (T, T) -> bool, values: seq<T>)
    requires TotalPreorder(le)
    ensures var r := StableSort(le, values);
            && (forall i, j :: 0 <= i < j < |r| ==> le(r[i], r[j]))
            && (forall x :: x in r <==> x in values)
            && ((forall i, j :: 0 <= i < j < |values| ==> values[i] != values[j]) ==>
                  forall i, j :: 0 <= i < j < |r| ==> r[i] != r[j])
  {
    var s := StableSortIsStable(le, values);
    var r := StableSort(le, values);
    forall x | x in r ensures x in values {
      var i :| 0 <= i < |r| && r[i] == x;
      assert s[i] in Elements(Tag(values));
    }
    forall x | x in values ensures x in r {
      var p :| 0 <= p < |values| && values[p] == x;
      assert Tag(values)[p] in Elements(s);
      var i :| 0 <= i < |s| && s[i] == Tagged(p, x);
      assert r[i] == x;
    }
    forall i, j | 0 <= i < j < |r| ensures le(r[i], r[j]) && s[i].position != s[j].position {
      assert Before(le, s[i], s[j]);
      assert s[i] in Elements(Tag(values)) && s[j] in Elements(Tag(values));
    }
    if forall i, j :: 0 <= i < j < |values| ==> values[i] != values[j] {
      forall i, j | 0 <= i < j < |r| ensures r[i] != r[j] {
        assert s[i] in Elements(Tag(values)) && s[j] in Elements(Tag(values));
        assert r[i] == values[s[i].position] && r[j] == values[s[j].position];
      }
    }
  }

  lemma StableSortAscends<T(!new)>(le: (T, T) -> bool, values: seq<T>, i: nat, j: nat)
    requires TotalPreorder(le) && i < j < |values|
    ensures le(StableSort(le, values)[i], StableSort(le, values)[j])
  {
    var s := StableSortIsStable(le, values);
    hide StableSort;
    assert Before(le, s[i], s[j]);
    assert Untag(s)[i] == s[i].value && Untag(s)[j] == s[j].value;
  }

  /** The same facts about a named result, for callers that sort without reasoning about order. */
  lemma StableSortKeeps<T(!new)>(le: (T, T) -> bool, values: seq<T>) returns (r: seq<T>)
    requires TotalPreorder(le)
    ensures r == StableSort(le, values) && forall x :: x in r <==> x in values
  {
    StableSortOrders(le, values);
    r := StableSort(le, values);
  }

  // ---------------------------------------------------------------------------------
  // Strictly increasing sequences, for any strict order.

  ghost predicate Increasing<T(!new)>(lt: (T, T) -> bool, s: seq<T>) {
    forall i, j :: 0 <= i < j < |s| ==> lt(s[i], s[j])
  }

  ghost predicate Asymmetric<T(!new)>(lt: (T, T) -> bool) {
    forall a, b :: lt(a, b) ==> !lt(b, a)
  }

  lemma HeadIn<T(!new)>(s: seq<T>)
    ensures s == [] || s[0] in s
  {}

  lemma InTail<T(!new)>(lt: (T, T) -> bool, s: seq<T>, x: T)
    requires Asymmetric(lt) && Increasing(lt, s) && s != []
    ensures x in s[1..] <==> x in s && x != s[0]
  {
    if x in s[1..] {
      var i :| 0 <= i < |s[1..]| && s[1..][i] == x;
      assert s[i + 1] == x && lt(s[0], s[i + 1]);
    }
  }

  /** Two increasing sequences of the same elements are the same sequence. */
  lemma {:induction false} IncreasingUnique<T(!new)>(lt: (T, T) -> bool, s: seq<T>, t: seq<T>)
    requires Asymmetric(lt) && Increasing(lt, s) && Increasing(lt, t) && forall x :: x in s <==> x in t
    ensures s == t
  {
    if s == [] {
      HeadIn(t);
    } else {
      assert s[0] in t;
      assert t[0] in s;
      assert s[0] == t[0];
      forall x ensures x in s[1..] <==> x in t[1..] {
        InTail(lt, s, x);
        InTail(lt, t, x);
      }
      IncreasingUnique(lt, s[1..], t[1..]);
      assert s == [s[0]] + s[1..] && t == [t[0]] + t[1..];
    }
  }
}
