/** Visiting score positions best first without sorting them all at once
    (neural_candidate_pages_v3.py): growing prefixes, each cut at a score. */
module ScorePositions {
  import opened SearchBatches
  import opened Wrappers

  /** None is a score that is not finite. */
  type Scores = seq<Option<real>>

  function Score(scores: Scores, p: nat): real {
    if p < |scores| && scores[p].Some? then scores[p].value else 0.0
  }

  function ByScore(scores: Scores): (nat, nat) -> bool {
    (p: nat, q: nat) => Score(scores, p) >= Score(scores, q)
  }

  /** Higher scores first, then lower positions. */
  predicate Sooner(scores: Scores, p: nat, q: nat) {
    Score(scores, p) > Score(scores, q) || (Score(scores, p) == Score(scores, q) && p < q)
  }

  predicate IsFinite(scores: Scores, p: nat) {
    p < |scores| && scores[p].Some?
  }

  ghost predicate SoonestFirst(scores: Scores, s: seq<nat>) {
    forall i, j :: 0 <= i < j < |s| ==> Sooner(scores, s[i], s[j])
  }

  /** The whole answer: every finite position once, best first. */
  ghost predicate IsScoreOrder(scores: Scores, s: seq<nat>) {
    SoonestFirst(scores, s) && forall p: nat :: p in s <==> IsFinite(scores, p)
  }

  predicate Higher(scores: Scores, p: nat, q: nat) {
    IsFinite(scores, p) && IsFinite(scores, q) && scores[p].value > scores[q].value
  }

  predicate SameScore(scores: Scores, p: nat, q: nat) {
    IsFinite(scores, p) && IsFinite(scores, q) && scores[p].value == scores[q].value
  }

  /** The score order, by the scores themselves. */
  lemma OrderMeans(scores: Scores, s: seq<nat>)
    requires IsScoreOrder(scores, s)
    ensures forall p: nat :: p in s <==> p < |scores| && scores[p].Some?
    ensures forall i, j :: 0 <= i < j < |s| ==> Higher(scores, s[i], s[j]) || (SameScore(scores, s[i], s[j]) && s[i] < s[j])
  {
    forall i, j | 0 <= i < j < |s| ensures Higher(scores, s[i], s[j]) || (SameScore(scores, s[i], s[j]) && s[i] < s[j]) {
      var p, q := s[i], s[j];
      assert p in s && q in s && Sooner(scores, p, q);
    }
  }

  function BySooner(scores: Scores): (nat, nat) -> bool {
    (p: nat, q: nat) => Sooner(scores, p, q)
  }

  lemma SoonestUnique(scores: Scores, s: seq<nat>, t: seq<nat>)
    requires SoonestFirst(scores, s) && SoonestFirst(scores, t) && forall p :: p in s <==> p in t
    ensures s == t
  {
    IncreasingUnique(BySooner(scores), s, t);
  }

  ghost predicate Rising(s: seq<nat>) {
    forall i, j :: 0 <= i < j < |s| ==> s[i] < s[j]
  }

  /** Sorting rising positions by score puts the soonest first. */
  lemma SortedSoonest(scores: Scores, positions: seq<nat>) returns (r: seq<nat>)
    requires Rising(positions)
    ensures r == StableSort(ByScore(scores), positions) && |r| == |positions|
    ensures SoonestFirst(scores, r) && forall p :: p in r <==> p in positions
  {
    var le := ByScore(scores);
    assert TotalPreorder(le);
    StableSortOrders(le, positions);
    var s := StableSortIsStable(le, positions);
    r := StableSort(le, positions);
    forall i, j | 0 <= i < j < |r| ensures Sooner(scores, r[i], r[j]) {
      assert Before(le, s[i], s[j]);
      assert s[i] in Elements(Tag(positions)) && s[j] in Elements(Tag(positions));
    }
  }

  /** Positions from `from` on with a score of at least the cutoff. */
  method Select(scores: Scores, finite: seq<nat>, cutoff: real) returns (selected: seq<nat>)
    requires Rising(finite)
    ensures Rising(selected) && forall p :: p in selected <==> p in finite && Score(scores, p) >= cutoff
  {
    selected := [];
    for i := 0 to |finite|
      invariant Rising(selected) && forall p :: p in selected <==> p in finite[..i] && Score(scores, p) >= cutoff
    {
      assert finite[..i + 1] == finite[..i] + [finite[i]];
      if Score(scores, finite[i]) >= cutoff {
        forall k | 0 <= k < |selected| ensures selected[k] < finite[i] {
          assert selected[k] in finite[..i];
        }
        selected := selected + [finite[i]];
      }
    }
    assert finite[..|finite|] == finite;
  }

  method FinitePositions(scores: Scores) returns (finite: seq<nat>)
    ensures Rising(finite) && forall p: nat :: p in finite <==> IsFinite(scores, p)
  {
    finite := [];
    for i := 0 to |scores|
      invariant Rising(finite) && forall p: nat :: p in finite <==> p < i && IsFinite(scores, p)
    {
      forall k | 0 <= k < |finite| ensures finite[k] < i {
        assert finite[k] in finite;
      }
      if scores[i].Some? { finite := finite + [i]; }
    }
  }

  /** Cutting at the score of the target-th best keeps at least `target` positions, and
      what is kept is the beginning of the whole order. */
  lemma CutIsPrefix(scores: Scores, full: seq<nat>, target: nat, ordered: seq<nat>)
    requires SoonestFirst(scores, full) && 0 < target <= |full| && SoonestFirst(scores, ordered)
    requires forall p :: p in ordered <==> p in full && Score(scores, p) >= Score(scores, full[target - 1])
    ensures target <= |ordered| <= |full| && ordered == full[..|ordered|]
  {
    var cutoff := Score(scores, full[target - 1]);
    var n := Reach(scores, full, target);
    forall p ensures p in ordered <==> p in full[..n] {
      if p in full && Score(scores, p) >= cutoff {
        var i :| 0 <= i < |full| && full[i] == p;
        assert i < n;
        assert full[..n][i] == p;
      }
      if p in full[..n] {
        var i :| 0 <= i < n && full[..n][i] == p;
        assert full[i] == p;
      }
    }
    SoonestUnique(scores, ordered, full[..n]);
  }

  /** How far the scores stay at or above that of the target-th best. */
  lemma Reach(scores: Scores, full: seq<nat>, target: nat) returns (n: nat)
    requires SoonestFirst(scores, full) && 0 < target <= |full|
    ensures target <= n <= |full|
    ensures forall i :: 0 <= i < |full| ==> (i < n <==> Score(scores, full[i]) >= Score(scores, full[target - 1]))
  {
    n := target;
    while n < |full| && Score(scores, full[n]) >= Score(scores, full[target - 1])
      invariant target <= n <= |full|
      invariant forall i :: 0 <= i < n ==> Score(scores, full[i]) >= Score(scores, full[target - 1])
    {
      n := n + 1;
    }
    if n < |full| {
      forall i | n <= i < |full| ensures Score(scores, full[i]) < Score(scores, full[target - 1]) {
        if n < i { assert Sooner(scores, full[n], full[i]); }
      }
    }
  }

  // Partitioning.

  ghost predicate Distinct(s: seq<nat>) {
    forall i, j :: 0 <= i < j < |s| ==> s[i] != s[j]
  }

  /** What np.argpartition promises of its last part: that many positions, in no particular order, and
      no other position scores higher. */
  ghost predicate IsTopPart(scores: Scores, finite: seq<nat>, target: nat, part: seq<nat>) {
    && |part| == target && Distinct(part) && (forall p :: p in part ==> p in finite)
    && forall p, q :: p in part && q in finite && q !in part ==> Score(scores, q) <= Score(scores, p)
  }

  method ArgPartition(scores: Scores, finite: seq<nat>, target: nat) returns (part: seq<nat>)
    requires Rising(finite) && 0 < target <= |finite|
    ensures IsTopPart(scores, finite, target, part)
  {
    ghost var full := SortedSoonest(scores, finite);
    part := StableSort(ByScore(scores), finite)[..target];
    forall p | p in part ensures p in finite {
      var i :| 0 <= i < target && full[i] == p;
    }
    forall p, q | p in part && q in finite && q !in part ensures Score(scores, q) <= Score(scores, p) {
      var i :| 0 <= i < target && full[i] == p;
      var j :| 0 <= j < |full| && full[j] == q;
      BehindPrefix(full, target, j);
      assert Sooner(scores, full[i], full[j]);
    }
  }

  lemma BehindPrefix(s: seq<nat>, n: nat, i: nat)
    requires n <= |s| && i < |s|
    ensures s[i] !in s[..n] ==> n <= i
  {
    if i < n { assert s[..n][i] == s[i]; }
  }

  function SetOf(s: seq<nat>): set<nat> {
    set p | p in s
  }

  lemma {:induction false} DistinctSize(s: seq<nat>)
    ensures |SetOf(s)| <= |s| && (Distinct(s) ==> |SetOf(s)| == |s|)
  {
    if s != [] {
      var front, last := s[..|s| - 1], s[|s| - 1];
      DistinctSize(front);
      assert SetOf(s) == SetOf(front) + {last};
    }
  }

  /** Distinct positions, none of them outside the first n of a list, are at most n. */
  lemma FitsInto(s: seq<nat>, list: seq<nat>, n: nat)
    requires Distinct(s) && n <= |list| && forall p :: p in s ==> p in list[..n]
    ensures |s| <= n
  {
    DistinctSize(s);
    DistinctSize(list[..n]);
    Larger(SetOf(s), SetOf(list[..n]));
  }

  /** Whatever the partition, its least score is that of the target-th best position. */
  lemma LeastOfTop(scores: Scores, full: seq<nat>, part: seq<nat>, least: nat)
    requires SoonestFirst(scores, full) && part != [] && |part| <= |full| && IsTopPart(scores, full, |part|, part)
    requires least in part && forall p :: p in part ==> Score(scores, least) <= Score(scores, p)
    ensures Score(scores, least) == Score(scores, full[|part| - 1])
  {
    var n := |part|;
    if forall p :: p in part ==> p in full[..n - 1] { FitsInto(part, full, n - 1); }
    var p :| p in part && p !in full[..n - 1];
    var i :| 0 <= i < |full| && full[i] == p;
    BehindPrefix(full, n - 1, i);
    assert Score(scores, p) <= Score(scores, full[n - 1]) by { LaterIsLower(scores, full, n - 1, i); }
    var j :| 0 <= j < |full| && full[j] == least;
    if j < n {
      LaterIsLower(scores, full, j, n - 1);
    } else {
      var k := LeftOut(full, part, least, j);
      assert full[k] in full;
      LaterIsLower(scores, full, k, n - 1);
    }
  }

  lemma LaterIsLower(scores: Scores, full: seq<nat>, i: nat, j: nat)
    requires SoonestFirst(scores, full) && i <= j < |full|
    ensures Score(scores, full[j]) <= Score(scores, full[i])
  {
    if i < j { assert Sooner(scores, full[i], full[j]); }
  }

  /** One of the first positions is left out when the part reaches beyond them. */
  lemma LeftOut(full: seq<nat>, part: seq<nat>, behind: nat, j: nat) returns (k: nat)
    requires Distinct(full) && Distinct(part) && |part| <= j < |full| && full[j] == behind && behind in part
    ensures k < |part| && full[k] !in part
  {
    var n := |part|;
    if forall i :: 0 <= i < n ==> full[i] in part {
      var head := full[..n] + [behind];
      DistinctSize(head);
      DistinctSize(part);
      Larger(SetOf(head), SetOf(part));
    }
    k :| 0 <= k < n && full[k] !in part;
  }

  /** The cutoff is the least score of the partition, which is the score of the target-th best position
      of the whole order. */
  method Cutoff(scores: Scores, finite: seq<nat>, target: nat, ghost full: seq<nat>) returns (cutoff: real)
    requires Rising(finite) && 0 < target <= |finite| == |full| && SoonestFirst(scores, full) && forall p :: p in full <==> p in finite
    ensures cutoff == Score(scores, full[target - 1])
  {
    var part := ArgPartition(scores, finite, target);
    var least := part[0];
    for n := 1 to |part|
      invariant least in part && forall i :: 0 <= i < n ==> Score(scores, least) <= Score(scores, part[i])
    {
      if Score(scores, part[n]) < Score(scores, least) { least := part[n]; }
    }
    LeastOfTop(scores, full, part, least);
    cutoff := Score(scores, least);
  }

  /** Yield the finite positions lazily. Whatever the first limit, the whole run is the
      stable order by descending score, and every round makes progress. */
  method StableBoundedScorePositions(scores: Scores, initialLimit: int) returns (positions: seq<nat>)
    ensures IsScoreOrder(scores, positions)
  {
    var finite := FinitePositions(scores);
    var total := |finite|;
    positions := [];
    if total == 0 {
      return;
    }
    ghost var full := SortedSoonest(scores, finite);
    var target: nat := if initialLimit < 1 then 1 else initialLimit;
    target := if target > total then total else target;
    var yielded: set<nat> := {};
    while true
      invariant |positions| < target <= total && positions == full[..|positions|]
      invariant forall p :: p in yielded <==> p in positions
      decreases total - |positions|
    {
      var selected := finite;
      if target < total {
        var cutoff := Cutoff(scores, finite, target, full);
        selected := Select(scores, finite, cutoff);
      }
      ghost var sorted := SortedSoonest(scores, selected);
      var ordered := StableSort(ByScore(scores), selected);
      RoundIsPrefix(scores, finite, full, target, selected, ordered);
      ghost var before := |positions|;
      positions, yielded := YieldNew(scores, full, ordered, positions, yielded);
      if |positions| >= total {
        assert full[..|positions|] == full;
        return;
      }
      target := if 2 * target > |positions| + 1 then 2 * target else |positions| + 1;
      target := if target > total then total else target;
    }
  }

  lemma RoundIsPrefix(scores: Scores, finite: seq<nat>, full: seq<nat>, target: nat, selected: seq<nat>, ordered: seq<nat>)
    requires SoonestFirst(scores, full) && |full| == |finite| && (forall p :: p in full <==> p in finite) && 0 < target <= |finite|
    requires full == StableSort(ByScore(scores), finite) && ordered == StableSort(ByScore(scores), selected) && Rising(selected)
    requires if target < |finite| then forall p :: p in selected <==> p in finite && Score(scores, p) >= Score(scores, full[target - 1])
             else selected == finite
    ensures target <= |ordered| <= |full| && ordered == full[..|ordered|]
  {
    if target < |finite| {
      var sorted := SortedSoonest(scores, selected);
      CutIsPrefix(scores, full, target, ordered);
    }
  }

  /** Yield what this round adds. */
  method YieldNew(scores: Scores, ghost full: seq<nat>, ordered: seq<nat>, positions: seq<nat>, yielded: set<nat>)
    returns (positions': seq<nat>, yielded': set<nat>)
    requires SoonestFirst(scores, full) && |positions| <= |ordered| <= |full|
    requires ordered == full[..|ordered|] && positions == full[..|positions|] && forall p :: p in yielded <==> p in positions
    ensures positions' == ordered && forall p :: p in yielded' <==> p in positions'
  {
    positions', yielded' := positions, yielded;
    for k := 0 to |ordered|
      invariant |positions| <= |positions'| <= |ordered| && positions' == full[..|positions'|]
      invariant |positions'| == if k <= |positions| then |positions| else k
      invariant forall p :: p in yielded' <==> p in positions'
    {
      AlreadyYielded(scores, full, |positions'|, k);
      assert ordered[k] == full[k];
      if ordered[k] !in yielded' {
        yielded' := yielded' + {ordered[k]};
        positions' := positions' + [ordered[k]];
      }
    }
  }

  lemma AlreadyYielded(scores: Scores, full: seq<nat>, n: nat, k: nat)
    requires SoonestFirst(scores, full) && n <= |full| && k < |full|
    ensures full[k] in full[..n] <==> k < n
  {
    if k < n {
      assert full[..n][k] == full[k];
    } else {
      forall i | 0 <= i < n ensures full[..n][i] != full[k] {
        assert Sooner(scores, full[i], full[k]);
      }
    }
  }

  /** The lazy order is the full stable sort, whatever limit it starts with. */
  lemma ScoreOrderUnique(scores: Scores, s: seq<nat>, t: seq<nat>)
    requires IsScoreOrder(scores, s) && IsScoreOrder(scores, t)
    ensures s == t
  {
    SoonestUnique(scores, s, t);
  }
}
