/** Choosing the visible Han roots: one NumPy sort of the whole plan followed by first
    occurrences (neural_candidate_pages_v3.py) against the simple form that keeps the least
    record per identity and then sorts (neural_candidates.py). */
module RootSelection {
  import opened PinyinMatcher
  import opened SearchBatches
  import opened SearchLimits
  import opened Wrappers

  datatype PlanEntry = PlanEntry(text: string, pinyin: string, normalized: string, consumed: nat, completes: bool,
                                 tokenId: int, tokenPath: seq<int>, tier: int, staticRank: int, predicted: nat)

  /** A plan entry with its position and its score; None is a score that is not finite. */
  datatype Root = Root(index: nat, entry: PlanEntry, score: Option<real>)

  datatype Identity = Identity(normalized: string, consumed: nat)

  function IdentityOf(r: Root): Identity {
    Identity(r.entry.normalized, r.entry.consumed)
  }

  /** Only one-token roots with a finite score are shown; without a path the token stands alone. */
  predicate Eligible(r: Root) {
    |r.entry.tokenPath| <= 1 && r.score.Some?
  }

  // ---------------------------------------------------------------------------------
  // The order of roots.

  /** The score-free tail of the sort key: more keys first, then text, token and pinyin. */
  predicate StaticLe(a: PlanEntry, b: PlanEntry) {
    if a.consumed != b.consumed then a.consumed > b.consumed
    else if a.normalized != b.normalized then TextLe(a.normalized, b.normalized)
    else if a.tokenId != b.tokenId then a.tokenId < b.tokenId
    else TextLe(a.pinyin, b.pinyin)
  }

  predicate ScoreBefore(a: Option<real>, b: Option<real>) {
    a.Some? && (b.None? || a.value > b.value)
  }

  /** The numeric columns, with what decides when they all agree. */
  predicate ColumnsThen(a: Root, b: Root, otherwise: bool) {
    if a.entry.tier != b.entry.tier then a.entry.tier < b.entry.tier
    else if a.entry.completes != b.entry.completes then a.entry.completes
    else if a.entry.predicted != b.entry.predicted then a.entry.predicted < b.entry.predicted
    else if a.entry.staticRank != b.entry.staticRank then a.entry.staticRank < b.entry.staticRank
    else if a.score != b.score then ScoreBefore(a.score, b.score)
    else otherwise
  }

  /** The whole sort key of the simple form. */
  predicate KeyLe(a: Root, b: Root) {
    ColumnsThen(a, b, StaticLe(a.entry, b.entry))
  }

  function ByKey(): (Root, Root) -> bool {
    (a, b) => KeyLe(a, b)
  }

  function ByStatic(): (Root, Root) -> bool {
    (a: Root, b: Root) => StaticLe(a.entry, b.entry)
  }

  /** Key order; equal keys keep the order of the plan. */
  predicate Precedes(a: Root, b: Root) {
    KeyLe(a, b) && (!KeyLe(b, a) || a.index < b.index)
  }

  lemma StaticLeOrders(a: PlanEntry, b: PlanEntry, c: PlanEntry)
    ensures StaticLe(a, b) || StaticLe(b, a)
    ensures StaticLe(a, b) && StaticLe(b, c) ==> StaticLe(a, c)
  {
    TextLeTotal(a.normalized, b.normalized);
    TextLeTotal(b.normalized, c.normalized);
    TextLeTotal(a.pinyin, b.pinyin);
    if StaticLe(a, b) && StaticLe(b, c) {
      if TextLe(a.normalized, b.normalized) && TextLe(b.normalized, c.normalized) { TextLeTransitive(a.normalized, b.normalized, c.normalized); }
      if TextLe(a.pinyin, b.pinyin) && TextLe(b.pinyin, c.pinyin) { TextLeTransitive(a.pinyin, b.pinyin, c.pinyin); }
      TextLeTotal(a.normalized, c.normalized);
    }
  }

  lemma KeyLeOrders(a: Root, b: Root, c: Root)
    ensures KeyLe(a, b) || KeyLe(b, a)
    ensures KeyLe(a, b) && KeyLe(b, c) ==> KeyLe(a, c)
  {
    hide StaticLe;
    StaticLeOrders(a.entry, b.entry, c.entry);
  }

  lemma KeysAreOrders()
    ensures TotalPreorder(ByKey()) && TotalPreorder(ByStatic())
  {
    hide KeyLe, StaticLe;
    forall a: Root, b: Root, c: Root
      ensures (KeyLe(a, b) || KeyLe(b, a)) && (KeyLe(a, b) && KeyLe(b, c) ==> KeyLe(a, c))
      ensures StaticLe(a.entry, b.entry) || StaticLe(b.entry, a.entry)
      ensures StaticLe(a.entry, b.entry) && StaticLe(b.entry, c.entry) ==> StaticLe(a.entry, c.entry)
    {
      KeyLeOrders(a, b, c);
      StaticLeOrders(a.entry, b.entry, c.entry);
    }
    assert forall a, b :: ByKey()(a, b) == KeyLe(a, b);
    assert forall a, b :: ByStatic()(a, b) == StaticLe(a.entry, b.entry);
  }

  lemma PrecedesTransitive(a: Root, b: Root, c: Root)
    requires Precedes(a, b) && Precedes(b, c)
    ensures Precedes(a, c)
  {
    hide KeyLe;
    KeyLeOrders(a, b, c);
    KeyLeOrders(b, c, a);
    KeyLeOrders(c, a, b);
  }

  // ---------------------------------------------------------------------------------
  // What is to be selected.

  /** The records of one plan under one score vector. */
  predicate Records(records: seq<Root>) {
    forall i :: 0 <= i < |records| ==> records[i].index == i
  }

  /** The least eligible record of its identity. */
  predicate Leads(records: seq<Root>, r: Root) {
    Eligible(r) && forall i :: 0 <= i < |records| && Eligible(records[i]) && IdentityOf(records[i]) == IdentityOf(r) ==>
                                 records[i] == r || Precedes(r, records[i])
  }

  function Keep(records: seq<Root>, s: seq<Root>): (r: seq<Root>)
    ensures |r| <= |s|
    ensures forall x :: x in r <==> x in s && Leads(records, x)
  {
    if s == [] then [] else Keep(records, s[..|s| - 1]) + if Leads(records, s[|s| - 1]) then [s[|s| - 1]] else []
  }

  /** The leaders of all identities, in key order. */
  function Ranking(records: seq<Root>): seq<Root> {
    Keep(records, StableSort(ByKey(), records))
  }

  function Prefix(s: seq<Root>, limit: nat): seq<Root> {
    if |s| <= limit then s else s[..limit]
  }

  ghost predicate KeyOrdered(s: seq<Root>) {
    forall i, j :: 0 <= i < j < |s| ==> Precedes(s[i], s[j])
  }

  function ByPrecedence(): (Root, Root) -> bool {
    (a: Root, b: Root) => Precedes(a, b)
  }

  /** Two key-ordered sequences of the same records are the same sequence. */
  lemma KeyOrderUnique(s: seq<Root>, t: seq<Root>)
    requires KeyOrdered(s) && KeyOrdered(t) && forall x :: x in s <==> x in t
    ensures s == t
  {
    hide KeyLe;
    IncreasingUnique(ByPrecedence(), s, t);
  }

  lemma {:induction false} KeepIncreasing(records: seq<Root>, s: seq<Root>)
    requires KeyOrdered(s)
    ensures KeyOrdered(Keep(records, s))
  {
    hide KeyLe, Leads;
    if s != [] {
      var front, last := s[..|s| - 1], s[|s| - 1];
      KeepIncreasing(records, front);
      forall x | x in Keep(records, front) ensures Precedes(x, last) {
        assert x in front;
        var i :| 0 <= i < |front| && front[i] == x;
        assert s[i] == x;
      }
    }
  }

  /** A stable sort of the records by key is increasing and holds all of them. */
  lemma SortIncreasing(records: seq<Root>, le: (Root, Root) -> bool) returns (r: seq<Root>)
    requires Records(records) && TotalPreorder(le)
    ensures r == StableSort(le, records) && forall x :: x in r <==> x in records
    ensures forall i, j :: 0 <= i < j < |r| ==> le(r[i], r[j]) && (!le(r[j], r[i]) || r[i].index < r[j].index) && r[i] != r[j]
  {
    hide TotalPreorder;
    StableSortOrders(le, records);
    var s := StableSortIsStable(le, records);
    r := StableSort(le, records);
    forall i, j | 0 <= i < j < |r| ensures le(r[i], r[j]) && (!le(r[j], r[i]) || r[i].index < r[j].index) {
      assert Before(le, s[i], s[j]);
      TagIsRecord(records, s, i);
      TagIsRecord(records, s, j);
    }
  }

  lemma TagIsRecord(records: seq<Root>, s: seq<Tagged<Root>>, i: nat)
    requires Records(records) && i < |s| && Elements(s) == Elements(Tag(records))
    ensures s[i].position == s[i].value.index
  {
    assert s[i] in Elements(Tag(records));
  }

  lemma SortByKey(records: seq<Root>)
    requires Records(records)
    ensures KeyOrdered(StableSort(ByKey(), records)) && forall x :: x in StableSort(ByKey(), records) <==> x in records
  {
    hide KeyLe, TotalPreorder;
    KeysAreOrders();
    var le := ByKey();
    var sorted := SortIncreasing(records, le);
    forall i, j | 0 <= i < j < |sorted| ensures Precedes(sorted[i], sorted[j]) {
      assert le(sorted[i], sorted[j]) == KeyLe(sorted[i], sorted[j]) && le(sorted[j], sorted[i]) == KeyLe(sorted[j], sorted[i]);
    }
  }

  lemma RankingIsIncreasing(records: seq<Root>)
    requires Records(records)
    ensures KeyOrdered(Ranking(records)) && forall x :: x in Ranking(records) <==> x in records && Leads(records, x)
  {
    hide KeyLe, Leads;
    SortByKey(records);
    KeepIncreasing(records, StableSort(ByKey(), records));
  }

  // ---------------------------------------------------------------------------------
  // The fast form.

  /** Rank every record by the score-free tail of its key, plan order deciding ties. */
  method StaticTieRanks(records: seq<Root>) returns (tie: seq<nat>)
    requires Records(records)
    ensures |tie| == |records|
    ensures forall i, j :: 0 <= i < |records| && 0 <= j < |records| && i != j ==>
                             (tie[i] < tie[j] <==> StaticBefore(records[i], records[j]))
    ensures forall i, j :: 0 <= i < |records| && 0 <= j < |records| && i != j ==> tie[i] != tie[j]
  {
    hide StaticLe;
    KeysAreOrders();
    ghost var sorted := SortIncreasing(records, ByStatic());
    var order := StableSort(ByStatic(), records);
    var ranks := new nat[|records|];
    OrderIsPermutation(records, order);
    for rank := 0 to |order|
      invariant forall k :: 0 <= k < rank ==> ranks[order[k].index] == k
    {
      forall k | 0 <= k < rank ensures order[k].index != order[rank].index {
        assert order[k] in records && order[rank] in records;
      }
      ranks[order[rank].index] := rank;
    }
    tie := ranks[..];
    forall i, j | 0 <= i < |records| && 0 <= j < |records| && i != j
      ensures tie[i] != tie[j] && (tie[i] < tie[j] <==> StaticBefore(records[i], records[j]))
    {
      assert records[i] in order && records[j] in order;
      var k :| 0 <= k < |order| && order[k] == records[i];
      var l :| 0 <= l < |order| && order[l] == records[j];
      StaticTotal(records[i], records[j]);
    }
  }

  predicate StaticBefore(a: Root, b: Root) {
    StaticLe(a.entry, b.entry) && (!StaticLe(b.entry, a.entry) || a.index < b.index)
  }

  lemma StaticTotal(a: Root, b: Root)
    requires a.index != b.index
    ensures StaticBefore(a, b) <==> !StaticBefore(b, a)
  {
    StaticLeOrders(a.entry, b.entry, b.entry);
  }

  lemma OrderIsPermutation(records: seq<Root>, order: seq<Root>)
    requires Records(records) && forall x :: x in order <==> x in records
    ensures forall k :: 0 <= k < |order| ==> order[k].index < |records| && records[order[k].index] == order[k]
  {
    forall k | 0 <= k < |order| ensures order[k].index < |records| && records[order[k].index] == order[k] {
      assert order[k] in records;
    }
  }

  /** np.lexsort: the numeric columns, then the static tie rank. */
  predicate ColumnsLe(tie: seq<nat>, a: Root, b: Root) {
    if a.index >= |tie| || b.index >= |tie| then b.index >= |tie|
    else ColumnsThen(a, b, tie[a.index] <= tie[b.index])
  }

  function ByColumns(tie: seq<nat>): (Root, Root) -> bool {
    (a, b) => ColumnsLe(tie, a, b)
  }

  lemma ColumnsAreOrder(tie: seq<nat>)
    ensures TotalPreorder(ByColumns(tie))
  {
    forall a: Root, b: Root, c: Root
      ensures ColumnsLe(tie, a, b) || ColumnsLe(tie, b, a)
      ensures ColumnsLe(tie, a, b) && ColumnsLe(tie, b, c) ==> ColumnsLe(tie, a, c)
    {}
    assert forall a, b :: ByColumns(tie)(a, b) == ColumnsLe(tie, a, b);
  }

  /** On the records of a plan the columns order exactly as the whole key does. */
  lemma ColumnsAreKey(records: seq<Root>, tie: seq<nat>, a: Root, b: Root)
    requires Records(records) && |tie| == |records| && a in records && b in records && a != b
    requires forall i, j :: 0 <= i < |records| && 0 <= j < |records| && i != j ==>
                              (tie[i] < tie[j] <==> StaticBefore(records[i], records[j]))
    requires forall i, j :: 0 <= i < |records| && 0 <= j < |records| && i != j ==> tie[i] != tie[j]
    ensures ColumnsLe(tie, a, b) ==> Precedes(a, b)
  {
    hide StaticLe;
    var i :| 0 <= i < |records| && records[i] == a;
    var j :| 0 <= j < |records| && records[j] == b;
    assert StaticBefore(a, b) <==> tie[i] < tie[j];
    StaticTotal(a, b);
  }

  /** All records in the order np.lexsort gives them. */
  method Ranked(records: seq<Root>) returns (ranked: seq<Root>)
    requires Records(records)
    ensures KeyOrdered(ranked) && forall x :: x in ranked <==> x in records
  {
    hide StaticLe, KeyLe, ColumnsLe, TotalPreorder, Precedes;
    var tie := StaticTieRanks(records);
    ColumnsAreOrder(tie);
    ghost var sorted := SortIncreasing(records, ByColumns(tie));
    ranked := StableSort(ByColumns(tie), records);
    forall i, j | 0 <= i < j < |ranked| ensures Precedes(ranked[i], ranked[j]) {
      assert ranked[i] in records && ranked[j] in records;
      assert ColumnsLe(tie, ranked[i], ranked[j]);
      ColumnsAreKey(records, tie, ranked[i], ranked[j]);
    }
  }

  /** The visible roots of one score vector, at most `limit`: exactly the first of the
      leaders in key order, which is what the simple form selects. */
  /** The components of the key, one behind the other: tier; complete inputs; predicted syllables; static
      rank; the higher score; more keys; text; token; pinyin. */
  ghost predicate InKeyOrder(a: Root, b: Root) {
    && a.entry.tier <= b.entry.tier
    && (a.entry.tier == b.entry.tier ==>
          && (b.entry.completes ==> a.entry.completes)
          && (a.entry.completes == b.entry.completes ==>
                && a.entry.predicted <= b.entry.predicted
                && (a.entry.predicted == b.entry.predicted ==>
                      && a.entry.staticRank <= b.entry.staticRank
                      && (a.entry.staticRank == b.entry.staticRank && a.score.Some? && b.score.Some? ==>
                            && a.score.value >= b.score.value
                            && (a.score.value == b.score.value ==>
                                  && a.entry.consumed >= b.entry.consumed
                                  && (a.entry.consumed == b.entry.consumed ==>
                                        TextLe(a.entry.normalized, b.entry.normalized)
                                        && (a.entry.normalized == b.entry.normalized ==>
                                              a.entry.tokenId <= b.entry.tokenId
                                              && (a.entry.tokenId == b.entry.tokenId ==> TextLe(a.entry.pinyin, b.entry.pinyin)))))))))
  }

  lemma KeyLeIsInOrder(a: Root, b: Root)
    requires KeyLe(a, b)
    ensures InKeyOrder(a, b)
  {
    TextLeTotal(a.entry.normalized, a.entry.normalized);
    TextLeTotal(a.entry.pinyin, a.entry.pinyin);
  }

  /** Of the one-token records with a finite score, the first of each identity, in key order, up to the limit. */
  ghost predicate IsSelection(records: seq<Root>, limit: nat, selected: seq<Root>) {
    && |selected| <= limit && (forall i, j :: 0 <= i < j < |selected| ==> InKeyOrder(selected[i], selected[j]))
    && (forall i, j :: 0 <= i < j < |selected| ==> IdentityOf(selected[i]) != IdentityOf(selected[j]))
    && (forall x :: x in selected ==> x in records && x.score.Some? && |x.entry.tokenPath| <= 1)
    && (forall r, x :: r in records && r.score.Some? && |r.entry.tokenPath| <= 1 && x in selected && Competes(selected, x, r) ==> InKeyOrder(x, r))
    && (forall r :: r in records && r.score.Some? && |r.entry.tokenPath| <= 1 ==>
                      |selected| == limit || exists x :: x in selected && IdentityOf(x) == IdentityOf(r))
  }

  /** r has the identity of x, or one that was not selected. */
  ghost predicate Competes(selected: seq<Root>, x: Root, r: Root) {
    IdentityOf(x) == IdentityOf(r) || forall y :: y in selected ==> IdentityOf(y) != IdentityOf(r)
  }

  lemma PrecedesIsInOrder(a: Root, b: Root)
    requires Precedes(a, b) || a == b
    ensures InKeyOrder(a, b)
  {
    hide KeyLe, InKeyOrder;
    KeyLeOrders(a, b, b);
    KeyLeIsInOrder(a, b);
  }

  lemma SelectionMeans(records: seq<Root>, limit: nat)
    requires Records(records)
    ensures IsSelection(records, limit, Prefix(Ranking(records), limit))
  {
    hide KeyLe, InKeyOrder, Precedes, Ranking;
    var ranking, selected := Ranking(records), Prefix(Ranking(records), limit);
    RankingIsIncreasing(records);
    forall i, j | 0 <= i < j < |ranking| ensures InKeyOrder(ranking[i], ranking[j]) && IdentityOf(ranking[i]) != IdentityOf(ranking[j]) {
      PrecedesIsInOrder(ranking[i], ranking[j]);
      assert ranking[i] in ranking && ranking[j] in ranking;
      DifferentLeaders(records, ranking[i], ranking[j]);
    }
    forall x | x in selected ensures x in ranking && x in records && x.score.Some? && |x.entry.tokenPath| <= 1 {
      var i :| 0 <= i < |selected| && selected[i] == x;
      assert ranking[i] == x;
    }
    forall r | r in records && Eligible(r)
      ensures |selected| == limit || exists x :: x in selected && IdentityOf(x) == IdentityOf(r)
      ensures forall x :: x in selected && Competes(selected, x, r) ==> InKeyOrder(x, r)
    {
      SelectedBefore(records, limit, r);
    }
  }

  lemma DifferentLeaders(records: seq<Root>, a: Root, b: Root)
    requires a in records && b in records && Leads(records, a) && Leads(records, b) && Precedes(a, b)
    ensures IdentityOf(a) != IdentityOf(b)
  {
    hide KeyLe;
    if IdentityOf(a) == IdentityOf(b) { SameIdentity(records, a, b); }
  }

  /** A record is not before its leader, nor is a leader that was not selected before one that was. */
  lemma SelectedBefore(records: seq<Root>, limit: nat, r: Root)
    requires Records(records) && r in records && Eligible(r)
    ensures var selected := Prefix(Ranking(records), limit);
            && (|selected| == limit || exists x :: x in selected && IdentityOf(x) == IdentityOf(r))
            && forall x :: x in selected && Competes(selected, x, r) ==> InKeyOrder(x, r)
  {
    hide KeyLe, InKeyOrder, Ranking;
    var ranking, selected := Ranking(records), Prefix(Ranking(records), limit);
    RankingIsIncreasing(records);
    var leader := LeaderExists(records, r);
    LeaderBefore(records, leader, r);
    forall x | x in selected && Competes(selected, x, r) ensures InKeyOrder(x, r) {
      var i :| 0 <= i < |selected| && selected[i] == x;
      assert x == ranking[i] && x in ranking;
      if IdentityOf(x) == IdentityOf(r) {
        LeaderBefore(records, x, r);
      } else {
        var k :| 0 <= k < |ranking| && ranking[k] == leader;
        assert forall j :: 0 <= j < |selected| ==> selected[j] in selected && selected[j] == ranking[j];
        assert i < k;
        Transitive(x, leader, r);
      }
    }
  }

  lemma LeaderBefore(records: seq<Root>, leader: Root, r: Root)
    requires r in records && Eligible(r) && Leads(records, leader) && IdentityOf(leader) == IdentityOf(r)
    ensures KeyLe(leader, r) && InKeyOrder(leader, r)
  {
    hide KeyLe, InKeyOrder, Eligible;
    KeyLeOrders(r, r, r);
    var i :| 0 <= i < |records| && records[i] == r;
    KeyLeIsInOrder(leader, r);
  }

  lemma Transitive(a: Root, b: Root, c: Root)
    requires KeyLe(a, b) && KeyLe(b, c)
    ensures InKeyOrder(a, c)
  {
    hide KeyLe, InKeyOrder;
    KeyLeOrders(a, b, c);
    KeyLeIsInOrder(a, c);
  }

  method SelectTopRoots(records: seq<Root>, limit: nat) returns (selected: seq<Root>)
    requires Records(records)
    ensures selected == Prefix(Ranking(records), limit)
  {
    hide Precedes, Leads, Ranking, Eligible, SeenOk, KeyOrdered, Keep;
    if limit == 0 || records == [] {
      NoRoots(records, limit);
      return [];
    }
    var ranked := Ranked(records);
    FastIsRanking(records, ranked);
    selected := [];
    var seen: set<Identity> := {};
    NothingSeen(records);
    for scanned := 0 to |ranked|
      invariant selected == Keep(records, ranked[..scanned]) && |selected| < limit
      invariant SeenOk(ranked[..scanned], seen)
    {
      var r := ranked[scanned];
      KeepNext(records, ranked, scanned);
      FirstLeads(records, ranked, scanned, seen);
      if Eligible(r) {
        if IdentityOf(r) !in seen {
          selected := selected + [r];
          if |selected| >= limit {
            KeepPrefix(records, ranked, scanned + 1);
            return;
          }
        }
        seen := seen + {IdentityOf(r)};
      }
    }
    assert ranked[..|ranked|] == ranked;
  }

  lemma NoRoots(records: seq<Root>, limit: nat)
    requires limit == 0 || records == []
    ensures Prefix(Ranking(records), limit) == []
  {}

  lemma NothingSeen(records: seq<Root>)
    ensures SeenOk([], {}) && Keep(records, []) == []
  {}

  /** The identities seen are those of the eligible records scanned. */
  ghost predicate SeenOk(scanned: seq<Root>, seen: set<Identity>) {
    forall id :: id in seen <==> exists i :: 0 <= i < |scanned| && Eligible(scanned[i]) && IdentityOf(scanned[i]) == id
  }

  /** In an increasing sequence the first eligible record of an identity is its leader. */
  lemma FirstLeads(records: seq<Root>, ranked: seq<Root>, k: nat, seen: set<Identity>)
    requires KeyOrdered(ranked) && k < |ranked| && (forall x :: x in ranked <==> x in records) && SeenOk(ranked[..k], seen)
    ensures Leads(records, ranked[k]) <==> Eligible(ranked[k]) && IdentityOf(ranked[k]) !in seen
    ensures SeenOk(ranked[..k + 1], if Eligible(ranked[k]) then seen + {IdentityOf(ranked[k])} else seen)
  {
    hide KeyLe, Eligible;
    var r := ranked[k];
    if Eligible(r) && IdentityOf(r) !in seen {
      forall i | 0 <= i < |records| && Eligible(records[i]) && IdentityOf(records[i]) == IdentityOf(r)
        ensures records[i] == r || Precedes(r, records[i])
      {
        assert records[i] in ranked;
        var j :| 0 <= j < |ranked| && ranked[j] == records[i];
        SeenMember(ranked, k, seen, j);
      }
    } else if Eligible(r) {
      var j :| 0 <= j < |ranked[..k]| && Eligible(ranked[..k][j]) && IdentityOf(ranked[..k][j]) == IdentityOf(r);
      assert ranked[j] in records;
      var i :| 0 <= i < |records| && records[i] == ranked[j];
      assert Precedes(ranked[j], r);
    }
    SeenGrows(ranked, k, seen);
  }

  lemma SeenMember(ranked: seq<Root>, k: nat, seen: set<Identity>, j: nat)
    requires k <= |ranked| && j < |ranked| && SeenOk(ranked[..k], seen)
    ensures j < k && Eligible(ranked[j]) ==> IdentityOf(ranked[j]) in seen
  {
    if j < k { assert ranked[..k][j] == ranked[j]; }
  }

  lemma SeenGrows(ranked: seq<Root>, k: nat, seen: set<Identity>)
    requires k < |ranked| && SeenOk(ranked[..k], seen)
    ensures SeenOk(ranked[..k + 1], if Eligible(ranked[k]) then seen + {IdentityOf(ranked[k])} else seen)
  {
    hide Eligible;
    var more := ranked[..k + 1];
    var seen' := if Eligible(ranked[k]) then seen + {IdentityOf(ranked[k])} else seen;
    forall id | id in seen' ensures exists i :: 0 <= i < |more| && Eligible(more[i]) && IdentityOf(more[i]) == id {
      if id in seen {
        var i :| 0 <= i < |ranked[..k]| && Eligible(ranked[..k][i]) && IdentityOf(ranked[..k][i]) == id;
        assert more[i] == ranked[..k][i];
      } else {
        assert more[k] == ranked[k];
      }
    }
    forall i | 0 <= i < |more| && Eligible(more[i]) ensures IdentityOf(more[i]) in seen' {
      if i < k { assert ranked[..k][i] == more[i]; }
    }
  }

  /** Every eligible record has a leader. */
  lemma LeaderExists(records: seq<Root>, r: Root) returns (leader: Root)
    requires Records(records) && r in records && Eligible(r)
    ensures leader in Ranking(records) && leader in records && Leads(records, leader) && IdentityOf(leader) == IdentityOf(r)
  {
    hide KeyLe, Eligible, StableSort, Ranking;
    SortByKey(records);
    RankingIsIncreasing(records);
    var s := StableSort(ByKey(), records);
    assert r in s;
    var k :| 0 <= k < |s| && s[k] == r;
    var n := 0;
    while !(Eligible(s[n]) && IdentityOf(s[n]) == IdentityOf(r))
      invariant 0 <= n <= k
      invariant forall j :: 0 <= j < n ==> !(Eligible(s[j]) && IdentityOf(s[j]) == IdentityOf(r))
      decreases k - n
    {
      n := n + 1;
    }
    leader := s[n];
    assert leader in s;
    forall i | 0 <= i < |records| && Eligible(records[i]) && IdentityOf(records[i]) == IdentityOf(leader)
      ensures records[i] == leader || Precedes(leader, records[i])
    {
      assert records[i] in records && records[i] in s;
      var j :| 0 <= j < |s| && s[j] == records[i];
    }
  }

  lemma FastIsRanking(records: seq<Root>, ranked: seq<Root>)
    requires Records(records) && KeyOrdered(ranked) && forall x :: x in ranked <==> x in records
    ensures Keep(records, ranked) == Ranking(records)
  {
    hide KeyLe, Leads;
    RankingIsIncreasing(records);
    KeepIncreasing(records, ranked);
    KeyOrderUnique(Keep(records, ranked), Ranking(records));
  }

  lemma KeepNext(records: seq<Root>, s: seq<Root>, k: nat)
    requires k < |s|
    ensures Keep(records, s[..k + 1]) == Keep(records, s[..k]) + if Leads(records, s[k]) then [s[k]] else []
  {
    hide Leads;
    assert s[..k + 1][..k] == s[..k];
  }

  lemma {:induction false} KeepPrefix(records: seq<Root>, s: seq<Root>, k: nat)
    requires k <= |s|
    ensures Keep(records, s[..k]) <= Keep(records, s)
  {
    hide Leads;
    if k < |s| {
      KeepPrefix(records, s[..|s| - 1], k);
      assert s[..|s| - 1][..k] == s[..k];
    } else {
      assert s[..k] == s;
    }
  }

  // ---------------------------------------------------------------------------------
  // The simple form.

  /** The best record so far of every identity met, as the dictionary holds them. */
  ghost predicate BestOk(scanned: seq<Root>, best: map<Identity, Root>) {
    && (forall id :: id in best ==> IdentityOf(best[id]) == id && best[id] in scanned && Leads(scanned, best[id]))
    && (forall r :: r in scanned && Eligible(r) ==> IdentityOf(r) in best)
  }

  /** Keep the least record of each identity, then sort what was kept. */
  method MaterializeRoots(records: seq<Root>) returns (selected: seq<Root>)
    requires Records(records)
    ensures selected == Prefix(Ranking(records), MAX_FROZEN_CANDIDATES)
  {
    hide KeyLe, Eligible, Leads, BestOk, Ranking;
    var best: map<Identity, Root> := map[];
    var met: seq<Identity> := [];
    NoBest();
    for index := 0 to |records|
      invariant BestOk(records[..index], best)
      invariant MetOnce(met, best)
    {
      var r := records[index];
      assert records[..index + 1] == records[..index] + [r];
      BestAdvances(records[..index], best, r);
      if Eligible(r) {
        var id := IdentityOf(r);
        if id !in best { met := met + [id]; }
        if id !in best || !KeyLe(best[id], r) {
          best := best[id := r];
        }
      }
    }
    assert records[..|records|] == records;
    var kept := seq(|met|, i requires 0 <= i < |met| => best[met[i]]);
    KeptAreLeaders(records, best, met, kept);
    selected := SortKept(records, kept);
  }

  ghost predicate MetOnce(met: seq<Identity>, best: map<Identity, Root>) {
    (forall id :: id in met <==> id in best) && forall i, j :: 0 <= i < j < |met| ==> met[i] != met[j]
  }

  lemma NoBest()
    ensures BestOk([], map[])
  {}

  lemma SortDistinct(le: (Root, Root) -> bool, kept: seq<Root>) returns (r: seq<Root>)
    requires TotalPreorder(le) && forall i, j :: 0 <= i < j < |kept| ==> kept[i] != kept[j]
    ensures r == StableSort(le, kept) && forall x :: x in r <==> x in kept
    ensures forall i, j :: 0 <= i < j < |r| ==> le(r[i], r[j]) && r[i] != r[j]
  {
    StableSortOrders(le, kept);
    r := StableSort(le, kept);
  }

  /** heapq.nsmallest over the kept records. */
  method SortKept(records: seq<Root>, kept: seq<Root>) returns (selected: seq<Root>)
    requires Records(records) && (forall x :: x in kept <==> x in records && Leads(records, x))
    requires forall i, j :: 0 <= i < j < |kept| ==> kept[i] != kept[j]
    ensures selected == Prefix(Ranking(records), MAX_FROZEN_CANDIDATES)
  {
    hide KeyLe, Leads, TotalPreorder, Ranking;
    KeysAreOrders();
    var le := ByKey();
    var sorted := StableSort(le, kept);
    ghost var ordered := SortDistinct(le, kept);
    assert forall a, b :: le(a, b) == KeyLe(a, b);
    SortedLeaders(records, sorted);
    selected := Prefix(sorted, MAX_FROZEN_CANDIDATES);
  }

  lemma BestAdvances(scanned: seq<Root>, best: map<Identity, Root>, r: Root)
    requires BestOk(scanned, best) && Records(scanned + [r])
    ensures var id := IdentityOf(r);
            BestOk(scanned + [r], if Eligible(r) && (id !in best || !KeyLe(best[id], r)) then best[id := r] else best)
  {
    hide KeyLe, Eligible;
    var id := IdentityOf(r);
    var all := scanned + [r];
    var best' := if Eligible(r) && (id !in best || !KeyLe(best[id], r)) then best[id := r] else best;
    forall k | k in best' ensures IdentityOf(best'[k]) == k && best'[k] in all && Leads(all, best'[k]) {
      if k == id && Eligible(r) {
        if id in best {
          LeaderContest(scanned, best[id], r);
        } else {
          NewLeader(scanned, best, r);
        }
      } else {
        LeaderStays(scanned, best[k], r);
      }
    }
  }

  lemma LeaderStays(scanned: seq<Root>, leader: Root, r: Root)
    requires Leads(scanned, leader) && !(Eligible(r) && IdentityOf(r) == IdentityOf(leader))
    ensures Leads(scanned + [r], leader)
  {
    hide KeyLe, Eligible;
  }

  lemma BestKnows(scanned: seq<Root>, best: map<Identity, Root>, i: nat)
    requires BestOk(scanned, best)
    ensures i < |scanned| && Eligible(scanned[i]) ==> IdentityOf(scanned[i]) in best
  {
    hide Eligible, Leads;
    if i < |scanned| { assert scanned[i] in scanned; }
  }

  lemma NewLeader(scanned: seq<Root>, best: map<Identity, Root>, r: Root)
    requires BestOk(scanned, best) && Eligible(r) && IdentityOf(r) !in best
    ensures Leads(scanned + [r], r)
  {
    hide KeyLe, Eligible;
    forall i | 0 <= i < |scanned + [r]| && Eligible((scanned + [r])[i]) && IdentityOf((scanned + [r])[i]) == IdentityOf(r)
      ensures (scanned + [r])[i] == r
    {
      BestKnows(scanned, best, i);
    }
  }

  lemma LeaderContest(scanned: seq<Root>, leader: Root, r: Root)
    requires Leads(scanned, leader) && Eligible(r) && IdentityOf(r) == IdentityOf(leader) && leader in scanned && Records(scanned + [r])
    ensures Leads(scanned + [r], if KeyLe(leader, r) then leader else r)
  {
    hide KeyLe, Eligible;
    var all := scanned + [r];
    var i0 :| 0 <= i0 < |scanned| && scanned[i0] == leader;
    assert all[i0] == leader && all[|scanned|] == r && leader.index < r.index;
    KeyLeOrders(leader, r, r);
    forall i | 0 <= i < |all| && Eligible(all[i]) && IdentityOf(all[i]) == IdentityOf(r)
      ensures var l := if KeyLe(leader, r) then leader else r; all[i] == l || Precedes(l, all[i])
    {
      if i < |scanned| {
        assert all[i] == scanned[i];
        if !KeyLe(leader, r) && all[i] != leader { PrecedesTransitive(r, leader, all[i]); }
      }
    }
  }

  lemma KeptAreLeaders(records: seq<Root>, best: map<Identity, Root>, met: seq<Identity>, kept: seq<Root>)
    requires BestOk(records, best) && |kept| == |met| && (forall i :: 0 <= i < |met| ==> met[i] in best && kept[i] == best[met[i]])
    requires MetOnce(met, best)
    ensures forall x :: x in kept <==> x in records && Leads(records, x)
    ensures forall i, j :: 0 <= i < j < |kept| ==> kept[i] != kept[j]
  {
    hide KeyLe, Eligible;
    forall x | x in records && Leads(records, x) ensures x in kept {
      var id := IdentityOf(x);
      assert id in best;
      var i :| 0 <= i < |met| && met[i] == id;
      var l := best[id];
      var k :| 0 <= k < |records| && records[k] == l;
      var m :| 0 <= m < |records| && records[m] == x;
      assert l == x || (Precedes(x, l) && Precedes(l, x));
      assert kept[i] == l;
    }
  }

  lemma SortedLeaders(records: seq<Root>, sorted: seq<Root>)
    requires Records(records) && (forall i, j :: 0 <= i < j < |sorted| ==> KeyLe(sorted[i], sorted[j]) && sorted[i] != sorted[j])
    requires forall x :: x in sorted <==> x in records && Leads(records, x)
    ensures sorted == Ranking(records)
  {
    hide KeyLe, Eligible;
    forall i, j | 0 <= i < j < |sorted| ensures Precedes(sorted[i], sorted[j]) {
      assert sorted[i] in sorted && sorted[j] in sorted;
      LeadersDiffer(records, sorted[i], sorted[j]);
    }
    RankingIsIncreasing(records);
    KeyOrderUnique(sorted, Ranking(records));
  }

  /** Leaders of different identities never have equal keys: the identity is part of the key. */
  lemma LeadersDiffer(records: seq<Root>, a: Root, b: Root)
    requires a in records && b in records && a != b && Leads(records, a) && Leads(records, b)
    ensures KeyLe(a, b) ==> !KeyLe(b, a)
  {
    if IdentityOf(a) == IdentityOf(b) {
      SameIdentity(records, a, b);
    } else {
      TextLeTotal(a.entry.normalized, b.entry.normalized);
    }
  }

  lemma SameIdentity(records: seq<Root>, a: Root, b: Root)
    requires a in records && b in records && Leads(records, a) && Leads(records, b) && IdentityOf(a) == IdentityOf(b)
    ensures a == b
  {
    hide KeyLe;
    var i :| 0 <= i < |records| && records[i] == a;
    var j :| 0 <= j < |records| && records[j] == b;
  }

  /** The page-zero selection is the beginning of the full selection. */
  lemma PageZeroIsAPrefix(records: seq<Root>, limit: nat)
    requires limit <= MAX_FROZEN_CANDIDATES
    ensures Prefix(Ranking(records), limit) == Prefix(Prefix(Ranking(records), MAX_FROZEN_CANDIDATES), limit)
  {}
}
