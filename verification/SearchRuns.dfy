/** How a session is opened from the index (neural_candidate_pages_v3.py), and whole runs of it that
    show where a property ends: what is shown twice, what is lost, what comes before what. */
module SearchRuns {
  import opened CandidatePages
  import opened PinyinInput
  import opened PinyinMatcher
  import opened ScorePositions
  import opened SearchBatches
  import opened SearchFrontier
  import opened SearchLimits
  import opened WaitingList
  import opened Wrappers
  import L = LatinRoots
  import R = RootSelection

  // ---------------------------------------------------------------------------------
  // The root plan.

  /** Syllables between apostrophes. */
  function Displayed(syllables: seq<string>): string {
    if syllables == [] then "" else if |syllables| == 1 then syllables[0] else syllables[0] + "'" + Displayed(syllables[1..])
  }

  lemma {:induction false} SplitSkips(s: string, rest: string, part: string)
    requires '\'' !in s
    ensures SplitAt(s + rest, part) == SplitAt(rest, part + s)
  {
    if s == "" {
      assert s + rest == rest && part + s == part;
    } else {
      assert (s + rest)[1..] == s[1..] + rest && part + [s[0]] + s[1..] == part + s;
      SplitSkips(s[1..], rest, part + [s[0]]);
    }
  }

  /** Syllables are read back as they are displayed. */
  lemma {:induction false} DisplayedSplits(syllables: seq<string>)
    requires forall s :: s in syllables ==> Plain(s)
    ensures Syllables(Displayed(syllables)) == syllables
  {
    if syllables != [] {
      var first := syllables[0];
      assert first in syllables && Plain(first) && first + "" == first && "" + first == first;
      if |syllables| == 1 {
        SplitSkips(first, "", "");
      } else {
        var rest := "'" + Displayed(syllables[1..]);
        assert first + "'" + Displayed(syllables[1..]) == first + rest && rest[1..] == Displayed(syllables[1..]);
        SplitSkips(first, rest, "");
        assert SplitAt(rest, first) == [first] + SplitAt(rest[1..], "");
        DisplayedSplits(syllables[1..]);
        assert [first] + syllables[1..] == syllables;
      }
    }
  }

  function RootQuery(inputs: Inputs): Query {
    Query(inputs.compact, 0, inputs.boundaries, false, true)
  }

  /** A match that may be a root. */
  predicate Rooted(m: Match) {
    m.nextPosition > 0 && m.entry.tokenPath != [] && |m.entry.tokenPath| <= MAX_MODEL_TOKENS && |m.entry.text| <= MAX_HAN_CHARACTERS
  }

  /** A match as it stands in the plan. */
  function PlanEntryOf(inputs: Inputs, ranks: int -> int, m: Match): R.PlanEntry
    requires Rooted(m)
  {
    var whole := m.nextPosition == |inputs.compact|;
    R.PlanEntry(m.entry.text, Displayed(m.entry.syllablePath), inputs.norm(m.entry.text), RawPosition(inputs.raw, m.nextPosition), whole,
                m.entry.tokenPath[0], m.entry.tokenPath, if Spelling(m.entry.syllablePath) == inputs.compact then 0 else 1,
                ranks(m.entry.tokenPath[0]), if whole then m.completionSyllables else 0)
  }

  /** A root is the best match of an entry with the keys. */
  ghost predicate IsRoot(inputs: Inputs, entries: set<Entry>, scores: int -> Option<real>, ranks: int -> int, r: R.Root, m: Match) {
    && m.entry in entries && IsBest(RootQuery(inputs), m.entry, m) && Rooted(m)
    && r.entry == PlanEntryOf(inputs, ranks, m) && r.score == scores(r.entry.tokenId)
  }

  /** The plan has a root for each entry that the keys may begin with, and no other. */
  ghost predicate IsPlan(inputs: Inputs, entries: set<Entry>, scores: int -> Option<real>, ranks: int -> int, plan: seq<R.Root>) {
    && R.Records(plan)
    && (forall r :: r in plan ==> exists m :: IsRoot(inputs, entries, scores, ranks, r, m))
    && (forall m: Match :: m.entry in entries && IsBest(RootQuery(inputs), m.entry, m) && Rooted(m) ==>
          exists r :: r in plan && IsRoot(inputs, entries, scores, ranks, r, m))
  }

  method RootPlan(inputs: Inputs, matcher: PartialPinyinMatcher, scores: int -> Option<real>, ranks: int -> int) returns (plan: seq<R.Root>)
    requires matcher.Valid() && KeysParse(inputs)
    ensures IsPlan(inputs, matcher.entries, scores, ranks, plan)
  {
    hide IsBest, WellFormed, RowsHold, Derives, PlanEntryOf;
    if inputs.compact == "" {
      NothingTyped(RootQuery(inputs));
      return [];
    }
    var matches, unsorted := matcher.NeuralMatches(RootQuery(inputs), false);
    plan := [];
    for n := 0 to |matches|
      invariant R.Records(plan)
      invariant forall r :: r in plan ==> exists m :: IsRoot(inputs, matcher.entries, scores, ranks, r, m)
      invariant forall k :: 0 <= k < n && Rooted(matches[k]) ==> exists r :: r in plan && IsRoot(inputs, matcher.entries, scores, ranks, r, matches[k])
    {
      var m := matches[n];
      if Rooted(m) {
        var entry := PlanEntryOf(inputs, ranks, m);
        var r := R.Root(|plan|, entry, scores(entry.tokenId));
        assert IsRoot(inputs, matcher.entries, scores, ranks, r, m);
        ghost var before := plan;
        plan := plan + [r];
        assert r in plan && forall x :: x in before ==> x in plan;
      }
    }
    forall m: Match | m.entry in matcher.entries && IsBest(RootQuery(inputs), m.entry, m) && Rooted(m)
      ensures exists r :: r in plan && IsRoot(inputs, matcher.entries, scores, ranks, r, m)
    {
      BestIsListed(RootQuery(inputs), matcher.entries, matches, m);
    }
  }

  lemma NothingTyped(q: Query)
    requires q.raw == ""
    ensures forall e, m :: !IsBest(q, e, m)
  {
    forall e, o ensures !Derives(q, e, o) {}
  }

  lemma BestIsListed(q: Query, entries: set<Entry>, matches: seq<Match>, m: Match)
    requires IsEnumeration(q, entries, matches) && m.entry in entries && IsBest(q, m.entry, m)
    ensures exists k :: 0 <= k < |matches| && matches[k] == m
  {
    hide Derives;
    var k :| 0 <= k < |matches| && matches[k].entry == m.entry;
    BestIsUnique(q, m.entry, m, matches[k]);
  }

  /** The least number of predicted syllables among the roots with a score. */
  function LeastPredicted(roots: seq<R.Root>): (n: Option<nat>)
    ensures forall r :: r in roots && r.score.Some? ==> n.Some? && n.value <= r.entry.predicted
  {
    if roots == [] then None
    else
      assert roots == [roots[0]] + roots[1..];
      var rest := LeastPredicted(roots[1..]);
      var r := roots[0];
      if r.score.Some? && (rest.None? || r.entry.predicted < rest.value) then Some(r.entry.predicted) else rest
  }

  function DeferredPlan(plan: seq<R.Root>): Item {
    var least := LeastPredicted(plan);
    Deferred(if least.Some? then least.value else 0, plan)
  }

  function RootCandidates(roots: seq<R.Root>): (r: seq<Candidate>)
    requires forall x :: x in roots ==> x.score.Some?
    ensures |r| == |roots| && forall i :: 0 <= i < |r| ==> r[i] == SearchSession.RootCandidate(roots[i])
  {
    if roots == [] then []
    else
      assert roots == [roots[0]] + roots[1..];
      [SearchSession.RootCandidate(roots[0])] + RootCandidates(roots[1..])
  }

  /** A session as it is opened in Chinese mode when no Latin root fits the keys: the best roots wait,
      enough for one page, and the whole plan is deferred. */
  method Open(inputs: Inputs, matcher: PartialPinyinMatcher, scores: int -> Option<real>, ranks: int -> int)
    returns (s: SearchSession, plan: seq<R.Root>)
    requires matcher.Valid() && InputsOk(inputs, matcher.entries) && inputs.mode == ChineseFirst && KeysParse(inputs)
    ensures fresh(s) && s.inputs == inputs && s.matcher == matcher && s.PagesOk() && s.OrderOk() && s.Clean() && s.Buckets() && s.pages == 0
    ensures IsPlan(inputs, matcher.entries, scores, ranks, plan)
    ensures s.HanSorted(s.pending)
    ensures plan == [] ==> s.frontier == [] && s.exhausted && s.pending == [LiteralCandidate(inputs.raw)]
    ensures plan != [] ==>
              && s.frontier == [DeferredPlan(plan)] && s.expanded == {} && !s.exhausted
              && (forall c :: c in s.pending <==>
                    exists r :: r in R.Prefix(R.Ranking(plan), CHINESE_PAGE_SIZE) && r.score.Some? && c == SearchSession.RootCandidate(r))
              && s.seen == set c | c in s.pending :: IdOf(s.norm, c)
  {
    hide InputsOk, FrontierOk, SearchSession.CleanAre, SearchSession.BucketsAre, SearchSession.PagesAre, SearchSession.HanSorted, IsPlan, ItemOk,
         NoRepeats, Worded, R.Ranking, R.Prefix, Quiet, OneRemainder, NoneExpanded, NoneLonger, WellFormed, RowsHold, LeastPredicted;
    plan := RootPlan(inputs, matcher, scores, ranks);
    PlanIsRecorded(inputs, matcher.entries, scores, ranks, plan);
    if plan == [] {
      LiteralAlone(inputs);
      s := new SearchSession(inputs, matcher, [LiteralCandidate(inputs.raw)], [], {});
      SortedWait(s, [LiteralCandidate(inputs.raw)]);
      return;
    }
    var roots := R.SelectTopRoots(plan, CHINESE_PAGE_SIZE);
    var waiting := WaitingRoots(inputs, matcher.entries, scores, ranks, plan, roots);
    PlanFits(inputs, matcher.entries, scores, ranks, plan);
    s := new SearchSession(inputs, matcher, waiting, [DeferredPlan(plan)], {});
    SortedWait(s, waiting);
  }

  /** The selected roots as candidates, in the order they wait in. */
  method WaitingRoots(inputs: Inputs, ghost entries: set<Entry>, ghost scores: int -> Option<real>, ghost ranks: int -> int,
                      ghost plan: seq<R.Root>, roots: seq<R.Root>) returns (waiting: seq<Candidate>)
    requires InputsOk(inputs, entries) && IsPlan(inputs, entries, scores, ranks, plan) && roots == R.Prefix(R.Ranking(plan), CHINESE_PAGE_SIZE)
    ensures NoRepeats(waiting) && (forall x :: x in waiting ==> Worded(inputs.raw, x) && x.kind != Literal)
    ensures forall x, y :: x in waiting && y in waiting && x != y ==> IdOf(inputs.norm, x) != IdOf(inputs.norm, y)
    ensures forall x :: x in waiting <==> exists r :: r in roots && r.score.Some? && x == SearchSession.RootCandidate(r)
    ensures SortedBy(ByHan(inputs.compact, inputs.hanRank), Filter(InScript(Han), waiting))
  {
    hide InputsOk, IsPlan, NoRepeats, Worded, StableSort, TotalPreorder, R.Ranking, R.Prefix, SortedBy, Filter;
    RootsFit(inputs, entries, scores, ranks, plan, roots);
    var candidates := RootCandidates(roots);
    RanksAreOrders(inputs.compact, inputs.hanRank);
    waiting := StableSort(ByHan(inputs.compact, inputs.hanRank), candidates);
    SortedRootsFit(inputs, candidates, waiting);
  }

  lemma SortedWait(s: SearchSession, waiting: seq<Candidate>)
    requires SortedBy(ByHan(s.inputs.compact, s.inputs.hanRank), Filter(InScript(Han), waiting))
    ensures s.HanSorted(waiting)
  {}

  lemma LiteralAlone(inputs: Inputs)
    ensures NoRepeats([LiteralCandidate(inputs.raw)]) && Worded(inputs.raw, LiteralCandidate(inputs.raw))
    ensures SortedBy(ByHan(inputs.compact, inputs.hanRank), Filter(InScript(Han), [LiteralCandidate(inputs.raw)]))
  {
    NoneKept(InScript(Han), [LiteralCandidate(inputs.raw)]);
  }

  lemma RootText(inputs: Inputs, entries: set<Entry>, scores: int -> Option<real>, ranks: int -> int, plan: seq<R.Root>, r: R.Root)
    requires InputsOk(inputs, entries) && IsPlan(inputs, entries, scores, ranks, plan) && r in plan
    ensures HanOnly(r.entry.text) && r.entry.normalized == inputs.norm(r.entry.text)
  {
    hide IsBest;
    var m :| IsRoot(inputs, entries, scores, ranks, r, m);
  }

  /** The selected roots are different Han candidates. */
  lemma RootsFit(inputs: Inputs, entries: set<Entry>, scores: int -> Option<real>, ranks: int -> int, plan: seq<R.Root>, roots: seq<R.Root>)
    requires InputsOk(inputs, entries) && IsPlan(inputs, entries, scores, ranks, plan) && roots == R.Prefix(R.Ranking(plan), CHINESE_PAGE_SIZE)
    ensures forall r :: r in roots ==> r.score.Some?
    ensures var c := RootCandidates(roots);
            && NoRepeats(c) && (forall x :: x in c ==> Worded(inputs.raw, x) && x.kind != Literal && x.script == Han)
            && (forall x, y :: x in c && y in c && x != y ==> IdOf(inputs.norm, x) != IdOf(inputs.norm, y))
            && forall x :: x in c <==> exists r :: r in roots && r.score.Some? && x == SearchSession.RootCandidate(r)
  {
    hide InputsOk, IsPlan, R.Ranking, R.KeyLe;
    assert R.Records(plan) by { PlanIsRecorded(inputs, entries, scores, ranks, plan); }
    R.RankingIsIncreasing(plan);
    forall r | r in roots ensures r in plan && R.Leads(plan, r) && r.score.Some? && HanOnly(r.entry.text) && r.entry.normalized == inputs.norm(r.entry.text) {
      assert r in R.Ranking(plan);
      RootText(inputs, entries, scores, ranks, plan, r);
    }
    var c := RootCandidates(roots);
    forall i, j | 0 <= i < j < |c| ensures IdOf(inputs.norm, c[i]) != IdOf(inputs.norm, c[j]) {
      assert roots[i] in roots && roots[j] in roots;
      if R.IdentityOf(roots[i]) == R.IdentityOf(roots[j]) {
        R.SameIdentity(plan, roots[i], roots[j]);
      }
    }
  }

  lemma PlanIsRecorded(inputs: Inputs, entries: set<Entry>, scores: int -> Option<real>, ranks: int -> int, plan: seq<R.Root>)
    requires IsPlan(inputs, entries, scores, ranks, plan)
    ensures R.Records(plan)
  {}

  lemma SortedRootsFit(inputs: Inputs, candidates: seq<Candidate>, waiting: seq<Candidate>)
    requires NoRepeats(candidates) && TotalPreorder(ByHan(inputs.compact, inputs.hanRank))
    requires waiting == StableSort(ByHan(inputs.compact, inputs.hanRank), candidates) && forall c :: c in candidates ==> c.script == Han
    ensures NoRepeats(waiting) && (forall c :: c in waiting <==> c in candidates)
    ensures SortedBy(ByHan(inputs.compact, inputs.hanRank), Filter(InScript(Han), waiting))
  {
    hide StableSort, TotalPreorder, HanLe;
    StableSortOrders(ByHan(inputs.compact, inputs.hanRank), candidates);
    AllKept(InScript(Han), waiting);
  }

  lemma PlanFits(inputs: Inputs, entries: set<Entry>, scores: int -> Option<real>, ranks: int -> int, plan: seq<R.Root>)
    requires InputsOk(inputs, entries) && KeysParse(inputs) && IsPlan(inputs, entries, scores, ranks, plan)
    ensures ItemOk(TypingOf(inputs, entries), DeferredPlan(plan))
  {
    hide InputsOk, IsPlan, KeysParse, IsRoot, RootOk;
    PlanIsRecorded(inputs, entries, scores, ranks, plan);
    var least := DeferredPlan(plan).least;
    forall r | r in plan ensures RootOk(TypingOf(inputs, entries), r, least) {
      var m := RootMatch(inputs, entries, scores, ranks, plan, r);
      RootFits(inputs, entries, scores, ranks, r, m, least);
    }
  }

  lemma RootMatch(inputs: Inputs, entries: set<Entry>, scores: int -> Option<real>, ranks: int -> int, plan: seq<R.Root>, r: R.Root) returns (m: Match)
    requires IsPlan(inputs, entries, scores, ranks, plan) && r in plan
    ensures IsRoot(inputs, entries, scores, ranks, r, m)
  {
    hide IsRoot;
    m :| IsRoot(inputs, entries, scores, ranks, r, m);
  }

  /** A root of the plan is what the keys may begin with. */
  lemma RootFits(inputs: Inputs, entries: set<Entry>, scores: int -> Option<real>, ranks: int -> int, r: R.Root, m: Match, least: nat)
    requires InputsOk(inputs, entries) && KeysParse(inputs) && IsRoot(inputs, entries, scores, ranks, r, m)
    requires r.score.Some? ==> r.entry.predicted >= least
    ensures RootOk(TypingOf(inputs, entries), r, least)
  {
    hide IsBest, Displayed;
    var typing := TypingOf(inputs, entries);
    BestStaysInside(RootQuery(inputs), m.entry, m);
    RawPositionExactly(inputs.raw, m.nextPosition, RawPosition(inputs.raw, m.nextPosition));
    DisplayedSplits(m.entry.syllablePath);
    assert GoesBy(typing, 0, 0, 0, m, RootEdge(typing, r));
  }

  // ---------------------------------------------------------------------------------
  // Single steps.

  lemma IsQueued(s: SearchSession, x: Item, seen: set<Identity>, known: set<PathKey>, queue: seq<Item>)
    requires s.Carried(x, seen, known, queue) && !x.Deferred? && KeyOf(x) !in known
    ensures InQueue(queue, KeyOf(x))
  {
    hide KeyOf;
  }

  ghost predicate InQueue(queue: seq<Item>, k: PathKey) {
    queue != [] && exists y :: y in queue && KeyOf(y) == k
  }

  /** Where every item has something to hand out, the first one is the parent. */
  lemma FruitfulIsFirst(s: SearchSession, queue: seq<Item>, count: nat, parent: Option<Item>)
    requires s.Popping(queue, count, parent) && queue != [] && forall x :: x in queue ==> !s.Barren(x)
    ensures count == 1 && parent == Some(queue[0]) && queue[0] in queue
  {
    hide SearchSession.Barren;
    assert queue[0] in queue;
    if parent.Some? { FirstOf(queue, count - 1); }
  }

  lemma FirstOf(queue: seq<Item>, n: nat)
    requires n <= |queue|
    ensures n > 0 ==> queue[0] in queue[..n]
  {
    if n > 0 { assert queue[..n][0] == queue[0]; }
  }

  /** A queue holds whatever is on the frontier and not expanded. */
  lemma AllQueued(s: SearchSession, queue: seq<Item>, before: seq<Item>, known: set<PathKey>)
    requires s.QueueOk(queue, before, known, s.seen) && forall x :: x in before ==> !x.Deferred?
    ensures forall x :: x in queue ==> x in before && KeyOf(x) !in known
    ensures forall x :: x in before && KeyOf(x) !in known ==> InQueue(queue, KeyOf(x))
  {
    hide KeyOf, SearchSession.Carried, Ranked, KeysDiffer;
    forall x | x in before && KeyOf(x) !in known ensures InQueue(queue, KeyOf(x)) {
      IsQueued(s, x, s.seen, known, queue);
    }
  }

  lemma NotEmpty(queue: seq<Item>, k: PathKey)
    requires InQueue(queue, k)
    ensures queue != []
  {}

  /** On such a frontier a step pops the first of the queue, and scores it. */
  lemma FirstIsPopped(s: SearchSession, step: Step, scorer: Scorer, before: seq<Item>, known: set<PathKey>, target: Item)
    requires step.Popped? && s.PoppedOk(step, scorer, before, known, s.seen, s.expanded, s.frontier, s.exhausted)
    requires (forall x :: x in before ==> !x.Deferred? && !s.Barren(x)) && target in before && KeyOf(target) !in known
    ensures step.queue != [] && step.count == 1 && step.parent == Some(step.queue[0]) && step.queue[0] in before && KeyOf(step.queue[0]) !in known
    ensures s.Handed(step.queue[0], step.tokens, step.edges) && step.answer == scorer(step.queue[0], step.tokens)
    ensures forall x :: x in step.queue ==> x in before
    ensures forall x :: x in before && KeyOf(x) !in known ==> InQueue(step.queue, KeyOf(x))
    ensures s.Usable(step.answer, step.tokens) ==>
              && s.expanded == known + {KeyOf(step.queue[0])}
              && s.ScoredOff(step.queue[0], step.tokens, step.edges, step.answer.values, s.seen, s.expanded, s.frontier)
              && forall y :: y in step.queue[1..] ==> s.Carried(y, s.seen, s.expanded, s.frontier)
  {
    hide KeyOf, SearchSession.ScoredOff, SearchSession.QueueOk, SearchSession.NothingToResume, SearchSession.Carried, SearchSession.Barren,
         SearchSession.Popping, KeysOf, SearchSession.Handed, InQueue;
    AllQueued(s, step.queue, before, known);
    assert InQueue(step.queue, KeyOf(target));
    assert step.queue != [] by { NotEmpty(step.queue, KeyOf(target)); }
    FruitfulIsFirst(s, step.queue, step.count, step.parent);
    s.OneMore(step.queue, 0);
    s.NothingPopped(step.queue, known);
  }

  /** Every other item is still on the frontier, under its key. */
  lemma OthersRemain(s: SearchSession, queue: seq<Item>, known: set<PathKey>, x: Item)
    requires queue != [] && s.expanded == known + {KeyOf(queue[0])} && x in queue && KeyOf(x) != KeyOf(queue[0]) && KeyOf(x) !in known && !x.Deferred?
    requires forall y :: y in queue[1..] ==> s.Carried(y, s.seen, s.expanded, s.frontier)
    ensures InQueue(s.frontier, KeyOf(x))
  {
    hide KeyOf;
    assert queue == [queue[0]] + queue[1..] && x in queue[1..];
    assert s.Carried(x, s.seen, s.expanded, s.frontier);
  }

  /** Without a remainder, seeds or a deferred plan, a step on a frontier that is not empty pops. */
  lemma IsPopped(s: SearchSession, step: Step, before: seq<Item>, known: set<PathKey>)
    requires before != [] && s.inputs.hasRoot && forall x :: x in before ==> x.LatinPath? || x.Search?
    requires step.Resumed? ==> s.ResumedOk(step.work, before, known, s.seen, s.frontier)
    requires step.Ended? ==> before == [] || !s.inputs.hasRoot
    ensures step.Popped?
  {
    hide SearchSession.Carried, SearchSession.WorkedOff, SearchSession.HoldsBack;
  }

  lemma {:induction false} DistinctFits<T>(s: seq<T>, all: set<T>)
    requires (forall i, j :: 0 <= i < j < |s| ==> s[i] != s[j]) && forall i :: 0 <= i < |s| ==> s[i] in all
    ensures |s| <= |all|
  {
    if s != [] { DistinctFits(s[..|s| - 1], all - {s[|s| - 1]}); }
  }

  lemma SameKey(start: seq<Item>, x: Item, y: Item)
    requires KeysDiffer(start) && x in start && y in start && KeyOf(x) == KeyOf(y)
    ensures x == y
  {
    hide KeyOf;
    var i :| 0 <= i < |start| && start[i] == x;
    var j :| 0 <= j < |start| && start[j] == y;
  }

  // ---------------------------------------------------------------------------------
  // The keys shown twice.

  /** Tokens that go on from a text to the keys, at most so many of them, beginning with the i-th
      token of the vocabulary or a later one. */
  function TokensToKeys(inputs: Inputs, text: string, left: nat, i: nat): (r: Option<seq<int>>)
    requires i <= |inputs.latinTokens|
    ensures r.Some? ==> 0 < |r.value| <= left && (forall t :: t in r.value ==> t in inputs.latinTokens) && text + Spelled(inputs, r.value) == inputs.raw
    decreases left, |inputs.latinTokens| - i
  {
    if left == 0 || i == |inputs.latinTokens| then None
    else
      var t := inputs.latinTokens[i];
      var more := text + inputs.latinFragment(t);
      if more == inputs.raw then
        OneSpelled(inputs, t);
        Some([t])
      else
        var rest := TokensToKeys(inputs, more, left - 1, 0);
        if rest.Some? then
          MoreSpelled(inputs, text, t, rest.value);
          Some([t] + rest.value)
        else TokensToKeys(inputs, text, left, i + 1)
  }

  lemma OneSpelled(inputs: Inputs, t: int)
    ensures Spelled(inputs, [t]) == inputs.latinFragment(t)
  {
    assert Spelled(inputs, [t]) == inputs.latinFragment(t) + "";
  }

  lemma MoreSpelled(inputs: Inputs, text: string, t: int, rest: seq<int>)
    ensures text + Spelled(inputs, [t] + rest) == text + inputs.latinFragment(t) + Spelled(inputs, rest)
  {
    assert ([t] + rest)[1..] == rest;
  }

  /** The search for such tokens misses none. */
  lemma {:induction false} TokensAreFound(inputs: Inputs, text: string, left: nat, i: nat, tokens: seq<int>)
    requires 0 < |tokens| <= left && i <= |inputs.latinTokens| && text + Spelled(inputs, tokens) == inputs.raw
    requires tokens[0] in inputs.latinTokens[i..] && forall t :: t in tokens ==> t in inputs.latinTokens
    ensures TokensToKeys(inputs, text, left, i).Some?
    decreases left, |inputs.latinTokens| - i
  {
    var t := inputs.latinTokens[i];
    if tokens[0] == t {
      assert tokens == [t] + tokens[1..];
      if |tokens| == 1 {
        OneSpelled(inputs, t);
      } else {
        MoreSpelled(inputs, text, t, tokens[1..]);
        var u := tokens[1];
        assert inputs.latinTokens[0..] == inputs.latinTokens && u in tokens && u in inputs.latinTokens;
        TokensAreFound(inputs, text + inputs.latinFragment(t), left - 1, 0, tokens[1..]);
      }
    } else {
      assert inputs.latinTokens[i..] == [t] + inputs.latinTokens[i + 1..];
      TokensAreFound(inputs, text, left, i + 1, tokens);
    }
  }

  /** Whether a path can be completed to the keys is decided by trying. */
  lemma CompletableExactly(inputs: Inputs, text: string, tokenPath: seq<int>)
    requires |tokenPath| <= MAX_MODEL_TOKENS
    ensures Completable(inputs, text, tokenPath) <==>
              && |inputs.raw| <= MAX_LATIN_CHARACTERS && L.IsLatin(inputs.raw)
              && TokensToKeys(inputs, text, MAX_MODEL_TOKENS - |tokenPath|, 0).Some?
  {
    var r := TokensToKeys(inputs, text, MAX_MODEL_TOKENS - |tokenPath|, 0);
    if |inputs.raw| <= MAX_LATIN_CHARACTERS && L.IsLatin(inputs.raw) {
      if r.Some? { assert Completes(inputs, text, tokenPath, r.value); }
      if tokens :| Completes(inputs, text, tokenPath, tokens) {
        var u := tokens[0];
        assert inputs.latinTokens[0..] == inputs.latinTokens && u in tokens && u in inputs.latinTokens;
        TokensAreFound(inputs, text, MAX_MODEL_TOKENS - |tokenPath|, 0, tokens);
      }
    }
  }

  method FirstCompletable(inputs: Inputs, frontier: seq<Item>) returns (target: Item, tokens: seq<int>)
    requires (forall x :: x in frontier ==> x.LatinPath? && |x.latinTokens| <= MAX_MODEL_TOKENS) && !Quiet(inputs, frontier)
    ensures target in frontier && target.LatinPath? && Completes(inputs, target.latinText, target.latinTokens, tokens)
    ensures |inputs.raw| <= MAX_LATIN_CHARACTERS && L.IsLatin(inputs.raw)
  {
    hide Completable;
    ghost var m: nat :| m < |frontier| && !QuietItem(inputs, frontier[m]);
    for n := 0 to |frontier|
      invariant n <= m
    {
      var x := frontier[n];
      assert x in frontier;
      CompletableExactly(inputs, x.latinText, x.latinTokens);
      var found := TokensToKeys(inputs, x.latinText, MAX_MODEL_TOKENS - |x.latinTokens|, 0);
      if found.Some? && |inputs.raw| <= MAX_LATIN_CHARACTERS && L.IsLatin(inputs.raw) { return x, found.value; }
    }
  }

  /** The path after the first k of the tokens. */
  function Link(inputs: Inputs, target: Item, tokens: seq<int>, k: nat): Item
    requires target.LatinPath? && k <= |tokens|
  {
    LatinPath(target.latinText + Spelled(inputs, tokens[..k]), target.latinTokens + tokens[..k], target.latinScore)
  }

  lemma {:induction false} SpelledJoin(inputs: Inputs, a: seq<int>, b: seq<int>)
    ensures Spelled(inputs, a + b) == Spelled(inputs, a) + Spelled(inputs, b)
  {
    if a == [] {
      assert a + b == b;
    } else {
      assert (a + b)[1..] == a[1..] + b;
      SpelledJoin(inputs, a[1..], b);
    }
  }

  /** Each link is the one before and one more token. */
  lemma NextLink(inputs: Inputs, target: Item, tokens: seq<int>, k: nat)
    requires target.LatinPath? && k < |tokens|
    ensures var x, y := Link(inputs, target, tokens, k), Link(inputs, target, tokens, k + 1);
            && y.latinText == x.latinText + inputs.latinFragment(tokens[k]) && y.latinTokens == x.latinTokens + [tokens[k]]
  {
    assert tokens[..k + 1] == tokens[..k] + [tokens[k]];
    SpelledJoin(inputs, tokens[..k], [tokens[k]]);
    OneSpelled(inputs, tokens[k]);
  }

  /** Every link behind the first may be shown and kept, until the keys are spelled out. */
  lemma LinkIsLegal(s: SearchSession, target: Item, tokens: seq<int>, k: nat)
    requires target.LatinPath? && Completes(s.inputs, target.latinText, target.latinTokens, tokens) && 0 < k <= |tokens|
    requires |s.inputs.raw| <= MAX_LATIN_CHARACTERS && L.IsLatin(s.inputs.raw)
    requires InputsOk(s.inputs, s.matcher.entries)
    ensures var x := Link(s.inputs, target, tokens, k);
            && s.LatinLegal(x.latinText) && |x.latinTokens| <= MAX_MODEL_TOKENS && x.latinText <= s.inputs.raw
            && (k == |tokens| ==> x.latinText == s.inputs.raw)
            && (k < |tokens| ==> |x.latinTokens| < MAX_MODEL_TOKENS && |x.latinText| < |s.inputs.raw|)
  {
    var x := Link(s.inputs, target, tokens, k);
    assert tokens == tokens[..k] + tokens[k..];
    SpelledJoin(s.inputs, tokens[..k], tokens[k..]);
    assert s.inputs.raw == x.latinText + Spelled(s.inputs, tokens[k..]);
    FirstFragment(s, tokens);
    assert tokens[..k] == [tokens[0]] + tokens[1..k] && tokens[..k][1..] == tokens[1..k];
    if k < |tokens| { FirstFragment(s, tokens[k..]); }
    PrefixLegal(s, x.latinText);
  }

  lemma FirstFragment(s: SearchSession, tokens: seq<int>)
    requires InputsOk(s.inputs, s.matcher.entries) && tokens != [] && forall t :: t in tokens ==> t in s.inputs.latinTokens
    ensures Spelled(s.inputs, tokens) != "" && s.inputs.latinFragment(tokens[0]) != ""
  {
    var t := tokens[0];
    assert t in tokens && t in s.inputs.latinTokens && L.IsLatin(s.inputs.latinFragment(t));
  }

  lemma PrefixLegal(s: SearchSession, text: string)
    requires text != "" && text <= s.inputs.raw && L.IsLatin(s.inputs.raw) && |s.inputs.raw| <= MAX_LATIN_CHARACTERS
    ensures s.LatinLegal(text)
  {
    assert L.Fold(text) == L.Fold(s.inputs.raw)[..|text|];
    assert forall i :: 0 <= i < |text| ==> text[i] == s.inputs.raw[i];
  }

  /** Every step but one finds nothing likely: the scorer is sure of the tokens that spell the keys. */
  function KeysScorer(inputs: Inputs, target: Item, tokens: seq<int>): Scorer
    requires target.LatinPath?
  {
    (x: Item, allowed: seq<int>) =>
      Scored(seq(|allowed|, i requires 0 <= i < |allowed| => if Likely(inputs, target, tokens, x, allowed[i]) then Some(0.0) else None))
  }

  predicate Likely(inputs: Inputs, target: Item, tokens: seq<int>, x: Item, t: int)
    requires target.LatinPath?
  {
    && x.LatinPath? && |target.latinTokens| <= |x.latinTokens| < |target.latinTokens| + |tokens|
    && var k := |x.latinTokens| - |target.latinTokens|; x == Link(inputs, target, tokens, k) && t == tokens[k]
  }

  lemma FirstLink(inputs: Inputs, target: Item, tokens: seq<int>)
    requires target.LatinPath?
    ensures Link(inputs, target, tokens, 0) == target
  {
    assert target.latinText + "" == target.latinText && target.latinTokens + [] == target.latinTokens && tokens[..0] == [];
  }

  /** Roots, each of one token, and one path that goes on to the keys. */
  ghost predicate KeysStart(s: SearchSession, start: seq<Item>, target: Item, tokens: seq<int>) {
    && s.BoundTo() && s.inputs.hasRoot && KeysDiffer(start) && (forall x :: x in start ==> x.LatinPath? && |x.latinTokens| == 1)
    && target in start && target.LatinPath? && Completes(s.inputs, target.latinText, target.latinTokens, tokens)
    && |s.inputs.raw| <= MAX_LATIN_CHARACTERS && L.IsLatin(s.inputs.raw)
  }

  ghost predicate AtLink(s: SearchSession, start: seq<Item>, target: Item, tokens: seq<int>, n: nat, x: Item)
    requires target.LatinPath? && n < |tokens|
  {
    x in start || exists k :: 0 <= k <= n && x == Link(s.inputs, target, tokens, k)
  }

  ghost function LinkKeys(s: SearchSession, start: seq<Item>, target: Item, tokens: seq<int>): set<PathKey>
    requires target.LatinPath?
  {
    KeysOf(start) + set k: nat | k < |tokens| :: KeyOf(Link(s.inputs, target, tokens, k))
  }

  /** The n-th link waits, the ones before it are expanded, and nothing but roots and links is there. */
  ghost predicate OnTheWay(s: SearchSession, start: seq<Item>, target: Item, tokens: seq<int>, n: nat, frontier: seq<Item>, expanded: set<PathKey>)
    requires target.LatinPath?
  {
    && n < |tokens| && Link(s.inputs, target, tokens, n) in frontier
    && (forall k: nat :: k < |tokens| ==> (KeyOf(Link(s.inputs, target, tokens, k)) in expanded <==> k < n))
    && (forall x :: x in frontier ==> AtLink(s, start, target, tokens, n, x)) && expanded <= LinkKeys(s, start, target, tokens)
  }

  /** A key of a link is the key of no root and of no other link. */
  lemma LinkByKey(s: SearchSession, start: seq<Item>, target: Item, tokens: seq<int>, n: nat, x: Item, k: nat)
    requires KeysStart(s, start, target, tokens) && n < |tokens| && k < |tokens| && AtLink(s, start, target, tokens, n, x)
    requires KeyOf(x) == KeyOf(Link(s.inputs, target, tokens, k))
    ensures x == Link(s.inputs, target, tokens, k) && k <= n
  {
    FirstLink(s.inputs, target, tokens);
    if x in start { SameKey(start, x, target); }
  }

  lemma LinksAreLatin(s: SearchSession, start: seq<Item>, target: Item, tokens: seq<int>, n: nat, frontier: seq<Item>)
    requires KeysStart(s, start, target, tokens) && n < |tokens| && forall x :: x in frontier ==> AtLink(s, start, target, tokens, n, x)
    ensures s.inputs.latinTokens != [] && forall x :: x in frontier ==> x.LatinPath? && !s.Barren(x)
  {
    hide InputsOk;
    var t := tokens[0];
    assert t in tokens && t in s.inputs.latinTokens;
  }

  /** A path that is not the link is not likely to go on. */
  lemma OthersAreSilent(s: SearchSession, start: seq<Item>, target: Item, tokens: seq<int>, n: nat, expanded: set<PathKey>, x: Item, t: int)
    requires target.LatinPath? && KeysStart(s, start, target, tokens) && n < |tokens| && AtLink(s, start, target, tokens, n, x) && KeyOf(x) !in expanded
    requires forall k: nat :: k < |tokens| ==> (KeyOf(Link(s.inputs, target, tokens, k)) in expanded <==> k < n)
    requires x != Link(s.inputs, target, tokens, n)
    ensures !Likely(s.inputs, target, tokens, x, t)
  {
    hide KeysStart, KeyOf, AtLink, Link;
    forall k: nat | k < |tokens| ensures x != Link(s.inputs, target, tokens, k) {
      if x == Link(s.inputs, target, tokens, k) { LinkByKey(s, start, target, tokens, n, x, k); }
    }
  }

  lemma NothingFinite(s: SearchSession, text: string, path: seq<int>, score: real, tokens: seq<int>, values: Scores, was: seq<Item>, frontier: seq<Item>)
    requires |values| == |tokens| && (forall p: nat :: !IsFinite(values, p)) && s.LatinBrings(text, path, score, tokens, values, was, frontier)
    ensures forall y :: y in frontier ==> y in was
  {}

  /** Scoring the link shows the keys, or puts the next link on the frontier. */
  lemma LinkGoesOn(s: SearchSession, start: seq<Item>, target: Item, tokens: seq<int>, n: nat, edges: map<int, seq<Edge>>, values: Scores)
    requires KeysStart(s, start, target, tokens) && n < |tokens|
    requires KeysScorer(s.inputs, target, tokens)(Link(s.inputs, target, tokens, n), s.inputs.latinTokens) == Scored(values)
    requires |values| == |s.inputs.latinTokens|
    requires s.ScoredOff(Link(s.inputs, target, tokens, n), s.inputs.latinTokens, edges, values, s.seen, s.expanded, s.frontier)
    ensures n + 1 == |tokens| ==> (s.norm(s.inputs.raw), |s.inputs.raw|) in s.seen
    ensures n + 1 < |tokens| ==> s.Held(KeyOf(Link(s.inputs, target, tokens, n + 1)), s.expanded, s.frontier)
  {
    hide InputsOk, KeyOf, L.IsLatin, L.Fold, SearchSession.Held, KeysDiffer;
    var link, next, allowed := Link(s.inputs, target, tokens, n), Link(s.inputs, target, tokens, n + 1), s.inputs.latinTokens;
    var t := tokens[n];
    assert t in tokens && t in allowed;
    var q: nat :| q < |allowed| && allowed[q] == t;
    assert Likely(s.inputs, target, tokens, link, t) && IsFinite(values, q);
    var order, tried :| s.LatinWorked(link, allowed, values, order, tried, s.seen, s.expanded, s.frontier);
    assert q in order && order[0] in order;
    var queue :| s.AllHeld(queue, s.expanded, s.frontier)
                 && forall k :: 0 <= k < tried ==> s.TokenTried(link.latinText, link.latinTokens, link.latinScore, allowed, values, order[k], s.seen, queue);
    var p := order[0];
    assert s.TokenTried(link.latinText, link.latinTokens, link.latinScore, allowed, values, p, s.seen, queue);
    assert IsFinite(values, p) && allowed[p] == t && values[p].value == 0.0;
    NextLink(s.inputs, target, tokens, n);
    LinkIsLegal(s, target, tokens, n + 1);
    assert s.LatinDone(next.latinText, next.latinTokens, next.latinScore, s.seen, queue);
    if n + 1 < |tokens| { assert next in queue; }
  }

  /** What a link brings is the next link. */
  lemma OnlyTheNext(s: SearchSession, start: seq<Item>, target: Item, tokens: seq<int>, n: nat, values: Scores, was: seq<Item>, frontier: seq<Item>)
    requires KeysStart(s, start, target, tokens) && n + 1 < |tokens| && |values| == |s.inputs.latinTokens|
    requires KeysScorer(s.inputs, target, tokens)(Link(s.inputs, target, tokens, n), s.inputs.latinTokens) == Scored(values)
    requires var x := Link(s.inputs, target, tokens, n);
             s.LatinBrings(x.latinText, x.latinTokens, x.latinScore, s.inputs.latinTokens, values, was, frontier)
    ensures forall y :: y in frontier ==> y in was || y == Link(s.inputs, target, tokens, n + 1)
  {
    hide InputsOk, L.IsLatin, KeysDiffer, Completes;
    var x := Link(s.inputs, target, tokens, n);
    NextLink(s.inputs, target, tokens, n);
    forall y | y in frontier && y !in was ensures y == Link(s.inputs, target, tokens, n + 1) {
      assert s.LatinChild(x.latinText, x.latinTokens, x.latinScore, s.inputs.latinTokens, values, y);
      var p: nat :| IsFinite(values, p)
                    && y == LatinPath(x.latinText + s.inputs.latinFragment(s.inputs.latinTokens[p]), x.latinTokens + [s.inputs.latinTokens[p]],
                                      x.latinScore + values[p].value);
      assert Likely(s.inputs, target, tokens, x, s.inputs.latinTokens[p]);
    }
  }

  lemma AtLaterLink(s: SearchSession, start: seq<Item>, target: Item, tokens: seq<int>, n: nat, x: Item)
    requires target.LatinPath? && n + 1 < |tokens| && (AtLink(s, start, target, tokens, n, x) || x == Link(s.inputs, target, tokens, n + 1))
    ensures AtLink(s, start, target, tokens, n + 1, x)
  {
    hide Link;
  }

  /** The link was the parent. */
  lemma LinkStep(s: SearchSession, queue: seq<Item>, start: seq<Item>, before: seq<Item>, known: set<PathKey>,
                 target: Item, tokens: seq<int>, n: nat, edges: map<int, seq<Edge>>, values: Scores)
    requires target.LatinPath? && KeysStart(s, start, target, tokens) && OnTheWay(s, start, target, tokens, n, before, known)
    requires KeysScorer(s.inputs, target, tokens)(Link(s.inputs, target, tokens, n), s.inputs.latinTokens) == Scored(values)
    requires |values| == |s.inputs.latinTokens| && s.expanded == known + {KeyOf(Link(s.inputs, target, tokens, n))}
    requires s.ScoredOff(Link(s.inputs, target, tokens, n), s.inputs.latinTokens, edges, values, s.seen, s.expanded, s.frontier)
    requires var x := Link(s.inputs, target, tokens, n);
             s.LatinBrings(x.latinText, x.latinTokens, x.latinScore, s.inputs.latinTokens, values, queue, s.frontier)
    requires forall x :: x in queue ==> x in before
    ensures (s.norm(s.inputs.raw), |s.inputs.raw|) in s.seen || OnTheWay(s, start, target, tokens, n + 1, s.frontier, s.expanded)
  {
    hide KeysScorer, SearchSession.ScoredOff, SearchSession.LatinBrings, KeysStart, AtLink;
    LinkGoesOn(s, start, target, tokens, n, edges, values);
    if n + 1 < |tokens| {
      var next := Link(s.inputs, target, tokens, n + 1);
      OnlyTheNext(s, start, target, tokens, n, values, queue, s.frontier);
      forall x | x in s.frontier ensures AtLink(s, start, target, tokens, n + 1, x) { AtLaterLink(s, start, target, tokens, n, x); }
      LinkKeysDiffer(s, target, tokens, n);
      var y :| y in s.frontier && KeyOf(y) == KeyOf(next);
      LinkByKey(s, start, target, tokens, n + 1, y, n + 1);
      AmongLinkKeys(s, start, target, tokens, n);
    }
  }

  lemma LinkKeysDiffer(s: SearchSession, target: Item, tokens: seq<int>, n: nat)
    requires target.LatinPath? && n < |tokens|
    ensures forall k: nat :: k < |tokens| && k != n ==> KeyOf(Link(s.inputs, target, tokens, k)) != KeyOf(Link(s.inputs, target, tokens, n))
  {}

  lemma AmongLinkKeys(s: SearchSession, start: seq<Item>, target: Item, tokens: seq<int>, n: nat)
    requires target.LatinPath? && n < |tokens|
    ensures KeyOf(Link(s.inputs, target, tokens, n)) in LinkKeys(s, start, target, tokens)
    ensures forall x :: x in start ==> KeyOf(x) in LinkKeys(s, start, target, tokens)
  {
    hide KeyOf;
  }

  /** Another path was the parent. */
  lemma OtherStep(s: SearchSession, queue: seq<Item>, start: seq<Item>, before: seq<Item>, known: set<PathKey>,
                  target: Item, tokens: seq<int>, n: nat)
    requires target.LatinPath? && KeysStart(s, start, target, tokens) && OnTheWay(s, start, target, tokens, n, before, known) && queue != []
    requires s.expanded == known + {KeyOf(queue[0])} && queue[0] in start && queue[0] != Link(s.inputs, target, tokens, n) && KeyOf(queue[0]) !in known
    requires InQueue(queue, KeyOf(Link(s.inputs, target, tokens, n))) && forall x :: x in queue ==> x in before
    requires forall y :: y in queue[1..] ==> s.Carried(y, s.seen, s.expanded, s.frontier)
    requires forall y :: y in s.frontier ==> y in before
    ensures OnTheWay(s, start, target, tokens, n, s.frontier, s.expanded)
  {
    hide KeysStart, AtLink, KeyOf, SearchSession.Carried;
    var link := Link(s.inputs, target, tokens, n);
    var x :| x in queue && KeyOf(x) == KeyOf(link);
    LinkByKey(s, start, target, tokens, n, x, n);
    var first := queue[0];
    assert AtLink(s, start, target, tokens, n, first);
    if KeyOf(link) == KeyOf(first) { LinkByKey(s, start, target, tokens, n, first, n); }
    assert link.LatinPath?;
    OthersRemain(s, queue, known, link);
    var y :| y in s.frontier && KeyOf(y) == KeyOf(link);
    LinkByKey(s, start, target, tokens, n, y, n);
    AmongLinkKeys(s, start, target, tokens, n);
    forall k: nat | k < |tokens| && KeyOf(first) == KeyOf(Link(s.inputs, target, tokens, k)) ensures false {
      LinkByKey(s, start, target, tokens, n, first, k);
    }
  }

  /** A root or an earlier link that is not expanded yet is a root. */
  lemma UnexpandedIsRoot(s: SearchSession, start: seq<Item>, target: Item, tokens: seq<int>, n: nat, before: seq<Item>, known: set<PathKey>, x: Item)
    requires target.LatinPath? && KeysStart(s, start, target, tokens) && OnTheWay(s, start, target, tokens, n, before, known)
    requires x in before && KeyOf(x) !in known && x != Link(s.inputs, target, tokens, n)
    ensures x in start
  {
    hide KeysStart, KeyOf, Link;
    assert AtLink(s, start, target, tokens, n, x);
  }

  /** One step of the run: the keys are shown, or the next link waits, or another path is used up. */
  lemma KeysStep(s: SearchSession, step: Step, start: seq<Item>, before: seq<Item>, known: set<PathKey>, ids: set<Identity>, waiting: seq<Candidate>,
                 target: Item, tokens: seq<int>, n: nat)
    requires target.LatinPath? && KeysStart(s, start, target, tokens) && OnTheWay(s, start, target, tokens, n, before, known)
    requires step.Popped? && s.PoppedOk(step, KeysScorer(s.inputs, target, tokens), before, known, s.seen, s.expanded, s.frontier, s.exhausted)
    requires s.StepBrings(step, before, ids, waiting, s.pending, s.seen, s.frontier)
    ensures s.expanded > known && s.expanded <= LinkKeys(s, start, target, tokens) && s.NewlyShown(ids, s.seen, s.pending)
    ensures || (s.norm(s.inputs.raw), |s.inputs.raw|) in s.seen
            || OnTheWay(s, start, target, tokens, n, s.frontier, s.expanded)
            || OnTheWay(s, start, target, tokens, n + 1, s.frontier, s.expanded)
  {
    hide KeysStart, KeyOf, AtLink, Link, LinkKeys, SearchSession.PoppedOk, SearchSession.ScoredOff, SearchSession.Carried, SearchSession.Barren,
         SearchSession.NewlyShown, SearchSession.LatinBrings, InQueue;
    var scorer, link, allowed := KeysScorer(s.inputs, target, tokens), Link(s.inputs, target, tokens, n), s.inputs.latinTokens;
    LinksAreLatin(s, start, target, tokens, n, before);
    assert forall x :: x in before ==> x.LatinPath?;
    FirstIsPopped(s, step, scorer, before, known, link);
    var parent := step.queue[0];
    assert step.tokens == allowed && s.Usable(step.answer, step.tokens);
    var values := step.answer.values;
    assert s.Growth(parent, allowed, step.edges, values, ids, step.queue[1..], waiting, s.pending, s.seen, s.frontier);
    var text, path, score :| parent == LatinPath(text, path, score)
                             && s.LatinBrings(text, path, score, allowed, values, step.queue[1..], s.frontier);
    RestOf(step.queue);
    if parent == link {
      LinkStep(s, step.queue[1..], start, before, known, target, tokens, n, step.edges, values);
      AmongLinkKeys(s, start, target, tokens, n);
    } else {
      UnexpandedIsRoot(s, start, target, tokens, n, before, known, parent);
      AmongLinkKeys(s, start, target, tokens, n);
      forall p: nat ensures !IsFinite(values, p) {
        if p < |values| { OthersAreSilent(s, start, target, tokens, n, known, parent, allowed[p]); }
      }
      NothingFinite(s, text, path, score, allowed, values, step.queue[1..], s.frontier);
      OtherStep(s, step.queue, start, before, known, target, tokens, n);
    }
  }

  lemma RestOf(queue: seq<Item>)
    requires queue != []
    ensures forall x :: x in queue[1..] ==> x in queue
  {}

  ghost predicate KeysFound(s: SearchSession)
    reads s
  {
    exists c :: c in s.pending && c.kind == Neural && IdOf(s.norm, c) == (s.norm(s.inputs.raw), |s.inputs.raw|)
  }

  lemma FoundIsShown(s: SearchSession, known: set<Identity>)
    requires s.NewlyShown(known, s.seen, s.pending) && (s.norm(s.inputs.raw), |s.inputs.raw|) in s.seen
    requires (s.norm(s.inputs.raw), |s.inputs.raw|) !in known
    ensures KeysFound(s)
  {}

  lemma AtTheStart(s: SearchSession, target: Item, tokens: seq<int>)
    requires target.LatinPath? && KeysStart(s, s.frontier, target, tokens) && s.expanded == {}
    ensures OnTheWay(s, s.frontier, target, tokens, 0, s.frontier, s.expanded)
  {
    hide KeyOf;
    FirstLink(s.inputs, target, tokens);
  }

  /** The run: link after link is scored, until the keys are found. */
  method SpellKeys(s: SearchSession, target: Item, tokens: seq<int>)
    requires target.LatinPath? && KeysStart(s, s.frontier, target, tokens)
    requires s.OrderOk() && s.expanded == {} && (s.norm(s.inputs.raw), |s.inputs.raw|) !in s.seen
    modifies s`pending, s`seen, s`frontier, s`expanded, s`exhausted
    ensures s.OrderOk() && KeysFound(s)
  {
    hide KeysStart, OnTheWay, KeyOf, InputsOk, FrontierOk, SearchSession.CleanAre, SearchSession.PoppedOk, SearchSession.StepBrings,
         SearchSession.ResumedOk, NoneDropped, OneRemainder, NoneExpanded, NoneLonger, SearchSession.Traced, SearchSession.NewlyShown, KeysFound;
    var scorer := KeysScorer(s.inputs, target, tokens);
    ghost var start, n: nat := s.frontier, 0;
    ghost var all := LinkKeys(s, start, target, tokens);
    AtTheStart(s, target, tokens);
    StartKeys(s, start, target, tokens, n);
    while (s.norm(s.inputs.raw), |s.inputs.raw|) !in s.seen
      invariant s.OrderOk() && s.expanded <= all
      invariant (s.norm(s.inputs.raw), |s.inputs.raw|) in s.seen ==> KeysFound(s)
      invariant (s.norm(s.inputs.raw), |s.inputs.raw|) !in s.seen ==> OnTheWay(s, start, target, tokens, n, s.frontier, s.expanded)
      decreases all - s.expanded
    {
      ghost var before, known, ids, waiting := s.frontier, s.expanded, s.seen, s.pending;
      WayIsLatin(s, start, target, tokens, n);
      var progressed: Option<nat>;
      ghost var step: Step;
      progressed, step := s.ExpandOneFrontier(scorer);
      IsPopped(s, step, before, known);
      KeysStep(s, step, start, before, known, ids, waiting, target, tokens, n);
      if (s.norm(s.inputs.raw), |s.inputs.raw|) in s.seen {
        FoundIsShown(s, ids);
      } else if !OnTheWay(s, start, target, tokens, n, s.frontier, s.expanded) {
        n := n + 1;
      }
    }
  }

  lemma StartKeys(s: SearchSession, start: seq<Item>, target: Item, tokens: seq<int>, n: nat)
    requires target.LatinPath? && OnTheWay(s, start, target, tokens, n, s.frontier, s.expanded)
    ensures s.expanded <= LinkKeys(s, start, target, tokens)
  {}

  lemma WayIsLatin(s: SearchSession, start: seq<Item>, target: Item, tokens: seq<int>, n: nat)
    requires target.LatinPath? && KeysStart(s, start, target, tokens) && OnTheWay(s, start, target, tokens, n, s.frontier, s.expanded) && s.OrderOk()
    ensures s.frontier != [] && s.inputs.hasRoot && !s.exhausted && forall x :: x in s.frontier ==> x.LatinPath?
  {
    hide InputsOk, KeyOf, FrontierOk;
    LinksAreLatin(s, start, target, tokens, n, s.frontier);
  }

  /** A literal that waits alone is page zero. */
  lemma LiteralIsFirst(s: SearchSession)
    requires s.pending == [LiteralCandidate(s.inputs.raw)] && !s.Chinese()
    ensures FirstPage(s.Freezable(), s.Chinese()) == [LiteralCandidate(s.inputs.raw)]
  {
    var literal := LiteralCandidate(s.inputs.raw);
    var keep := MayFreeze(if s.exhausted then None else MinimumFuture(s.frontier, s.expanded, s.inputs.hasRoot), 0 !in s.frozen, s.Chinese());
    assert keep(literal);
    assert [literal][1..] == [];
    assert Filter(keep, [literal]) == [literal];
  }

  /** A session that waits with the keys as its literal, before its first page: Latin comes first, and
      no Latin root begins with the keys. */
  ghost predicate LiteralStart(s: SearchSession)
    reads s
  {
    && s.PagesOk() && s.OrderOk() && s.pages == 0 && s.inputs.mode == LatinFirst && s.inputs.hasRoot
    && s.pending == [LiteralCandidate(s.inputs.raw)] && s.expanded == {} && s.seen == {}
    && (forall x :: x in s.frontier ==> x.LatinPath? && |x.latinTokens| == 1) && KeysDiffer(s.frontier)
  }

  /** The start at which uniqueness fails, for whatever vocabulary: some root on the frontier can be
      completed to the keys by tokens of the vocabulary. Then there is a run, with a scorer that finds
      these tokens alone likely, in which page zero shows the keys and the search finds them again.
      Any other start keeps every identity unique (the constructor and `Serve`). */
  method LiteralRepeats(s: SearchSession)
    requires LiteralStart(s) && !Quiet(s.inputs, s.frontier)
    modifies s
    ensures s.PagesOk() && s.OrderOk() && s.published == [LiteralCandidate(s.inputs.raw)] && KeysFound(s)
    ensures !Unique(s.norm, s.published, s.pending)
  {
    hide KeyOf, InputsOk, ItemOk, KeysDiffer, FrontierOk, SearchSession.CleanAre, SearchSession.PagesAre, Completable, FirstPage, Filter, NoneDropped,
         OneRemainder, NoneExpanded, Completes, NoneLonger, SearchSession.Traced, SearchSession.BucketsAre, SearchSession.Freezable;
    var target, tokens := FirstCompletable(s.inputs, s.frontier);
    hide Quiet;
    LiteralIsFirst(s);
    s.FreezeFirstPage();
    SpellKeys(s, target, tokens);
    TwiceShown(s);
  }

  lemma TwiceShown(s: SearchSession)
    requires KeysFound(s) && s.published == [LiteralCandidate(s.inputs.raw)]
    ensures !Unique(s.norm, s.published, s.pending)
  {
    assert s.published[0] in s.published;
  }

  /** The keys "hello" with the root "he" and the token "llo". */
  method HelloTwice(inputs: Inputs) returns (s: SearchSession)
    requires HelloKeys(inputs)
    ensures s.inputs == inputs && s.published == [LiteralCandidate("hello")] && !Unique(s.norm, s.published, s.pending)
  {
    hide LiteralStart, Quiet, HelloKeys;
    s := HelloStart(inputs);
    LiteralRepeats(s);
  }

  ghost predicate HelloKeys(inputs: Inputs) {
    && inputs.mode == LatinFirst && inputs.hasRoot && inputs.raw == "hello" && inputs.freeEntries == []
    && inputs.norm == Verbatim() && inputs.latinTokens == [7] && inputs.latinFragment(7) == "llo"
  }

  method HelloStart(inputs: Inputs) returns (s: SearchSession)
    requires HelloKeys(inputs)
    ensures fresh(s) && s.inputs == inputs && inputs.raw == "hello" && LiteralStart(s) && !Quiet(s.inputs, s.frontier)
  {
    hide HelloKeys, InputsOk, Quiet, SearchSession.CleanAre, SearchSession.PagesAre, NoRepeats, Worded, SearchSession.BucketsAre, SearchSession.HanSorted,
         KeyOf, ItemOk, FrontierOk, OneRemainder, NoneExpanded, NoneLonger, WellFormed, RowsHold, KeysDiffer, LiteralCandidate;
    var matcher := new PartialPinyinMatcher([], []);
    var literal := LiteralCandidate(inputs.raw);
    HelloOk(inputs, matcher.entries, literal);
    s := new SearchSession(inputs, matcher, [literal], [HE], {});
  }

  const HE := LatinPath("he", [3], 0.0)

  lemma HelloOk(inputs: Inputs, entries: set<Entry>, literal: Candidate)
    requires HelloKeys(inputs) && entries == {} && literal == LiteralCandidate(inputs.raw)
    ensures inputs.mode == LatinFirst && inputs.hasRoot && inputs.raw == "hello" && InputsOk(inputs, entries)
    ensures literal.kind == Literal && NoRepeats([literal]) && Worded(inputs.raw, literal)
    ensures HE.LatinPath? && |HE.latinTokens| == 1 && ItemOk(TypingOf(inputs, entries), HE) && KeysDiffer([HE]) && !Quiet(inputs, [HE])
  {
    hide Quiet;
    assert L.IsLatin("llo");
    AsciiKeys(inputs, entries);
    LiteralAlone(inputs);
    HeGoesOn(inputs, HE);
  }

  lemma HeGoesOn(inputs: Inputs, he: Item)
    requires inputs.raw == "hello" && inputs.latinTokens == [7] && inputs.latinFragment(7) == "llo" && he == LatinPath("he", [3], 0.0)
    ensures ItemOk(TypingOf(inputs, {}), he) && !Quiet(inputs, [he])
  {
    OneSpelled(inputs, 7);
    assert L.IsLatin("hello") && Completes(inputs, "he", [3], [7]);
    assert he in [he] && !QuietItem(inputs, he);
  }

  /** Texts that are in normal form already. */
  function Verbatim(): string -> string {
    (s: string) => s
  }

  lemma AsciiKeys(inputs: Inputs, entries: set<Entry>)
    requires inputs.norm == Verbatim() && inputs.raw != "" && !IsHanCharacter(inputs.raw[0])
    requires (forall x :: x in entries || x in inputs.freeEntries ==> HanOnly(x.text)) && forall x :: x in entries ==> PlainSyllables(x)
    requires forall t :: t in inputs.latinTokens ==> L.IsLatin(inputs.latinFragment(t))
    ensures InputsOk(inputs, entries)
  {}

  // ---------------------------------------------------------------------------------
  // Tiers go before buckets.

  const NI := Entry(0, "\U{4F60}", ["ni"], [0], false)
  const MEN := Entry(1, "\U{4F60}\U{4EEC}", ["ni", "men"], [1], false)

  /** The keys "ni" with an index of these two. */
  ghost predicate NiKeys(inputs: Inputs) {
    && inputs.mode == ChineseFirst && inputs.hasRoot && inputs.raw == "ni" && inputs.compact == "ni" && inputs.boundaries == {}
    && inputs.norm == Verbatim() && inputs.freeEntries == [NI, MEN] && inputs.latinTokens == []
  }

  /** The roots, and "ni" continued by "ni'men". */
  const EXACT := Candidate("\U{4F60}", ["ni"], 2, true, 0, Han, Neural, [0], 0.0, 0)
  const SHORTER := Candidate("\U{4F60}\U{4EEC}", ["ni", "men"], 2, true, 1, Han, Neural, [1], 0.0, 1)
  const LONGER := Candidate("\U{4F60}\U{4F60}\U{4EEC}", ["ni", "ni", "men"], 2, true, 2, Han, Neural, [0, 1], 0.0, 0)

  const NI_PATH := HanPath("\U{4F60}", ["ni"], [0], 0.0, 0, 2, [], 0)
  const MEN_PATH := HanPath("\U{4F60}\U{4EEC}", ["ni", "men"], [1], 0.0, 1, 2, [], 0)
  const LONG_PATH := HanPath("\U{4F60}\U{4F60}\U{4EEC}", ["ni", "ni", "men"], [0, 1], 0.0, 2, 2, [], 0)

  function Even(): int -> Option<real> {
    (t: int) => Some(0.0)
  }

  function Unranked(): int -> int {
    (t: int) => 0
  }

  lemma NiAligns(q: Query, o: Outcome)
    requires q == Query("ni", 0, {}, false, true)
    ensures Derives(q, NI, o) <==> o == Outcome(2, 0, false, 0) || o == Outcome(1, 1, false, 0)
    ensures Derives(q, MEN, o) <==> o == Outcome(2, 0, false, 1)
  {
    assert q.raw[0..2] == "ni" && ["ni"][1..] == [] && ["ni", "men"][1..] == ["men"] && q.raw[1..] == "i";
    assert TypedInFull(q, "ni", 0) && TypedAsInitial(q, "ni", 0) && !TypedAsUnfinished(q, "ni", 0);
    assert Aligns(q, [], 2, 0, false, o) <==> o == Outcome(2, 0, false, 0);
    assert Aligns(q, [], 1, 1, false, o) <==> o == Outcome(1, 1, false, 0);
    assert Aligns(q, ["men"], 2, 0, false, o) <==> o == Outcome(2, 0, false, 1);
    assert !TypedInFull(q, "men", 1) && !TypedAsInitial(q, "men", 1) && !TypedAsUnfinished(q, "men", 1);
    assert !Aligns(q, ["men"], 1, 1, false, o);
  }

  lemma NiBest(q: Query, m: Match)
    requires q == Query("ni", 0, {}, false, true)
    ensures IsBest(q, NI, m) <==> m == Match(NI, 2, 0, false, 0)
    ensures IsBest(q, MEN, m) <==> m == Match(MEN, 2, 0, false, 1)
  {
    hide Derives;
    forall o { NiAligns(q, o); }
  }

  lemma {:induction false} NoApostrophe(s: string)
    requires '\'' !in s
    ensures Letters(s) == s
  {
    if s != "" {
      NoApostrophe(s[..|s| - 1]);
    }
  }

  const NI_ROOT := R.PlanEntry("\U{4F60}", "ni", "\U{4F60}", 2, true, 0, [0], 0, 0, 0)
  const MEN_ROOT := R.PlanEntry("\U{4F60}\U{4EEC}", "ni'men", "\U{4F60}\U{4EEC}", 2, true, 1, [1], 1, 0, 1)

  lemma NiSpelled()
    ensures Displayed(["ni"]) == "ni" && Displayed(["ni", "men"]) == "ni'men" && Syllables("ni") == ["ni"] && Syllables("ni'men") == ["ni", "men"]
    ensures Spelling(["ni"]) == "ni" && Spelling(["ni", "men"]) != "ni" && Spelling(["ni", "ni", "men"]) != "ni"
    ensures Letters("ni") == "ni" && RawPosition("ni", 2) == 2
  {
    assert ["ni"][1..] == [] && ["ni", "men"][1..] == ["men"] && ["ni", "ni", "men"][1..] == ["ni", "men"] && ["men"][1..] == [];
    assert Spelling(["men"]) == "men" + Spelling([]) && Spelling(["ni", "men"]) == "ni" + Spelling(["men"]);
    assert Spelling(["ni", "ni", "men"]) == "ni" + Spelling(["ni", "men"]) && |Spelling(["ni", "men"])| == 2 + |Spelling(["men"])|;
    assert "ni" + "'" + "men" == "ni'men";
    DisplayedSplits(["ni"]);
    DisplayedSplits(["ni", "men"]);
    NoApostrophe("ni");
    WholeRawPosition("ni", 2);
  }

  lemma NiRoot(inputs: Inputs, entries: set<Entry>, r: R.Root, m: Match)
    requires NiKeys(inputs) && entries == {NI, MEN} && IsRoot(inputs, entries, Even(), Unranked(), r, m)
    ensures r.score == Some(0.0) && r.entry == if m.entry == NI then NI_ROOT else MEN_ROOT
  {
    hide IsBest, Displayed, Spelling, RawPosition;
    NiSpelled();
    NiBest(RootQuery(inputs), m);
  }

  lemma NiPlan(inputs: Inputs, entries: set<Entry>, plan: seq<R.Root>)
    requires NiKeys(inputs) && entries == {NI, MEN} && IsPlan(inputs, entries, Even(), Unranked(), plan)
    ensures NiRootsOnly(plan)
  {
    hide IsBest, IsRoot, NiKeys;
    forall r | r in plan ensures r.score == Some(0.0) && (r.entry == NI_ROOT || r.entry == MEN_ROOT) {
      var m :| IsRoot(inputs, entries, Even(), Unranked(), r, m);
      NiRoot(inputs, entries, r, m);
    }
    var ni, men := Match(NI, 2, 0, false, 0), Match(MEN, 2, 0, false, 1);
    NiMatched(inputs, ni, men);
    var r :| r in plan && IsRoot(inputs, entries, Even(), Unranked(), r, ni);
    var x :| x in plan && IsRoot(inputs, entries, Even(), Unranked(), x, men);
    NiRoot(inputs, entries, r, ni);
    NiRoot(inputs, entries, x, men);
  }

  lemma NiMatched(inputs: Inputs, ni: Match, men: Match)
    requires NiKeys(inputs) && ni == Match(NI, 2, 0, false, 0) && men == Match(MEN, 2, 0, false, 1)
    ensures IsBest(RootQuery(inputs), ni.entry, ni) && Rooted(ni) && IsBest(RootQuery(inputs), men.entry, men) && Rooted(men)
  {
    hide IsBest;
    NiBest(RootQuery(inputs), ni);
    NiBest(RootQuery(inputs), men);
  }

  /** The plan of these keys. */
  ghost predicate NiRootsOnly(plan: seq<R.Root>) {
    && (forall r :: r in plan ==> r.score == Some(0.0) && (r.entry == NI_ROOT || r.entry == MEN_ROOT))
    && (exists r :: r in plan && r.entry == NI_ROOT) && exists r :: r in plan && r.entry == MEN_ROOT
  }

  /** The roots of the plan as candidates and as paths. */
  lemma NiRoots(s: SearchSession, r: R.Root)
    requires NiKeys(s.inputs) && r.score == Some(0.0) && (r.entry == NI_ROOT || r.entry == MEN_ROOT)
    ensures SearchSession.RootCandidate(r) == if r.entry == NI_ROOT then EXACT else SHORTER
    ensures s.Single(r) && !s.Longish(r) && s.OwnPath(r) == if r.entry == NI_ROOT then NI_PATH else MEN_PATH
    ensures R.Eligible(r) && R.IdentityOf(r) == if r.entry == NI_ROOT then R.Identity("\U{4F60}", 2) else R.Identity("\U{4F60}\U{4EEC}", 2)
  {
    hide Syllables, Letters;
    NiSpelled();
    assert s.inputs.raw[..2] == "ni";
  }

  /** Both roots are among those that wait. */
  lemma NiWaiting(s: SearchSession, plan: seq<R.Root>, limit: nat)
    requires NiKeys(s.inputs) && R.Records(plan) && limit >= 2
    requires NiRootsOnly(plan)
    ensures exists r :: r in R.Prefix(R.Ranking(plan), limit) && r.score.Some? && EXACT == SearchSession.RootCandidate(r)
    ensures exists r :: r in R.Prefix(R.Ranking(plan), limit) && r.score.Some? && SHORTER == SearchSession.RootCandidate(r)
    ensures forall r :: r in R.Prefix(R.Ranking(plan), limit) ==>
                          r in plan && (SearchSession.RootCandidate(r) == EXACT || SearchSession.RootCandidate(r) == SHORTER)
  {
    hide R.Ranking, SearchSession.RootCandidate, R.KeyLe;
    var ranking := R.Ranking(plan);
    R.RankingIsIncreasing(plan);
    forall r | r in plan
      ensures SearchSession.RootCandidate(r) == if r.entry == NI_ROOT then EXACT else SHORTER
      ensures R.Eligible(r) && R.IdentityOf(r) == if r.entry == NI_ROOT then R.Identity("\U{4F60}", 2) else R.Identity("\U{4F60}\U{4EEC}", 2)
    {
      NiRoots(s, r);
    }
    forall i, j | 0 <= i < j < |ranking| ensures R.IdentityOf(ranking[i]) != R.IdentityOf(ranking[j]) {
      assert ranking[i] in ranking && ranking[j] in ranking;
      if R.IdentityOf(ranking[i]) == R.IdentityOf(ranking[j]) { R.SameIdentity(plan, ranking[i], ranking[j]); }
    }
    forall i | 0 <= i < |ranking| ensures ranking[i] in plan { assert ranking[i] in ranking; }
    DistinctFits(seq(|ranking|, i requires 0 <= i < |ranking| => R.IdentityOf(ranking[i])),
                 {R.Identity("\U{4F60}", 2), R.Identity("\U{4F60}\U{4EEC}", 2)});
    var r :| r in plan && r.entry == NI_ROOT;
    var x :| x in plan && x.entry == MEN_ROOT;
    var a := R.LeaderExists(plan, r);
    var b := R.LeaderExists(plan, x);
  }

  lemma Alone(waiting: seq<Candidate>, c: Candidate)
    requires NoRepeats(waiting) && forall x :: x in waiting <==> x == c
    ensures waiting == [c]
  {
    assert c in waiting;
    forall i | 0 <= i < |waiting| ensures waiting[i] == c { assert waiting[i] in waiting; }
    DistinctFits(waiting, {c});
  }

  lemma DeferredBucket(plan: seq<R.Root>, expanded: set<PathKey>)
    requires NiRootsOnly(plan) && expanded == {}
    ensures DeferredPlan(plan) == Deferred(0, plan) && MinimumFuture([DeferredPlan(plan)], expanded, true) == Some(1)
  {
    var r :| r in plan && r.entry == NI_ROOT;
    assert LeastPredicted(plan) == Some(0);
    var d := DeferredPlan(plan);
    assert d in [d] && Expandable(d, expanded, true);
  }

  lemma ExactAlone()
    ensures FirstPage([EXACT], true) == [EXACT]
  {
    AllKept(InScript(Han), [EXACT]);
    NoneKept(InScript(Latin), [EXACT]);
  }

  /** While a plan is deferred that may bring one predicted syllable, only the exact root may be frozen. */
  lemma NiFirstPage(s: SearchSession, plan: seq<R.Root>)
    requires s.PagesOk() && s.pages == 0 && s.Chinese() && s.inputs.hasRoot && NiRootsOnly(plan) && !s.exhausted
    requires s.frontier == [DeferredPlan(plan)] && s.expanded == {} && NoRepeats(s.pending)
    requires forall c :: c in s.pending <==> c == EXACT || c == SHORTER
    ensures FirstPage(s.Freezable(), s.Chinese()) == [EXACT] && Filter((c: Candidate) => c !in [EXACT], s.pending) == [SHORTER]
  {
    hide NiRootsOnly, MinimumFuture, DeferredPlan, SearchSession.PagesAre, NoRepeats, Filter, FirstPage;
    DeferredBucket(plan, s.expanded);
    s.ZeroIsFirst();
    var keep := MayFreeze(Some(1), true, true);
    assert s.Freezable() == Filter(keep, s.pending);
    FilterNoRepeats(keep, s.pending);
    Alone(s.Freezable(), EXACT);
    ExactAlone();
    var rest := (c: Candidate) => c !in [EXACT];
    FilterNoRepeats(rest, s.pending);
    Alone(Filter(rest, s.pending), SHORTER);
  }

  const NI_KEYS := {KeyOf(Search(NI_PATH)), KeyOf(Search(MEN_PATH)), KeyOf(Search(LONG_PATH))}

  predicate NiItem(x: Item) {
    x == Search(NI_PATH) || x == Search(MEN_PATH) || x == Search(LONG_PATH)
  }

  /** Only these paths and candidates appear, and the longer one as soon as "ni" has been scored. */
  ghost predicate NiSearch(s: SearchSession, frontier: seq<Item>, expanded: set<PathKey>, pending: seq<Candidate>, seen: set<Identity>) {
    && (forall x :: x in frontier ==> NiItem(x)) && expanded <= NI_KEYS
    && (forall c :: c in pending ==> c == LONGER || c == SHORTER) && SHORTER in pending
    && if KeyOf(Search(NI_PATH)) in expanded then LONGER in pending
       else Search(NI_PATH) in frontier && LONGER !in pending && IdOf(s.norm, LONGER) !in seen
  }

  lemma FirstIn<T>(s: seq<T>)
    ensures s == [] || s[0] in s
  {}

  lemma NoGroups(s: SearchSession, plan: seq<R.Root>, fragments: seq<HanPath>)
    requires s.GroupSeeds(plan, fragments) && forall r :: r in plan ==> !s.Longish(r)
    ensures fragments == []
  {
    hide SearchSession.OptionOf, SearchSession.Longish;
    forall t, p ensures !s.IsGroup(plan, t, p) { FirstIn(p.options); }
    FirstIn(fragments);
  }

  /** When all roots are of one token, the seeds are their paths, best first. */
  lemma OwnOnly(s: SearchSession, plan: seq<R.Root>, records: seq<HanPath>) returns (own: seq<R.Root>)
    requires s.SeedsOf(plan, records) && forall r :: r in plan ==> s.Single(r)
    ensures s.OwnSeeds(plan, own) && (forall r :: r in own ==> r.score.Some?) && records == s.OwnPaths(own)
  {
    hide SearchSession.OwnKey, SearchSession.OptionOf;
    ghost var fragments: seq<HanPath>;
    own, fragments :| s.OwnSeeds(plan, own) && s.GroupSeeds(plan, fragments) && records == s.OwnPaths(own) + fragments;
    NoGroups(s, plan, fragments);
  }

  /** Their keys differ. */
  lemma OwnKeysDiffer(s: SearchSession, plan: seq<R.Root>, own: seq<R.Root>, all: set<PathKey>)
    requires s.OwnSeeds(plan, own) && forall r :: r in plan && r.score.Some? ==> s.OwnKey(r) in all
    ensures |own| <= |all|
  {
    hide SearchSession.OwnKey;
    forall i | 0 <= i < |own| ensures own[i] in own && own[i] in plan && own[i].score.Some? {}
    DistinctFits(seq(|own|, i requires 0 <= i < |own| => s.OwnKey(own[i])), all);
  }

  lemma NiOwn(s: SearchSession, plan: seq<R.Root>)
    requires NiKeys(s.inputs) && NiRootsOnly(plan)
    ensures forall r :: r in plan ==>
                          && s.Single(r) && s.OwnPath(r) == (if r.entry == NI_ROOT then NI_PATH else MEN_PATH)
                          && s.OwnKey(r) == KeyOf(Search(s.OwnPath(r)))
    ensures exists r :: r in plan && r.entry == NI_ROOT
  {
    hide NiKeys, SearchSession.OwnPath;
    forall r | r in plan ensures s.Single(r) && s.OwnPath(r) == if r.entry == NI_ROOT then NI_PATH else MEN_PATH { NiRoots(s, r); }
  }

  lemma NiKeyTells()
    ensures KeyOf(Search(NI_PATH)) != KeyOf(Search(MEN_PATH)) && KeyOf(Search(NI_PATH)) != KeyOf(Search(LONG_PATH))
    ensures KeyOf(Search(MEN_PATH)) != KeyOf(Search(LONG_PATH))
  {}

  /** The seeds of the plan are the paths of its roots. */
  lemma NiSeeds(s: SearchSession, plan: seq<R.Root>, records: seq<HanPath>)
    requires NiKeys(s.inputs) && NiRootsOnly(plan) && s.SeedsOf(plan, records)
    ensures |records| <= 2 && NI_PATH in records && forall p :: p in records ==> p == NI_PATH || p == MEN_PATH
  {
    hide NiKeys, NiRootsOnly, SearchSession.OwnPath, SearchSession.SeedsOf, SearchSession.OwnKey, KeyOf;
    NiOwn(s, plan);
    NiKeyTells();
    var own := OwnOnly(s, plan, records);
    OwnKeysDiffer(s, plan, own, {KeyOf(Search(NI_PATH)), KeyOf(Search(MEN_PATH))});
    var r :| r in plan && r.entry == NI_ROOT;
    var x :| x in own && s.OwnKey(x) == s.OwnKey(r);
    assert x in plan && s.OwnPath(x) == NI_PATH;
  }

  lemma NiMaterialized(s: SearchSession, id: nat, plan: seq<R.Root>, records: seq<HanPath>)
    requires NiKeys(s.inputs) && NiRootsOnly(plan) && s.SeedsOf(plan, records)
    ensures Search(NI_PATH) in Materialized(id, records, 0)
    ensures forall x :: x in Materialized(id, records, 0) ==> NiItem(x)
  {
    hide SearchSession.SeedsOf, NiKeys, NiRootsOnly;
    NiSeeds(s, plan, records);
    var items := Materialized(id, records, 0);
    var i :| 0 <= i < |records| && records[i] == NI_PATH;
    assert items[i] == Search(NI_PATH);
    forall x | x in items ensures NiItem(x) {
      var j :| 0 <= j < |items| && items[j] == x;
      assert records[j] in records;
    }
  }

  lemma NiPlanned(s: SearchSession, plan: seq<R.Root>, x: Item)
    requires NiKeys(s.inputs) && NiRootsOnly(plan) && s.Planned([DeferredPlan(plan)], x)
    ensures NiItem(x)
  {
    hide NiKeys, NiRootsOnly, Materialized, SearchSession.SeedsOf;
    var id: nat, records :| s.SeedsOf(plan, records) && x in Materialized(id, records, 0);
    NiMaterialized(s, id, plan, records);
  }

  lemma NiShown(s: SearchSession, plan: seq<R.Root>, c: Candidate)
    requires NiKeys(s.inputs) && NiRootsOnly(plan) && s.PlanShows([DeferredPlan(plan)], c)
    ensures c == EXACT || c == SHORTER
  {
    hide NiKeys, SearchSession.RootCandidate;
    var r :| r in plan && r.score.Some? && c == SearchSession.RootCandidate(r);
    NiRoots(s, r);
  }

  lemma NiByKey(x: Item, k: PathKey)
    requires NiItem(x) && KeyOf(x) == k
    ensures k == KeyOf(Search(NI_PATH)) ==> x == Search(NI_PATH)
  {}

  /** When the plan has been realised, the two roots are on the frontier. */
  lemma NiPrepared(s: SearchSession, plan: seq<R.Root>, known: set<Identity>)
    requires NiKeys(s.inputs) && NiRootsOnly(plan) && s.norm == s.inputs.norm && s.expanded == {}
    requires (forall x :: x in s.frontier ==> !x.Deferred?) && s.Carried(DeferredPlan(plan), s.seen, s.expanded, s.frontier)
    requires forall x :: x in s.frontier ==> x in [DeferredPlan(plan)] || s.Planned([DeferredPlan(plan)], x)
    requires forall c :: c in s.pending ==> c in [SHORTER] || s.PlanShows([DeferredPlan(plan)], c)
    requires EXACT !in s.pending && SHORTER in s.pending
    requires s.NewlyShown(known, s.seen, s.pending) && known == {IdOf(s.norm, EXACT), IdOf(s.norm, SHORTER)}
    ensures NiSearch(s, s.frontier, s.expanded, s.pending, s.seen)
  {
    hide NiKeys, NiRootsOnly, KeyOf, SearchSession.Planned, SearchSession.PlanShows, SearchSession.SeedsOf, SearchSession.RootCandidate, Materialized;
    forall x | x in s.frontier ensures NiItem(x) {
      assert x != DeferredPlan(plan);
      NiPlanned(s, plan, x);
    }
    forall c | c in s.pending ensures c == SHORTER {
      if c != SHORTER { NiShown(s, plan, c); }
    }
    var d := DeferredPlan(plan);
    var id, records :| s.Realised(d, records, s.seen) && s.AllHeld(Materialized(id, records, 0), s.expanded, s.frontier);
    NiMaterialized(s, id, plan, records);
    assert s.Held(KeyOf(Search(NI_PATH)), s.expanded, s.frontier);
    var y :| y in s.frontier && KeyOf(y) == KeyOf(Search(NI_PATH));
    NiByKey(y, KeyOf(Search(NI_PATH)));
    NewIds(s);
  }

  lemma NewIds(s: SearchSession)
    requires NiKeys(s.inputs) && s.norm == s.inputs.norm
    ensures IdOf(s.norm, LONGER) != IdOf(s.norm, SHORTER) && IdOf(s.norm, LONGER) != IdOf(s.norm, EXACT)
  {}

  // Scoring "ni".

  /** The scorer finds one thing likely: to go on from "ni" with the token of "ni'men". */
  function MenScorer(): Scorer {
    (x: Item, tokens: seq<int>) =>
      Scored(seq(|tokens|, i requires 0 <= i < |tokens| => if x == Search(NI_PATH) && tokens[i] == 1 then Some(0.0) else None))
  }

  function MenEdge(): Edge {
    Edge("\U{4F60}\U{4EEC}", [1], ["ni", "men"], 2, 2)
  }

  /** The keys are spent: anything may follow. */
  lemma NiEdges(s: SearchSession, p: HanPath, e: Edge)
    requires NiKeys(s.inputs) && NiItem(Search(p))
    ensures s.LegalUnder(p, 0, e) <==> e == s.FreeEdge(p, NI)
    ensures s.LegalUnder(p, 1, e) <==> e == s.FreeEdge(p, MEN)
    ensures p == NI_PATH ==> s.FreeEdge(p, MEN) == MenEdge()
  {
    assert NI in s.inputs.freeEntries && MEN in s.inputs.freeEntries;
  }

  lemma NiFruitful(s: SearchSession, x: Item)
    requires NiKeys(s.inputs) && NiItem(x)
    ensures !s.Barren(x)
  {
    hide NiKeys, SearchSession.LegalUnder;
    NiEdges(s, x.path, s.FreeEdge(x.path, NI));
    assert s.LegalUnder(x.path, 0, s.FreeEdge(x.path, NI));
  }

  lemma MenLeads(s: SearchSession)
    requires NiKeys(s.inputs)
    ensures Finishes(NI_PATH, MenEdge()) && !StaysInside(NI_PATH, MenEdge()) && Extended(NI_PATH, 1, 0.0, MenEdge()) == LONG_PATH
    ensures s.CandidateAt(LONG_PATH) == LONGER
  {
    NiSpelled();
    assert NI_PATH.text + MenEdge().text == LONG_PATH.text && NI_PATH.pinyin + MenEdge().syllables == LONG_PATH.pinyin;
    assert NI_PATH.tokenPath + [1] == LONG_PATH.tokenPath;
  }

  /** Where nothing but MenEdge stands under the token, nothing but the longer reading comes of it. */
  lemma MenBrings(s: SearchSession, edges: seq<Edge>, q: HanPath, c: Candidate)
    requires NiKeys(s.inputs) && forall e :: e in edges ==> e == MenEdge()
    ensures s.TokenStep(NI_PATH, 1, 0.0, edges, q) ==> q == LONG_PATH
    ensures s.FromEdges(NI_PATH, 1, 0.0, edges, c) ==> c == LONGER
  {
    hide NiKeys, Finishes, StaysInside, Extended, Fragment, SearchSession.CandidateAt;
    MenLeads(s);
    if s.TokenStep(NI_PATH, 1, 0.0, edges, q) && !exists e :: e in edges && Finishes(NI_PATH, e) && q == Extended(NI_PATH, 1, 0.0, e) {
      var options :| options != [] && (forall o :: o in options ==> o in edges && StaysInside(NI_PATH, o)) && q == Fragment(NI_PATH, 1, 0.0, options);
      FirstIn(options);
      assert false;
    }
  }

  lemma LikelyPositions(s: SearchSession, parent: Item, tokens: seq<int>, edges: map<int, seq<Edge>>, values: Scores, positions: seq<nat>)
    requires MenScorer()(parent, tokens) == Scored(values) && IsScoreOrder(values, positions) && s.Handed(parent, tokens, edges) && parent.Search?
    ensures |values| == |tokens| && |positions| <= 1
    ensures forall q :: q in positions ==> parent == Search(NI_PATH) && q < |tokens| && tokens[q] == 1 && values[q] == Some(0.0)
    ensures forall q: nat :: q < |tokens| && parent == Search(NI_PATH) && tokens[q] == 1 ==> q in positions
  {
    hide SearchSession.LegalUnder;
    forall q | q in positions ensures IsFinite(values, q) {}
    forall q: nat | q < |tokens| && parent == Search(NI_PATH) && tokens[q] == 1 ensures q in positions { assert IsFinite(values, q); }
    if positions != [] {
      forall i | 0 <= i < |positions| ensures positions[i] in positions && positions[i] == positions[0] {
        var a, b := positions[i], positions[0];
        assert a in positions && b in positions;
      }
      forall i, j | 0 <= i < j < |positions| ensures positions[i] != positions[j] {
        assert Sooner(values, positions[i], positions[j]);
      }
      DistinctFits(positions, {positions[0]});
    }
  }

  lemma UnderMen(s: SearchSession, edges: map<int, seq<Edge>>, tokens: seq<int>)
    requires NiKeys(s.inputs) && s.Handed(Search(NI_PATH), tokens, edges)
    ensures 1 in tokens && 1 in edges && MenEdge() in edges[1] && forall e :: e in edges[1] ==> e == MenEdge()
  {
    hide NiKeys, SearchSession.LegalUnder, SearchSession.FreeEdge;
    NiEdges(s, NI_PATH, MenEdge());
    assert Lists(edges, 1, MenEdge());
    forall e | e in edges[1] ensures e == MenEdge() {
      assert Lists(edges, 1, e);
      NiEdges(s, NI_PATH, e);
    }
  }

  /** What scoring brings: the longer reading, if the parent was "ni". */
  lemma NiGrowth(s: SearchSession, parent: Item, tokens: seq<int>, edges: map<int, seq<Edge>>, values: Scores, known: set<Identity>, was: seq<Item>,
                 waiting: seq<Candidate>)
    requires NiKeys(s.inputs) && NiItem(parent) && MenScorer()(parent, tokens) == Scored(values) && s.Handed(parent, tokens, edges) && |values| == |tokens|
    requires s.Growth(parent, tokens, edges, values, known, was, waiting, s.pending, s.seen, s.frontier)
    ensures forall y :: y in s.frontier ==> y in was || (parent == Search(NI_PATH) && y == Search(LONG_PATH))
    ensures forall c :: c in s.pending ==> c in waiting || (parent == Search(NI_PATH) && c == LONGER)
  {
    hide NiKeys, SearchSession.Handed, IsScoreOrder, SearchSession.TokenStep, SearchSession.FromEdges, SearchSession.NewlyShown, PathOk, EdgeOf;
    var positions, next :| IsScoreOrder(values, positions) && s.ScoredWork(parent, tokens, values, edges, positions)
                           && s.SliceBrings(Resume(parent.path, tokens, values, edges, positions, 0), next, was, s.frontier, waiting, s.pending);
    var x := Resume(parent.path, tokens, values, edges, positions, 0);
    LikelyPositions(s, parent, tokens, edges, values, positions);
    if parent == Search(NI_PATH) { UnderMen(s, edges, tokens); }
    forall i: nat, q | i < |positions| && s.PositionSteps(x, i, q) ensures parent == Search(NI_PATH) && q == LONG_PATH {
      assert positions[i] in positions;
      MenBrings(s, edges[1], q, LONGER);
    }
    forall i: nat, c | i < |positions| && s.PositionShows(x, i, c) ensures parent == Search(NI_PATH) && c == LONGER {
      assert positions[i] in positions;
      MenBrings(s, edges[1], NI_PATH, c);
    }
  }

  /** Scoring "ni" makes the longer reading known. */
  lemma NiScored(s: SearchSession, tokens: seq<int>, edges: map<int, seq<Edge>>, values: Scores)
    requires NiKeys(s.inputs) && MenScorer()(Search(NI_PATH), tokens) == Scored(values) && s.Handed(Search(NI_PATH), tokens, edges) && |values| == |tokens|
    requires s.ScoredOff(Search(NI_PATH), tokens, edges, values, s.seen, s.expanded, s.frontier)
    ensures IdOf(s.norm, LONGER) in s.seen
  {
    hide NiKeys, SearchSession.Handed, IsScoreOrder, PathOk, EdgeOf, SearchSession.AllHeld, Finishes, StaysInside, Extended, SearchSession.CandidateAt;
    var positions :| IsScoreOrder(values, positions) && s.ScoredWork(Search(NI_PATH), tokens, values, edges, positions)
                     && s.WorkedOff(Resume(NI_PATH, tokens, values, edges, positions, 0), s.seen, s.expanded, s.frontier);
    var x := Resume(NI_PATH, tokens, values, edges, positions, 0);
    LikelyPositions(s, Search(NI_PATH), tokens, edges, values, positions);
    UnderMen(s, edges, tokens);
    MenLeads(s);
    var q: nat :| q < |tokens| && tokens[q] == 1;
    var next: nat, queue: seq<Item> :| s.SliceDone(x, next, s.seen, queue) && s.AllHeld(queue, s.expanded, s.frontier);
    assert q in positions && positions[0] in positions;
    assert s.PositionDone(x, 0, s.seen, queue);
    assert s.Accounted(NI_PATH, 1, 0.0, MenEdge(), s.seen, queue);
  }

  lemma StillWaits(s: SearchSession, c: Candidate, waiting: seq<Candidate>)
    requires NoneDropped(s.norm, waiting, s.pending) && c in waiting && c.kind == Neural
    ensures c in s.pending
  {
    assert Survives(s.norm, c, s.pending);
  }

  lemma NewlyLonger(s: SearchSession, ids: set<Identity>)
    requires NiKeys(s.inputs) && s.norm == s.inputs.norm && s.NewlyShown(ids, s.seen, s.pending) && IdOf(s.norm, LONGER) !in ids
    requires forall c :: c in s.pending ==> c == LONGER || c == SHORTER
    ensures IdOf(s.norm, LONGER) in s.seen ==> LONGER in s.pending
  {
    hide NiKeys;
    NewIds(s);
  }

  /** One step keeps to these paths and candidates, and uses one path up. */
  lemma NiStep(s: SearchSession, step: Step, before: seq<Item>, known: set<PathKey>, ids: set<Identity>, waiting: seq<Candidate>)
    requires NiKeys(s.inputs) && s.norm == s.inputs.norm && NiSearch(s, before, known, waiting, ids) && before != [] && KeyOf(before[0]) !in known
    requires step.Popped? && s.PoppedOk(step, MenScorer(), before, known, s.seen, s.expanded, s.frontier, s.exhausted)
    requires s.StepBrings(step, before, ids, waiting, s.pending, s.seen, s.frontier) && NoneDropped(s.norm, waiting, s.pending)
    ensures NiSearch(s, s.frontier, s.expanded, s.pending, s.seen) && s.expanded > known
  {
    hide NiKeys, KeyOf, SearchSession.PoppedOk, SearchSession.ScoredOff, SearchSession.Carried, SearchSession.Barren, SearchSession.Handed,
         SearchSession.NewlyShown, InQueue, MenScorer, NoneDropped;
    forall x | x in before ensures NiItem(x) && !x.Deferred? && !s.Barren(x) { NiFruitful(s, x); }
    FirstIn(before);
    FirstIsPopped(s, step, MenScorer(), before, known, before[0]);
    var parent, ni := step.queue[0], Search(NI_PATH);
    MenUsable(parent, step.tokens);
    var values := step.answer.values;
    assert s.Growth(parent, step.tokens, step.edges, values, ids, step.queue[1..], waiting, s.pending, s.seen, s.frontier);
    RestOf(step.queue);
    NiGrowth(s, parent, step.tokens, step.edges, values, ids, step.queue[1..], waiting);
    StillWaits(s, SHORTER, waiting);
    NiKeyOf(parent);
    if parent == ni {
      NiScored(s, step.tokens, step.edges, values);
      NewlyLonger(s, ids);
    } else if KeyOf(ni) in known {
      StillWaits(s, LONGER, waiting);
    } else {
      NewlyLonger(s, ids);
      NiStays(s, step.queue, before, known);
    }
  }

  lemma MenUsable(parent: Item, tokens: seq<int>)
    ensures MenScorer()(parent, tokens).Scored? && |MenScorer()(parent, tokens).values| == |tokens|
  {}

  lemma NiKeyOf(x: Item)
    requires NiItem(x)
    ensures KeyOf(x) in NI_KEYS && (KeyOf(x) == KeyOf(Search(NI_PATH)) <==> x == Search(NI_PATH))
  {}

  /** "ni" stays on the frontier while another path is used up. */
  lemma NiStays(s: SearchSession, queue: seq<Item>, before: seq<Item>, known: set<PathKey>)
    requires queue != [] && (forall x :: x in queue ==> x in before) && (forall x :: x in before ==> NiItem(x)) && (forall y :: y in s.frontier ==> NiItem(y))
    requires s.expanded == known + {KeyOf(queue[0])} && queue[0] != Search(NI_PATH) && KeyOf(Search(NI_PATH)) !in known
    requires InQueue(queue, KeyOf(Search(NI_PATH))) && forall y :: y in queue[1..] ==> s.Carried(y, s.seen, s.expanded, s.frontier)
    ensures Search(NI_PATH) in s.frontier
  {
    hide KeyOf, SearchSession.Carried;
    var ni, first := Search(NI_PATH), queue[0];
    var x :| x in queue && KeyOf(x) == KeyOf(ni);
    NiKeyOf(x);
    NiKeyOf(first);
    assert first in queue;
    OthersRemain(s, queue, known, ni);
    var y :| y in s.frontier && KeyOf(y) == KeyOf(ni);
    NiKeyOf(y);
  }

  /** Search until nothing is left, sorting what waits after every step. */
  method SearchNi(s: SearchSession)
    requires NiKeys(s.inputs) && s.OrderOk() && s.Clean() && !s.exhausted && NiSearch(s, s.frontier, s.expanded, s.pending, s.seen)
    modifies s`pending, s`seen, s`frontier, s`expanded, s`exhausted
    ensures s.OrderOk() && s.Clean() && s.exhausted && s.frontier == [] && NiSearch(s, s.frontier, s.expanded, s.pending, s.seen)
    ensures s.HanSorted(s.pending) && Gathered(s.norm, old(s.pending), s.pending, s.reached)
  {
    hide Longer, NiKeys, NiSearch, InputsOk, FrontierOk, SearchSession.CleanAre, SearchSession.PoppedOk, SearchSession.StepBrings, SearchSession.ResumedOk,
         NoneDropped, OneRemainder, NoneExpanded, NoneLonger, SearchSession.Traced, KeyOf, SearchSession.HanSorted, MenScorer;
    var scorer := MenScorer();
    NiKeysFinite(s, s.frontier, s.expanded, s.pending, s.seen);
    NiChinese(s);
    Unmoved(s.norm, s.pending, s.reached);
    while !s.exhausted
      invariant Gathered(s.norm, old(s.pending), s.pending, s.reached)
      invariant s.OrderOk() && s.Clean() && NiSearch(s, s.frontier, s.expanded, s.pending, s.seen) && s.expanded <= NI_KEYS
      invariant s.exhausted ==> s.frontier == [] && s.HanSorted(s.pending)
      decreases NI_KEYS - s.expanded, !s.exhausted
    {
      ghost var before, known, ids, waiting := s.frontier, s.expanded, s.seen, s.pending;
      var progressed: Option<nat>;
      ghost var step: Step;
      progressed, step := s.ExpandOneFrontier(scorer);
      if before != [] {
        NiItemsSearch(s, before, known, waiting, ids);
        IsPopped(s, step, before, known);
        FirstUnexpanded(s.Typed(), before, known, s.reached);
        NiStep(s, step, before, known, ids, waiting);
      } else {
        NothingLeft(s, step, scorer, known, ids, waiting);
      }
      NiKeysFinite(s, s.frontier, s.expanded, s.pending, s.seen);
      ghost var middle := s.pending;
      GatheredTwice(s.norm, old(s.pending), waiting, middle, s.reached);
      s.SortPending();
      SameMembers(s.norm, middle, s.pending, s.reached);
      GatheredTwice(s.norm, old(s.pending), middle, s.pending, s.reached);
      SameNi(s, s.frontier, s.expanded, middle, s.pending, s.seen);
    }
  }

  lemma NiChinese(s: SearchSession)
    requires NiKeys(s.inputs)
    ensures s.Chinese() && s.inputs.hasRoot
  {}

  lemma NiKeysFinite(s: SearchSession, frontier: seq<Item>, expanded: set<PathKey>, pending: seq<Candidate>, seen: set<Identity>)
    requires NiSearch(s, frontier, expanded, pending, seen)
    ensures expanded <= NI_KEYS
  {}

  lemma NiItemsSearch(s: SearchSession, frontier: seq<Item>, expanded: set<PathKey>, pending: seq<Candidate>, seen: set<Identity>)
    requires NiSearch(s, frontier, expanded, pending, seen) && NiKeys(s.inputs)
    ensures s.inputs.hasRoot && forall x :: x in frontier ==> x.Search?
  {
    hide KeyOf;
  }

  lemma FirstUnexpanded(typing: Typing, frontier: seq<Item>, expanded: set<PathKey>, reached: nat)
    requires FrontierOk(typing, frontier, expanded, reached) && frontier != []
    ensures KeyOf(frontier[0]) !in expanded
  {
    hide KeyOf, ItemOk, AtLeast;
    FirstIn(frontier);
  }

  lemma SameNi(s: SearchSession, frontier: seq<Item>, expanded: set<PathKey>, before: seq<Candidate>, pending: seq<Candidate>, seen: set<Identity>)
    requires NiSearch(s, frontier, expanded, before, seen) && forall c :: c in pending <==> c in before
    ensures NiSearch(s, frontier, expanded, pending, seen)
  {
    hide KeyOf;
  }

  /** A step on an empty frontier ends the search and changes nothing else. */
  lemma NothingLeft(s: SearchSession, step: Step, scorer: Scorer, known: set<PathKey>, ids: set<Identity>, waiting: seq<Candidate>)
    requires step.Resumed? ==> s.ResumedOk(step.work, [], known, s.seen, s.frontier)
    requires step.Ended? ==> s.exhausted && s.frontier == [] && s.expanded == known && s.pending == waiting && s.seen == ids
    requires step.Popped? ==> s.PoppedOk(step, scorer, [], known, s.seen, s.expanded, s.frontier, s.exhausted)
                              && s.StepBrings(step, [], ids, waiting, s.pending, s.seen, s.frontier)
    ensures s.exhausted && s.frontier == [] && s.expanded == known && s.pending == waiting && s.seen == ids
  {
    hide KeyOf, SearchSession.Carried, SearchSession.WorkedOff, SearchSession.Barren, SearchSession.Growth, SearchSession.ScoredOff, Ranked, KeysDiffer;
    if step.Popped? { FirstIn(step.queue); }
  }

  lemma TwoWays(waiting: seq<Candidate>, a: Candidate, b: Candidate)
    requires NoRepeats(waiting) && a != b && forall c :: c in waiting <==> c == a || c == b
    ensures waiting == [a, b] || waiting == [b, a]
  {
    forall i | 0 <= i < |waiting| ensures waiting[i] in {a, b} { assert waiting[i] in waiting; }
    DistinctFits(waiting, {a, b});
    assert a in waiting && b in waiting;
    var i :| 0 <= i < |waiting| && waiting[i] == a;
    var j :| 0 <= j < |waiting| && waiting[j] == b;
  }

  lemma TierDecides(compact: string, rank: Candidate -> int)
    requires compact == "ni"
    ensures !ByHan(compact, rank)(SHORTER, LONGER)
  {
    hide Spelling;
    NiSpelled();
    assert ByHan(compact, rank)(SHORTER, LONGER) == HanLe(compact, rank, SHORTER, LONGER);
  }

  lemma TwoInOrder(inputs: Inputs, waiting: seq<Candidate>)
    requires NiKeys(inputs) && NoRepeats(waiting) && forall c :: c in waiting <==> c == LONGER || c == SHORTER
    requires SortedBy(ByHan(inputs.compact, inputs.hanRank), Filter(InScript(Han), waiting))
    ensures waiting == [LONGER, SHORTER]
  {
    hide ByHan, NoRepeats;
    AllKept(InScript(Han), waiting);
    TwoWays(waiting, LONGER, SHORTER);
    if waiting == [SHORTER, LONGER] { PairInOrder(ByHan(inputs.compact, inputs.hanRank), waiting); }
    TierDecides(inputs.compact, inputs.hanRank);
  }

  lemma PairInOrder(le: (Candidate, Candidate) -> bool, waiting: seq<Candidate>)
    requires SortedBy(le, waiting) && |waiting| == 2
    ensures le(waiting[0], waiting[1])
  {}

  lemma NothingHeldBack(s: SearchSession)
    requires s.exhausted && s.Chinese() && forall c :: c in s.pending ==> c == LONGER || c == SHORTER
    ensures s.Freezable() == s.pending
  {
    AllKept(MayFreeze(None, 0 !in s.frozen, s.Chinese()), s.pending);
  }

  lemma NiKeysOk(inputs: Inputs, entries: set<Entry>)
    requires NiKeys(inputs) && entries == {NI, MEN}
    ensures InputsOk(inputs, entries) && inputs.mode == ChineseFirst && inputs.hasRoot && KeysParse(inputs)
  {
    AsciiKeys(inputs, entries);
    LettersOnly(inputs.raw);
  }

  /** Keys without an apostrophe parse into themselves. */
  lemma LettersOnly(s: string)
    requires s != "" && forall i :: 0 <= i < |s| ==> 'a' <= s[i] <= 'z'
    ensures Accepted(s) && Letters(s) == s && Boundaries(s) == {}
  {
    NoApostrophe(s);
  }

  lemma NiOpened(s: SearchSession, plan: seq<R.Root>)
    requires NiKeys(s.inputs) && NiRootsOnly(plan) && R.Records(plan) && s.PagesOk() && s.Clean() && s.pages == 0
    requires s.frontier == [DeferredPlan(plan)] && s.expanded == {} && !s.exhausted
    requires forall c :: c in s.pending <==>
                           exists r :: r in R.Prefix(R.Ranking(plan), CHINESE_PAGE_SIZE) && r.score.Some? && c == SearchSession.RootCandidate(r)
    ensures FirstPage(s.Freezable(), s.Chinese()) == [EXACT]
    ensures forall c :: c in s.pending <==> c == EXACT || c == SHORTER
  {
    hide NiKeys, NiRootsOnly, InputsOk, SearchSession.RootCandidate, R.Ranking, DeferredPlan, SearchSession.PagesAre, Quiet, SeenCovers, Worded,
         SearchSession.Freezable, FirstPage, R.Records;
    NiWaiting(s, plan, CHINESE_PAGE_SIZE);
    NiChinese(s);
    NiFirstPage(s, plan);
  }

  lemma NiNotEmpty(plan: seq<R.Root>)
    requires NiRootsOnly(plan)
    ensures plan != []
  {}

  lemma NiFrozen(s: SearchSession)
    requires s.Clean() && s.published == [EXACT] && forall c :: c in s.pending <==> c == SHORTER
    ensures s.pending == [SHORTER]
  {
    hide InputsOk, Quiet, SeenCovers, Worded, NoRepeats;
    Alone(s.pending, SHORTER);
  }

  lemma NiRealised(s: SearchSession, plan: seq<R.Root>, known: set<Identity>)
    requires NiKeys(s.inputs) && NiRootsOnly(plan) && s.Clean() && s.published == [EXACT] && s.expanded == {}
    requires (forall x :: x in s.frontier ==> !x.Deferred?) && s.Carried(DeferredPlan(plan), s.seen, s.expanded, s.frontier)
    requires forall x :: x in s.frontier ==> x in [DeferredPlan(plan)] || s.Planned([DeferredPlan(plan)], x)
    requires forall c :: c in s.pending ==> c in [SHORTER] || s.PlanShows([DeferredPlan(plan)], c)
    requires NoneDropped(s.norm, [SHORTER], s.pending)
    requires s.NewlyShown(known, s.seen, s.pending) && known == {IdOf(s.norm, EXACT), IdOf(s.norm, SHORTER)}
    ensures NiSearch(s, s.frontier, s.expanded, s.pending, s.seen)
  {
    hide NiKeys, NiRootsOnly, InputsOk, KeyOf, SearchSession.Planned, SearchSession.PlanShows, SearchSession.Carried, Quiet, SeenCovers, Worded, NoRepeats,
         NoneDropped, SearchSession.NewlyShown, NiSearch, DeferredPlan;
    assert EXACT in s.published;
    StillWaits(s, SHORTER, [SHORTER]);
    NiPrepared(s, plan, known);
  }

  lemma NiEnd(s: SearchSession)
    requires NiKeys(s.inputs) && s.Clean() && s.exhausted && s.frontier == [] && s.published == [EXACT] && s.HanSorted(s.pending)
    requires NiSearch(s, s.frontier, s.expanded, s.pending, s.seen)
    ensures s.pending == [LONGER, SHORTER] && s.Freezable() == s.pending
    ensures |s.published| + CHINESE_PAGE_SIZE <= s.Capacity() && s.PageSize() == CHINESE_PAGE_SIZE
  {
    hide NiKeys, InputsOk, KeyOf, Quiet, SeenCovers, Worded, NoRepeats, SearchSession.Freezable, SortedBy, ByHan, Filter;
    NiChinese(s);
    TwoInOrder(s.inputs, s.pending);
    NothingHeldBack(s);
  }

  method OpenNi(inputs: Inputs) returns (s: SearchSession, ghost plan: seq<R.Root>)
    requires NiKeys(inputs)
    ensures fresh(s) && s.inputs == inputs && s.PagesOk() && s.OrderOk() && s.Clean() && s.Buckets() && s.pages == 0 && NiRootsOnly(plan)
    ensures s.frontier == [DeferredPlan(plan)] && s.expanded == {} && !s.exhausted
    ensures FirstPage(s.Freezable(), s.Chinese()) == [EXACT] && forall c :: c in s.pending <==> c == EXACT || c == SHORTER
    ensures s.seen == {IdOf(s.norm, EXACT), IdOf(s.norm, SHORTER)}
  {
    hide NiKeys, InputsOk, FrontierOk, SearchSession.CleanAre, SearchSession.PagesAre, SearchSession.BucketsAre, SearchSession.HanSorted, NiSearch,
         NoneDropped, OneRemainder, NoneExpanded, NoneLonger, SearchSession.Traced, KeyOf, NiRootsOnly, DeferredPlan, SearchSession.Freezable, FirstPage,
         IsPlan, SearchSession.Carried, SearchSession.Planned, SearchSession.PlanShows, SearchSession.NewlyShown, NoRepeats, SearchSession.RootCandidate,
         Longer, R.Ranking, R.Prefix;
    var matcher := new PartialPinyinMatcher([NI, MEN], ["ni", "men"]);
    assert matcher.entries == {NI, MEN};
    NiKeysOk(inputs, matcher.entries);
    var roots: seq<R.Root>;
    s, roots := Open(inputs, matcher, Even(), Unranked());
    plan := roots;
    NiPlan(inputs, matcher.entries, plan);
    NiNotEmpty(plan);
    PlanIsRecorded(inputs, matcher.entries, Even(), Unranked(), plan);
    NiOpened(s, plan);
  }

  method NiPageZero(inputs: Inputs) returns (s: SearchSession, ghost plan: seq<R.Root>)
    requires NiKeys(inputs)
    ensures fresh(s) && s.inputs == inputs && s.PagesOk() && s.OrderOk() && s.Clean() && s.Buckets() && s.pages == 1 && NiRootsOnly(plan)
    ensures 0 in s.frozen && s.frozen[0].candidates == [EXACT] && s.published == [EXACT] && s.pending == [SHORTER]
    ensures s.frontier == [DeferredPlan(plan)] && s.expanded == {} && !s.exhausted
    ensures s.seen == {IdOf(s.norm, EXACT), IdOf(s.norm, SHORTER)}
  {
    hide NiKeys, InputsOk, FrontierOk, SearchSession.CleanAre, SearchSession.PagesAre, SearchSession.BucketsAre, SearchSession.HanSorted, NiSearch,
         NoneDropped, OneRemainder, NoneExpanded, NoneLonger, SearchSession.Traced, KeyOf, NiRootsOnly, DeferredPlan, SearchSession.Freezable, FirstPage,
         IsPlan, SearchSession.Carried, SearchSession.Planned, SearchSession.PlanShows, SearchSession.NewlyShown, NoRepeats, SearchSession.RootCandidate,
         Longer, R.Ranking, R.Prefix;
    s, plan := OpenNi(inputs);
    s.FreezeFirstPage();
    NiFrozen(s);
  }

  /** The keys "ni": page zero shows the exact root; the search goes on from it with the root of one
      more syllable, in tier 0; page one shows that longer reading before the shorter root, which is
      in tier 1. Among what waits together tiers go before buckets. */
  method LongerBeforeShorter(inputs: Inputs) returns (s: SearchSession)
    requires NiKeys(inputs)
    ensures s.inputs == inputs && s.PagesOk() && s.OrderOk() && s.Clean() && s.Buckets()
    ensures s.published == [EXACT, LONGER, SHORTER] && Counted(LONGER) && Counted(SHORTER) && LONGER.predicted > SHORTER.predicted
    ensures 0 in s.frozen && s.frozen[0].candidates == [EXACT] && 1 in s.frozen && s.frozen[1].candidates == [LONGER, SHORTER]
  {
    hide NiKeys, InputsOk, FrontierOk, SearchSession.CleanAre, SearchSession.PagesAre, SearchSession.BucketsAre, SearchSession.HanSorted, NiSearch,
         NoneDropped, OneRemainder, NoneExpanded, NoneLonger, SearchSession.Traced, KeyOf, NiRootsOnly, DeferredPlan, SearchSession.Freezable, FirstPage,
         IsPlan, SearchSession.Carried, SearchSession.Planned, SearchSession.PlanShows, SearchSession.NewlyShown, NoRepeats, SearchSession.RootCandidate,
         Longer, R.Ranking, R.Prefix;
    ghost var plan: seq<R.Root>;
    s, plan := NiPageZero(inputs);
    ghost var known := s.seen;
    s.PrepareSearch();
    NiRealised(s, plan, known);
    NiChinese(s);
    ghost var waiting := s.pending;
    SearchNi(s);
    s.SearchedBuckets(waiting);
    NiEnd(s);
    var r := s.FreezeNow(CHINESE_PAGE_SIZE);
  }

  // ---------------------------------------------------------------------------------
  // Lost seeds.

  const FANGS: nat := 32

  /** Many entries are spelled "fang", one "fan" and one "gua". */
  function Fang(n: nat): Entry
    requires n < FANGS
  {
    Entry(n, [(0x4E00 + n) as char], ["fang"], [n], false)
  }

  const FAN := Entry(32, "\U{756A}", ["fan"], [32], false)
  const GUA := Entry(33, "\U{74DC}", ["gua"], [33], false)

  function FangIndex(): seq<Entry> {
    seq(FANGS, n requires 0 <= n < FANGS => Fang(n)) + [FAN, GUA]
  }

  predicate FangEntry(e: Entry) {
    exists n: nat :: n < FANGS && e == Fang(n)
  }

  lemma InFangIndex(e: Entry)
    ensures e in FangIndex() <==> FangEntry(e) || e == FAN || e == GUA
  {
    var index := FangIndex();
    if e in index {
      var i :| 0 <= i < |index| && index[i] == e;
    }
    if FangEntry(e) {
      var n: nat :| n < FANGS && e == Fang(n);
      assert index[n] == e;
    }
    assert index[FANGS] == FAN && index[FANGS + 1] == GUA;
  }

  /** The keys "fangua" with this index; among roots that predict the same, the likelier come first. */
  ghost predicate FangKeys(inputs: Inputs) {
    && inputs.mode == ChineseFirst && inputs.hasRoot && inputs.raw == "fangua" && inputs.compact == "fangua" && inputs.boundaries == {}
    && inputs.norm == Verbatim() && inputs.freeEntries == FangIndex() && inputs.latinTokens == []
    && forall a, b :: LikelierOnly(a, b) ==> inputs.seedRank(a) < inputs.seedRank(b)
  }

  predicate LikelierOnly(a: R.Root, b: R.Root) {
    a.entry.completes == b.entry.completes && a.entry.predicted == b.entry.predicted && a.score == Some(1.0) && b.score == Some(0.0)
  }

  function FangScores(): int -> Option<real> {
    (t: int) => if t < FANGS then Some(1.0) else Some(0.0)
  }

  function FangRoot(n: nat): R.PlanEntry
    requires n < FANGS
  {
    R.PlanEntry([(0x4E00 + n) as char], "fang", [(0x4E00 + n) as char], 4, false, n, [n], 1, 0, 0)
  }

  const FAN_ROOT := R.PlanEntry("\U{756A}", "fan", "\U{756A}", 3, false, 32, [32], 1, 0, 0)

  function FangPath(n: nat): HanPath
    requires n < FANGS
  {
    HanPath([(0x4E00 + n) as char], ["fang"], [n], 1.0, 0, 4, [], 0)
  }

  const FAN_PATH := HanPath("\U{756A}", ["fan"], [32], 0.0, 0, 3, [], 0)

  /** What the keys begin with. */
  lemma FangAligns(q: Query, e: Entry, o: Outcome)
    requires q == Query("fangua", 0, {}, false, true)
    ensures FangEntry(e) ==> (Derives(q, e, o) <==> o == Outcome(4, 0, false, 0) || o == Outcome(1, 1, false, 0))
    ensures e == FAN ==> (Derives(q, e, o) <==> o == Outcome(3, 0, false, 0) || o == Outcome(1, 1, false, 0))
    ensures e == GUA ==> !Derives(q, e, o)
  {
    assert q.raw[0..4] == "fang" && q.raw[0..3] == "fan" && ["fang"][1..] == [] && ["fan"][1..] == [] && ["gua"][1..] == [];
    assert q.raw[0..3] != "gua" && TypedInFull(q, "fang", 0) && TypedInFull(q, "fan", 0) && !TypedInFull(q, "gua", 0);
    assert TypedAsInitial(q, "fang", 0) && TypedAsInitial(q, "fan", 0) && !TypedAsInitial(q, "gua", 0);
    assert !TypedAsUnfinished(q, "fang", 0) && !TypedAsUnfinished(q, "fan", 0) && !TypedAsUnfinished(q, "gua", 0);
    assert Aligns(q, [], 4, 0, false, o) <==> o == Outcome(4, 0, false, 0);
    assert Aligns(q, [], 3, 0, false, o) <==> o == Outcome(3, 0, false, 0);
    assert Aligns(q, [], 1, 1, false, o) <==> o == Outcome(1, 1, false, 0);
  }

  lemma FangBest(q: Query, e: Entry, m: Match)
    requires q == Query("fangua", 0, {}, false, true)
    ensures FangEntry(e) ==> (IsBest(q, e, m) <==> m == Match(e, 4, 0, false, 0))
    ensures e == FAN ==> (IsBest(q, e, m) <==> m == Match(e, 3, 0, false, 0))
    ensures e == GUA ==> !IsBest(q, e, m)
  {
    hide Derives, FangEntry, IsBest;
    forall o { FangAligns(q, e, o); }
    if FangEntry(e) { BestOfTwo(q, e, 4, m); }
    if e == FAN { BestOfTwo(q, e, 3, m); }
    if e == GUA { NoneBest(q, e, m); }
  }

  lemma BestOfTwo(q: Query, e: Entry, position: nat, m: Match)
    requires position > 1 && forall o :: Derives(q, e, o) <==> o == Outcome(position, 0, false, 0) || o == Outcome(1, 1, false, 0)
    ensures IsBest(q, e, m) <==> m == Match(e, position, 0, false, 0)
  {
    hide Derives;
    var best := Match(e, position, 0, false, 0);
    assert IsBest(q, e, best);
    if IsBest(q, e, m) { BestIsUnique(q, e, m, best); }
  }

  lemma NoneBest(q: Query, e: Entry, m: Match)
    requires forall o :: !Derives(q, e, o)
    ensures !IsBest(q, e, m)
  {
    hide Derives;
  }

  /** Nothing goes on behind "fang", and "gua" goes on behind "fan". */
  lemma BehindFang(q: Query, e: Entry, o: Outcome)
    requires q == Query("fangua", 4, {}, false, true) && (FangEntry(e) || e == FAN || e == GUA)
    ensures !Derives(q, e, o)
  {
    assert q.raw[4..] == "ua" && "fang"[..2] == "fa" && "fan"[..2] == "fa" && "gua"[..2] == "gu";
  }

  lemma GuaBehindFan(q: Query)
    requires q == Query("fangua", 3, {}, false, true)
    ensures IsBest(q, GUA, Match(GUA, 6, 0, false, 0))
  {
    forall o | Derives(q, GUA, o) ensures o.position <= 6 && (o.position == 6 ==> NoWorse(Outcome(6, 0, false, 0), o)) {
      GuaAligns(q, o);
    }
    GuaAligns(q, Outcome(6, 0, false, 0));
  }

  lemma GuaAligns(q: Query, o: Outcome)
    requires q == Query("fangua", 3, {}, false, true)
    ensures Aligns(q, ["gua"], 3, 0, false, o) <==> o == Outcome(6, 0, false, 0) || o == Outcome(4, 1, false, 0)
  {
    assert q.raw[3..6] == "gua" && ["gua"][1..] == [];
    assert TypedInFull(q, "gua", 3) && TypedAsInitial(q, "gua", 3) && !TypedAsUnfinished(q, "gua", 3);
    assert Aligns(q, [], 6, 0, false, o) <==> o == Outcome(6, 0, false, 0);
    assert Aligns(q, [], 4, 1, false, o) <==> o == Outcome(4, 1, false, 0);
  }

  lemma FangSpelled()
    ensures Displayed(["fang"]) == "fang" && Displayed(["fan"]) == "fan" && Syllables("fang") == ["fang"] && Syllables("fan") == ["fan"]
    ensures Spelling(["fang"]) != "fangua" && Spelling(["fan"]) != "fangua"
    ensures Letters("fangua") == "fangua" && Letters("fang") == "fang" && Letters("fan") == "fan"
    ensures RawPosition("fangua", 4) == 4 && RawPosition("fangua", 3) == 3
  {
    assert ["fang"][1..] == [] && ["fan"][1..] == [];
    assert Spelling(["fang"]) == "fang" + Spelling([]) && Spelling(["fan"]) == "fan" + Spelling([]);
    DisplayedSplits(["fang"]);
    DisplayedSplits(["fan"]);
    NoApostrophe("fangua");
    PlainPosition("fangua", 4);
    PlainPosition("fangua", 3);
    NoApostrophe("fang");
    NoApostrophe("fan");
  }

  lemma PlainPosition(s: string, n: nat)
    requires '\'' !in s && n <= |s|
    ensures RawPosition(s, n) == n
  {
    NoApostrophe(s);
    RawPositionInverts(s, n);
    NoApostrophe(s[..RawPosition(s, n)]);
  }

  /** A root of these keys. */
  ghost predicate FangOrFan(r: R.Root) {
    || (r.score == Some(1.0) && exists n: nat :: n < FANGS && r.entry == FangRoot(n))
    || (r.score == Some(0.0) && r.entry == FAN_ROOT)
  }

  /** The plan of these keys: a root for each "fang", and the one for "fan". */
  ghost predicate FangPlan(plan: seq<R.Root>) {
    && (forall r :: r in plan ==> FangOrFan(r)) && (forall n: nat :: n < FANGS ==> exists r :: r in plan && r.entry == FangRoot(n))
    && exists r :: r in plan && r.entry == FAN_ROOT
  }

  lemma FangRooted(inputs: Inputs, entries: set<Entry>, r: R.Root, m: Match)
    requires FangKeys(inputs) && (forall e :: e in entries ==> FangEntry(e) || e == FAN || e == GUA)
    requires IsRoot(inputs, entries, FangScores(), Unranked(), r, m)
    ensures FangOrFan(r)
    ensures forall n: nat :: n < FANGS && m.entry == Fang(n) ==> r.entry == FangRoot(n)
    ensures m.entry == FAN ==> r.entry == FAN_ROOT
  {
    hide IsBest, Displayed, Spelling, RawPosition;
    FangSpelled();
    FangBest(RootQuery(inputs), m.entry, m);
    if FangEntry(m.entry) {
      var n: nat :| n < FANGS && m.entry == Fang(n);
      assert r.entry == FangRoot(n);
    }
  }

  lemma FangMatched(inputs: Inputs, e: Entry)
    requires FangKeys(inputs) && (FangEntry(e) || e == FAN)
    ensures exists m: Match :: m.entry == e && IsBest(RootQuery(inputs), m.entry, m) && Rooted(m)
  {
    hide IsBest;
    var m := Match(e, if e == FAN then 3 else 4, 0, false, 0);
    FangBest(RootQuery(inputs), e, m);
    assert m.entry == e && IsBest(RootQuery(inputs), m.entry, m) && Rooted(m);
  }

  lemma FangPlanned(inputs: Inputs, entries: set<Entry>, plan: seq<R.Root>)
    requires FangKeys(inputs) && (forall e :: e in entries <==> FangEntry(e) || e == FAN || e == GUA)
    requires IsPlan(inputs, entries, FangScores(), Unranked(), plan)
    ensures FangPlan(plan)
  {
    hide IsBest, IsRoot, FangKeys, FangOrFan;
    forall r | r in plan ensures FangOrFan(r) {
      var m :| IsRoot(inputs, entries, FangScores(), Unranked(), r, m);
      FangRooted(inputs, entries, r, m);
    }
    forall n: nat | n < FANGS ensures exists r :: r in plan && r.entry == FangRoot(n) {
      assert FangEntry(Fang(n));
      FangMatched(inputs, Fang(n));
      var m: Match :| m.entry == Fang(n) && IsBest(RootQuery(inputs), m.entry, m) && Rooted(m);
      var r :| r in plan && IsRoot(inputs, entries, FangScores(), Unranked(), r, m);
      FangRooted(inputs, entries, r, m);
    }
    FangMatched(inputs, FAN);
    var m: Match :| m.entry == FAN && IsBest(RootQuery(inputs), m.entry, m) && Rooted(m);
    var r :| r in plan && IsRoot(inputs, entries, FangScores(), Unranked(), r, m);
    FangRooted(inputs, entries, r, m);
  }

  lemma FangOwn(s: SearchSession, r: R.Root)
    requires FangKeys(s.inputs) && FangOrFan(r)
    ensures s.Single(r) && s.OwnPath(r).tokenPath == [r.entry.tokenId] && 0 <= r.entry.tokenId <= FANGS
    ensures r.entry == FAN_ROOT <==> r.entry.tokenId == FANGS
    ensures r.entry == FAN_ROOT ==> s.OwnPath(r) == FAN_PATH
    ensures r.entry != FAN_ROOT ==> exists n: nat :: n < FANGS && s.OwnPath(r) == FangPath(n)
  {
    hide Syllables, Letters;
    FangSpelled();
    assert s.inputs.raw[..4] == "fang" && s.inputs.raw[..3] == "fan";
    if r.entry != FAN_ROOT {
      var n: nat :| n < FANGS && r.entry == FangRoot(n);
      assert s.OwnPath(r) == FangPath(n);
    }
  }

  lemma {:induction false} CoversFit(s: seq<int>, k: nat)
    requires forall n :: 0 <= n < k ==> n in s
    ensures |s| >= k
  {
    if k > 0 {
      var last := k - 1;
      assert last in s;
      var i :| 0 <= i < |s| && s[i] == last;
      var rest := s[..i] + s[i + 1..];
      forall n | 0 <= n < k - 1 ensures n in rest {
        assert n in s;
        var j :| 0 <= j < |s| && s[j] == n;
        assert rest[if j < i then j else j - 1] == n;
      }
      CoversFit(rest, k - 1);
    }
  }

  /** Among the seeds the likelier "fang" come first, and they are 32 of them: "fan" is behind those. */
  lemma FangSeeds(s: SearchSession, plan: seq<R.Root>, records: seq<HanPath>)
    requires FangKeys(s.inputs) && FangPlan(plan) && s.SeedsOf(plan, records)
    ensures |records| > FANGS && forall i :: 0 <= i < FANGS ==> exists n: nat :: n < FANGS && records[i] == FangPath(n)
  {
    hide FangKeys, FangOrFan, SearchSession.OwnPath, SearchSession.SeedsOf, SearchSession.Single;
    forall r | r in plan ensures s.Single(r) { FangOwn(s, r); }
    var own := OwnOnly(s, plan, records);
    FangTokens(s, plan, own);
    CoversFit(seq(|own|, i requires 0 <= i < |own| => own[i].entry.tokenId), FANGS + 1);
    forall i | 0 <= i < FANGS ensures exists n: nat :: n < FANGS && records[i] == FangPath(n) {
      FanIsLast(s, plan, own, i);
      assert own[i] in own;
      FangOwn(s, own[i]);
    }
  }

  lemma FangTokens(s: SearchSession, plan: seq<R.Root>, own: seq<R.Root>)
    requires FangKeys(s.inputs) && FangPlan(plan) && s.OwnSeeds(plan, own)
    ensures var tokens := seq(|own|, i requires 0 <= i < |own| => own[i].entry.tokenId); forall n :: 0 <= n < FANGS + 1 ==> n in tokens
  {
    hide FangKeys, FangOrFan, SearchSession.OwnPath;
    var tokens := seq(|own|, i requires 0 <= i < |own| => own[i].entry.tokenId);
    forall n | 0 <= n < FANGS + 1 ensures n in tokens {
      var r :| r in plan && r.entry == if n < FANGS then FangRoot(n) else FAN_ROOT;
      FangOwn(s, r);
      var x :| x in own && s.OwnKey(x) == s.OwnKey(r);
      FangOwn(s, x);
      var i :| 0 <= i < |own| && own[i] == x;
      assert tokens[i] == n;
    }
  }

  /** Only the last seed can be "fan". */
  lemma FanIsLast(s: SearchSession, plan: seq<R.Root>, own: seq<R.Root>, i: nat)
    requires FangKeys(s.inputs) && FangPlan(plan) && s.OwnSeeds(plan, own) && i < |own| - 1
    ensures own[i].entry != FAN_ROOT
  {
    hide SearchSession.OwnPath, SearchSession.Single;
    var a, b := own[i], own[i + 1];
    assert a in own && b in own;
    FangOwn(s, a);
    FangOwn(s, b);
    FangBeforeFan(s, a, b);
  }

  lemma FangBeforeFan(s: SearchSession, a: R.Root, b: R.Root)
    requires FangKeys(s.inputs) && FangOrFan(a) && FangOrFan(b) && a.score.Some? && b.score.Some?
    ensures a.entry == FAN_ROOT && b.entry != FAN_ROOT ==> LikelierOnly(b, a)
    ensures a.entry == FAN_ROOT && b.entry == FAN_ROOT ==> s.OwnKey(a) == s.OwnKey(b)
  {}

  /** A path that spells "fang", or the seeds behind the first 32. */
  ghost predicate FangItem(x: Item) {
    (exists n: nat :: n < FANGS && x == Search(FangPath(n))) || (x.RootSeeds? && x.at == FANGS)
  }

  lemma FangMaterialized(s: SearchSession, id: nat, plan: seq<R.Root>, records: seq<HanPath>)
    requires FangKeys(s.inputs) && FangPlan(plan) && s.SeedsOf(plan, records)
    ensures |records| > FANGS && RootSeeds(id, records, FANGS) in Materialized(id, records, 0) && Search(records[0]) in Materialized(id, records, 0)
    ensures forall x :: x in Materialized(id, records, 0) ==> FangItem(x)
  {
    hide SearchSession.SeedsOf, FangKeys, FangPlan;
    FangSeeds(s, plan, records);
    var items := Materialized(id, records, 0);
    assert items[FANGS] == RootSeeds(id, records, FANGS) && items[0] == Search(records[0]);
    forall x | x in items ensures FangItem(x) {
      var j :| 0 <= j < |items| && items[j] == x;
      if j < FANGS { assert records[0 + j] == records[j]; }
    }
  }

  lemma FangFrontier(s: SearchSession, plan: seq<R.Root>)
    requires FangKeys(s.inputs) && FangPlan(plan) && s.expanded == {}
    requires (forall x :: x in s.frontier ==> !x.Deferred?) && s.Carried(DeferredPlan(plan), s.seen, s.expanded, s.frontier)
    requires forall x :: x in s.frontier ==> x in [DeferredPlan(plan)] || s.Planned([DeferredPlan(plan)], x)
    ensures (forall x :: x in s.frontier ==> FangItem(x)) && (exists x :: x in s.frontier && x.RootSeeds?) && s.HoldsBack(s.frontier, s.expanded)
  {
    hide FangKeys, FangPlan, KeyOf, SearchSession.SeedsOf, Materialized, FangItem, SearchSession.Unscored;
    forall x | x in s.frontier ensures FangItem(x) {
      assert x != DeferredPlan(plan);
      var id: nat, records :| s.SeedsOf(plan, records) && x in Materialized(id, records, 0);
      FangMaterialized(s, id, plan, records);
    }
    var d := DeferredPlan(plan);
    var id, records :| s.Realised(d, records, s.seen) && s.AllHeld(Materialized(id, records, 0), s.expanded, s.frontier);
    FangMaterialized(s, id, plan, records);
    assert s.Held(KeyOf(RootSeeds(id, records, FANGS)), s.expanded, s.frontier) && s.Held(KeyOf(Search(records[0])), s.expanded, s.frontier);
    var x :| x in s.frontier && KeyOf(x) == KeyOf(RootSeeds(id, records, FANGS));
    var y :| y in s.frontier && KeyOf(y) == KeyOf(Search(records[0]));
    KeyTells(x, RootSeeds(id, records, FANGS));
    KeyTells(y, Search(records[0]));
    FangUnscored(s, y);
  }

  lemma KeyTells(x: Item, y: Item)
    requires KeyOf(x) == KeyOf(y)
    ensures (x.RootSeeds? <==> y.RootSeeds?) && (x.Search? <==> y.Search?)
  {}

  lemma FangUnscored(s: SearchSession, x: Item)
    requires FangKeys(s.inputs) && FangItem(x) && x.Search?
    ensures s.Unscored(x, {})
  {}

  /** Nothing on the frontier has anything to hand out. */
  lemma FangBarren(s: SearchSession, x: Item)
    requires FangKeys(s.inputs) && (forall e :: e in s.matcher.entries ==> FangEntry(e) || e == FAN || e == GUA) && FangItem(x)
    ensures s.Barren(x) && !x.Resume? && !x.Deferred? && KeyOf(x) != KeyOf(Search(FAN_PATH))
  {
    hide Derives, FangEntry;
    if x.Search? {
      var n: nat :| n < FANGS && x == Search(FangPath(n));
      forall e ensures !s.LegalEdge(x.path, e) {
        s.GoesAsMatched(x.path, e);
        forall entry, o | entry in s.matcher.entries ensures !Derives(s.QueryFrom(x.path), entry, o) { BehindFang(s.QueryFrom(x.path), entry, o); }
      }
    }
  }

  lemma FanGoesOn(s: SearchSession)
    requires FangKeys(s.inputs) && GUA in s.matcher.entries
    ensures exists e :: s.LegalEdge(FAN_PATH, e)
  {
    hide IsBest;
    var m := Match(GUA, 6, 0, false, 0);
    GuaBehindFan(s.QueryFrom(FAN_PATH));
    s.GoesAsMatched(FAN_PATH, s.EdgeBy(FAN_PATH, m));
    assert s.Continues(FAN_PATH, m) && s.LegalEdge(FAN_PATH, s.EdgeBy(FAN_PATH, m));
  }

  lemma FanIsRoot(s: SearchSession, plan: seq<R.Root>)
    requires FangKeys(s.inputs) && FangPlan(plan)
    ensures exists r :: r in plan && s.Single(r) && s.OwnPath(r) == FAN_PATH
  {
    hide FangKeys, FangOrFan, SearchSession.OwnPath;
    var r :| r in plan && r.entry == FAN_ROOT;
    FangOwn(s, r);
  }

  /** The step pops everything, seeds included, and finds no parent. */
  lemma SeedsPopped(s: SearchSession, step: Step, scorer: Scorer, before: seq<Item>)
    requires FangKeys(s.inputs) && (forall e :: e in s.matcher.entries ==> FangEntry(e) || e == FAN || e == GUA)
    requires (forall x :: x in before ==> FangItem(x)) && (exists x :: x in before && x.RootSeeds?) && s.HoldsBack(before, {})
    requires step.Resumed? ==> s.ResumedOk(step.work, before, {}, s.seen, s.frontier)
    requires step.Ended? ==> before == [] || !s.inputs.hasRoot
    requires step.Popped? ==> s.PoppedOk(step, scorer, before, {}, s.seen, s.expanded, s.frontier, s.exhausted)
    ensures s.exhausted && s.frontier == [] && (exists id :: SeedsKey(id, FANGS) in s.expanded) && KeyOf(Search(FAN_PATH)) !in s.expanded
  {
    hide SearchSession.HoldsBack, SearchSession.WorkedOff, SearchSession.NothingToResume, SearchSession.Barren, SearchSession.Carried, Ranked, KeysDiffer,
         ItemOk, FangEntry, SearchSession.ParentOk, FangItem, KeyOf;
    forall x | x in before ensures s.Barren(x) && !x.Resume? && !x.Deferred? && KeyOf(x) != KeyOf(Search(FAN_PATH)) { FangBarren(s, x); }
    assert s.inputs.hasRoot;
    assert step.Popped?;
    var seeds :| seeds in before && seeds.RootSeeds?;
    IsQueued(s, seeds, s.seen, {}, step.queue);
    assert forall x :: x in step.queue ==> x in before;
    AllPopped(s, step.queue, step.count, step.parent);
    var y :| y in step.queue && KeyOf(y) == KeyOf(seeds);
    KeyTells(y, seeds);
    FangSeedsKey(y);
    assert KeyOf(y) in s.expanded;
  }

  lemma FangSeedsKey(x: Item)
    requires FangItem(x) && x.RootSeeds?
    ensures KeyOf(x) == SeedsKey(x.id, FANGS)
  {}

  lemma AllPopped(s: SearchSession, queue: seq<Item>, count: nat, parent: Option<Item>)
    requires s.Popping(queue, count, parent) && forall x :: x in queue ==> s.Barren(x)
    ensures parent == None && count == |queue| && queue[..count] == queue
  {
    hide SearchSession.Barren;
    if parent.Some? { BeforeIsIn(queue, count); }
  }

  lemma BeforeIsIn(queue: seq<Item>, count: nat)
    requires count <= |queue|
    ensures count > 0 ==> queue[count - 1] in queue
  {}

  /** The keys "fangua" with 32 entries that spell "fang", one that spells "fan" and one that spells
      "gua": the first 32 seeds are dead ends, and whatever the scorer, the one behind them, which
      has a legal edge, is never taken up. */
  method SeedsAreLost(inputs: Inputs, scorer: Scorer) returns (s: SearchSession, plan: seq<R.Root>)
    requires FangKeys(inputs)
    ensures s.inputs == inputs && s.matcher.entries == Collected(FangIndex()) && IsPlan(inputs, s.matcher.entries, FangScores(), Unranked(), plan)
    ensures (exists r :: r in plan && s.Single(r) && s.OwnPath(r) == FAN_PATH) && exists e :: s.LegalEdge(FAN_PATH, e)
    ensures s.OrderOk() && s.exhausted && s.frontier == [] && (exists id :: SeedsKey(id, FANGS) in s.expanded)
    ensures KeyOf(Search(FAN_PATH)) !in s.expanded
  {
    hide FangKeys, InputsOk, FrontierOk, SearchSession.CleanAre, SearchSession.PagesAre, SearchSession.BucketsAre, SearchSession.HanSorted, FangPlan,
         NoneDropped, OneRemainder, NoneExpanded, NoneLonger, SearchSession.Traced, KeyOf, DeferredPlan, IsPlan, SearchSession.Carried, SearchSession.Planned,
         SearchSession.PlanShows, SearchSession.NewlyShown, NoRepeats, SearchSession.RootCandidate, R.Ranking, R.Prefix, FangIndex, Collected, FangItem,
         SearchSession.PoppedOk, SearchSession.StepBrings, SearchSession.ResumedOk, SearchSession.HoldsBack, SearchSession.LegalEdge, FangEntry;
    var matcher := new PartialPinyinMatcher(FangIndex(), ["fan", "fang", "gua"]);
    FangKeysOk(inputs, matcher.entries);
    s, plan := Open(inputs, matcher, FangScores(), Unranked());
    FangPlanned(inputs, matcher.entries, plan);
    FangNotEmpty(plan);
    s.PrepareSearch();
    FangFrontier(s, plan);
    ghost var before := s.frontier;
    var progressed: Option<nat>;
    ghost var step: Step;
    progressed, step := s.ExpandOneFrontier(scorer);
    SeedsPopped(s, step, scorer, before);
    FanIsRoot(s, plan);
    FanGoesOn(s);
  }

  lemma FangNotEmpty(plan: seq<R.Root>)
    requires FangPlan(plan)
    ensures plan != []
  {}

  lemma FangKeysOk(inputs: Inputs, entries: set<Entry>)
    requires FangKeys(inputs) && entries == Collected(FangIndex())
    ensures InputsOk(inputs, entries) && inputs.mode == ChineseFirst && inputs.hasRoot && GUA in entries && KeysParse(inputs)
    ensures forall e :: e in entries <==> FangEntry(e) || e == FAN || e == GUA
  {
    forall e ensures e in FangIndex() <==> FangEntry(e) || e == FAN || e == GUA { InFangIndex(e); }
    AsciiKeys(inputs, entries);
    LettersOnly(inputs.raw);
  }
}
