/** Candidate pages (neural_candidates.py, neural_candidate_pages.py and its v2, v3 and scored
    layers): one search session whose pages are frozen in order while its frontier is still
    being expanded. Every request or worker slice is one atomic step. */
module CandidatePages {
  import opened PinyinInput
  import opened PinyinMatcher
  import opened ScorePositions
  import opened SearchBatches
  import opened SearchFrontier
  import opened SearchLimits
  import opened WaitingList
  import opened Wrappers
  import L = LatinRoots
  import W = LexicalWalk
  import R = RootSelection

  datatype Mode = ChineseFirst | LatinFirst

  datatype Page = Page(candidates: seq<Candidate>, ids: seq<string>, hasMore: bool)

  ghost function Concat(frozen: map<nat, Page>, n: nat): seq<Candidate>
    requires forall k :: 0 <= k < n ==> k in frozen
  {
    if n == 0 then [] else Concat(frozen, n - 1) + frozen[n - 1].candidates
  }

  lemma {:induction false} ConcatSame(before: map<nat, Page>, after: map<nat, Page>, n: nat)
    requires forall k :: 0 <= k < n ==> k in before && k in after && before[k].candidates == after[k].candidates
    ensures Concat(before, n) == Concat(after, n)
  {
    if n > 0 { ConcatSame(before, after, n - 1); }
  }

  /** Pages once frozen keep their candidates and their identifiers. */
  ghost predicate Kept(before: map<nat, Page>, after: map<nat, Page>) {
    forall k :: k in before ==> k in after && after[k].candidates == before[k].candidates && after[k].ids == before[k].ids
  }

  lemma KeptAt(before: map<nat, Page>, after: map<nat, Page>, k: nat)
    requires Kept(before, after) && k in before
    ensures k in after && after[k].candidates == before[k].candidates && after[k].ids == before[k].ids
  {}

  lemma KeptTwice(a: map<nat, Page>, b: map<nat, Page>, c: map<nat, Page>)
    requires Kept(a, b) && Kept(b, c)
    ensures Kept(a, c)
  {}

  /** The longest counted bucket among some candidates, or at least b. */
  ghost function LongestOf(s: seq<Candidate>, b: nat): (r: nat)
    ensures r >= b && forall c :: c in s && Counted(c) ==> c.predicted <= r
    ensures r == b || exists c :: c in s && Counted(c) && c.predicted == r
  {
    if s == [] then b
    else
      var rest := LongestOf(s[1..], b);
      if Counted(s[0]) && s[0].predicted > rest then s[0].predicted else rest
  }

  /** No counted candidate is in a longer bucket than b. */
  ghost predicate NoneLonger(published: seq<Candidate>, b: nat) {
    forall c :: c in published && Counted(c) ==> c.predicted <= b
  }

  lemma OrderMoves(typing: Typing, frontier: seq<Item>, expanded: set<PathKey>, published: seq<Candidate>, reached: nat, selected: seq<Candidate>, longest: nat)
    requires FrontierOk(typing, frontier, expanded, reached) && NoneLonger(published, reached)
    requires (forall x :: x in frontier ==> AtLeast(x, longest)) && longest == LongestOf(selected, reached)
    ensures FrontierOk(typing, frontier, expanded, longest) && NoneLonger(published + selected, longest)
  {
    hide ItemOk, AtLeast, KeyOf;
  }

  /** What a session is bound to for its whole life; ranks stand for the source's key tuples. */
  datatype Inputs = Inputs(
    setId: string, mode: Mode, hasRoot: bool, raw: string, compact: string, boundaries: set<nat>, freeEntries: seq<Entry>,
    latinTokens: seq<int>, latinFragment: int -> string,
    norm: string -> string, hanRank: Candidate -> int, latinRank: Candidate -> int, itemRank: Item -> int, seedRank: R.Root -> int,
    pageId: (string, nat, nat, Candidate) -> string)

  /** Syllables hold no apostrophe and are not empty. */
  predicate Plain(s: string) {
    s != "" && '\'' !in s
  }

  predicate PlainSyllables(x: Entry) {
    forall s :: s in x.syllablePath ==> Plain(s)
  }

  /** What the loaded index, the vocabulary and the normal form promise: index texts are Han and
      in normal form, fragments are Latin, and no Han text and no other Latin text has the
      normal form of the keys. */
  ghost predicate InputsOk(inputs: Inputs, entries: set<Entry>) {
    && (forall x :: x in entries || x in inputs.freeEntries ==> HanOnly(x.text))
    && (forall x :: x in entries ==> PlainSyllables(x))
    && (forall t :: t in inputs.latinTokens ==> L.IsLatin(inputs.latinFragment(t)))
    && (forall s :: FromIndex(entries, s) ==> inputs.norm(s) == s)
    && (forall s :: HanOnly(s) ==> inputs.norm(s) != inputs.norm(inputs.raw))
    && (forall s :: L.IsLatin(s) && inputs.norm(s) == inputs.norm(inputs.raw) ==> s == inputs.raw)
  }

  /** The fragments of some tokens, one after another. */
  function Spelled(inputs: Inputs, tokens: seq<int>): string {
    if tokens == [] then "" else inputs.latinFragment(tokens[0]) + Spelled(inputs, tokens[1..])
  }

  /** These tokens go on from a Latin path to the keys, within the length of a path. */
  predicate Completes(inputs: Inputs, text: string, tokenPath: seq<int>, tokens: seq<int>) {
    && tokens != [] && |tokenPath| + |tokens| <= MAX_MODEL_TOKENS && (forall t :: t in tokens ==> t in inputs.latinTokens)
    && text + Spelled(inputs, tokens) == inputs.raw
  }

  function TypingOf(inputs: Inputs, entries: set<Entry>): Typing {
    Typing(inputs.raw, inputs.compact, inputs.boundaries, entries, inputs.freeEntries)
  }

  /** The keys parse, into these letters. */
  ghost predicate KeysParse(inputs: Inputs) {
    Accepted(inputs.raw) && inputs.compact == Letters(inputs.raw) && inputs.boundaries == Boundaries(inputs.raw)
  }

  /** A Latin path that some tokens of the vocabulary complete to the keys. */
  ghost predicate Completable(inputs: Inputs, text: string, tokenPath: seq<int>) {
    |inputs.raw| <= MAX_LATIN_CHARACTERS && L.IsLatin(inputs.raw) && exists tokens :: Completes(inputs, text, tokenPath, tokens)
  }

  /** Nothing that expanding this item can show is the keys themselves. */
  ghost predicate QuietItem(inputs: Inputs, x: Item) {
    match x
    case LatinPath(text, tokenPath, _) => !Completable(inputs, text, tokenPath)
    case RootSeeds(_, _, _) => false
    case Deferred(_, _) => false
    case _ => true
  }

  ghost predicate Quiet(inputs: Inputs, frontier: seq<Item>) {
    forall x :: x in frontier ==> QuietItem(inputs, x)
  }

  lemma QuietGrows(inputs: Inputs, before: seq<Item>, after: seq<Item>)
    requires Quiet(inputs, before) && forall x :: x in after ==> x in before || x.Search? || x.Resume?
    ensures Quiet(inputs, after)
  {}

  /** How the scorer answers for a parent and its next tokens. */
  datatype Answer = Raised | Unanswered | Scored(values: Scores)

  type Scorer = (Item, seq<int>) -> Answer

  /** The first seeds as paths, and the rest behind one item. */
  function Materialized(id: nat, records: seq<HanPath>, at: nat): seq<Item>
    requires at <= |records|
  {
    var end := if at + MAX_FRONTIER_PER_BUCKET < |records| then at + MAX_FRONTIER_PER_BUCKET else |records|;
    seq(end - at, i requires 0 <= i < end - at => Search(records[at + i])) + if end < |records| then [RootSeeds(id, records, end)] else []
  }

  /** What one step of the search did. */
  datatype Step =
    | Resumed(work: Item)
    | Ended
    | Popped(queue: seq<Item>, count: nat, parent: Option<Item>, tokens: seq<int>, edges: map<int, seq<Edge>>, answer: Answer)

  /** One search session, with the immutable inputs it is bound to. */
  class SearchSession {
    const inputs: Inputs
    const matcher: PartialPinyinMatcher
    const norm: string -> string

    var pending: seq<Candidate>
    var frontier: seq<Item>
    var frozen: map<nat, Page>
    var seen: set<Identity>
    var expanded: set<PathKey>
    var exhausted: bool
    ghost var published: seq<Candidate>   // every frozen candidate, in page order
    ghost var pages: nat
    ghost var reached: nat                // no counted frozen candidate is in a longer bucket

    /** A new session: nothing frozen, nothing expanded. Identities are unique for its whole life
        unless the literal waits while a Latin path may still be completed to the keys. */
    constructor (inputs: Inputs, matcher: PartialPinyinMatcher, roots: seq<Candidate>, frontier: seq<Item>, omitted: set<Identity>)
      requires matcher.Valid() && InputsOk(inputs, matcher.entries)
      requires forall x :: x in frontier ==> ItemOk(TypingOf(inputs, matcher.entries), x) && !x.Resume?
      requires NoRepeats(roots) && forall x, y :: x in roots && y in roots && x != y ==> IdOf(inputs.norm, x) != IdOf(inputs.norm, y)
      requires forall c :: c in roots ==> Worded(inputs.raw, c)
      ensures this.inputs == inputs && this.matcher == matcher && PagesOk() && OrderOk()
      ensures frozen == map[] && published == [] && pages == 0 && pending == roots && this.frontier == frontier && expanded == {}
      ensures seen == omitted + set c | c in roots && c.kind != Literal :: IdOf(inputs.norm, c)
      ensures exhausted <==> frontier == [] || (!inputs.hasRoot && forall x :: x in frontier ==> !x.Deferred?)
      ensures Clean() <==> (forall c :: c in roots ==> c.kind != Literal) || exhausted || Quiet(inputs, frontier)
      ensures HanSorted(roots) ==> Buckets()
    {
      this.inputs, this.matcher, this.norm := inputs, matcher, inputs.norm;
      pending, this.frontier, frozen := roots, frontier, map[];
      seen := omitted + set c | c in roots && c.kind != Literal :: IdOf(inputs.norm, c);
      expanded := {};
      exhausted := frontier == [] || (!inputs.hasRoot && forall x :: x in frontier ==> !x.Deferred?);
      published, pages, reached := [], 0, 0;
      new;
      hide InputsOk, ItemOk, Quiet, KeyOf;
    }

    function Typed(): Typing {
      TypingOf(inputs, matcher.entries)
    }

    predicate Chinese() { inputs.mode == ChineseFirst }

    function PageSize(): nat { if Chinese() then CHINESE_PAGE_SIZE else LATIN_PAGE_SIZE }

    function Capacity(): nat { if Chinese() then CHINESE_CANDIDATE_COUNT else MAX_FROZEN_CANDIDATES }

    function Ids(page: nat, candidates: seq<Candidate>): seq<string> {
      seq(|candidates|, i requires 0 <= i < |candidates| => inputs.pageId(inputs.setId, page, i, candidates[i]))
    }

    /** Pages are 0..n without gaps, within their sizes, and identified by position. */
    ghost predicate PagesOk()
      reads this`frozen, this`published, this`pages
    {
      PagesAre(frozen, published, pages)
    }

    ghost predicate PagesAre(frozen: map<nat, Page>, published: seq<Candidate>, pages: nat) {
      && (forall k: nat :: k in frozen <==> k < pages)
      && published == Concat(frozen, pages) && |published| <= Capacity()
      && (forall k :: k in frozen ==> |frozen[k].candidates| <= PageSize() && frozen[k].ids == Ids(k, frozen[k].candidates))
    }

    /** Short before long: nothing frozen and counted is in a longer bucket than anything the
        frontier can still produce. At most one remainder waits. */
    ghost predicate OrderOk()
      reads this`frontier, this`expanded, this`exhausted, this`published, this`reached
    {
      && BoundTo() && FrontierOk(Typed(), frontier, expanded, reached)
      && OneRemainder(frontier) && NoneExpanded(expanded)
      && (exhausted && inputs.hasRoot ==> frontier == [])
      && (inputs.hasRoot ==> NoneLonger(published, reached))
    }

    ghost predicate BoundTo() {
      matcher.Valid() && norm == inputs.norm && InputsOk(inputs, matcher.entries)
    }

    /** Identities are unique and known. While a literal, which is never entered among the known
        ones, is shown and the search goes on, nothing on the frontier can be completed to the keys. */
    ghost predicate Clean()
      reads this`pending, this`published, this`seen, this`frontier, this`exhausted
    {
      CleanAre(published, pending, seen, frontier, exhausted)
    }

    ghost predicate CleanAre(published: seq<Candidate>, pending: seq<Candidate>, seen: set<Identity>, frontier: seq<Item>, exhausted: bool) {
      && BoundTo() && Unique(norm, published, pending) && SeenCovers(norm, published, pending, seen)
      && (forall c :: c in published || c in pending ==> Worded(inputs.raw, c))
      && (LiteralShown(published, pending) && !exhausted ==> Quiet(inputs, frontier))
    }

    /** The same while x has been taken off the frontier. */
    ghost predicate CleanBut(x: Item)
      reads this`pending, this`published, this`seen, this`frontier, this`exhausted
    {
      CleanAre(published, pending, seen, frontier + [x], exhausted)
    }

    lemma CleanIsUnique()
      requires Clean()
      ensures Unique(norm, published, pending)
    {}

    /** Paths join or leave the frontier. */
    lemma FrontierMoves(before: seq<Item>, after: seq<Item>)
      requires CleanAre(published, pending, seen, before, exhausted)
      requires forall x :: x in after ==> x in before || x.Search? || x.Resume?
      ensures CleanAre(published, pending, seen, after, exhausted)
    {
      hide InputsOk, Unique, SeenCovers, Worded, Quiet, LiteralShown;
      if Quiet(inputs, before) { QuietGrows(inputs, before, after); }
    }

    /** A candidate joins that is new, is no literal, and is not the keys while they are shown. */
    lemma CandidateJoins(without: seq<Candidate>, c: Candidate)
      requires Clean() && c.kind == Neural && Worded(inputs.raw, c) && NoRepeats(without) && forall x :: x in without ==> x in pending
      requires !Shown(norm, published, without, IdOf(norm, c))
      ensures CleanAre(published, without + [c], seen + {IdOf(norm, c)}, frontier, exhausted)
    {
      hide InputsOk, Unique, Shown, Quiet;
      FewerUnique(norm, published, pending, without);
      AppendUnique(norm, published, without, c);
    }

    lemma HanIsNotTheKeys(c: Candidate)
      requires Clean() && HanOnly(c.text)
      ensures NotTheKeys(norm, published, pending, IdOf(norm, c))
    {}

    /** Waiting candidates move to a page. */
    lemma PageJoins(selected: seq<Candidate>)
      requires Clean() && NoRepeats(selected) && forall c :: c in selected ==> c in pending
      ensures CleanAre(published + selected, Filter((c: Candidate) => c !in selected, pending), seen, frontier, exhausted)
    {
      hide Unique, NoRepeats, IdOf, InputsOk, Quiet, Worded;
      KnownMoves(norm, published, pending, seen, selected, Filter((c: Candidate) => c !in selected, pending));
    }

    /** The literal joins page zero once the search has ended: what still waits is Han. */
    lemma LiteralJoins()
      requires Clean() && exhausted && published == [] && forall c :: c in pending ==> c.script == Han
      ensures CleanAre([LiteralCandidate(inputs.raw)], pending, seen, frontier, exhausted)
    {
      var literal := LiteralCandidate(inputs.raw);
      assert [literal][0] == literal;
      forall c | c in pending ensures IdOf(norm, c) != IdOf(norm, literal) {
        assert HanOnly(c.text);
      }
    }

    /** Han candidates wait in the order of their keys. */
    ghost predicate HanSorted(pending: seq<Candidate>) {
      SortedBy(ByHan(inputs.compact, inputs.hanRank), Filter(InScript(Han), pending))
    }

    /** The frozen Han candidates of the neural search ascend by bucket within each class, and what
        waits comes behind them. */
    ghost predicate Buckets()
      reads this`pending, this`published
    {
      Chinese() && inputs.hasRoot ==> BucketsAre(published, pending)
    }

    ghost predicate BucketsAre(published: seq<Candidate>, pending: seq<Candidate>) {
      && BucketsAscend(inputs.compact, Filter(InScript(Han), published)) && HanSorted(pending)
      && forall f, w :: f in published && w in pending ==> InBuckets(inputs.compact, f, w)
    }

    /** Searching brings no candidate of a shorter bucket than what is frozen. */
    lemma BucketsGather(before: seq<Candidate>, after: seq<Candidate>)
      requires BucketsAre(published, before) && Gathered(norm, before, after, reached) && NoneLonger(published, reached) && HanSorted(after)
      ensures BucketsAre(published, after)
    {
      hide HanSorted, NoneDropped, SameClass;
    }

    /** Lexical candidates are not counted. */
    lemma BucketsSupplement(before: seq<Candidate>, seen: set<Identity>, offered: seq<Candidate>, after: seq<Candidate>)
      requires BucketsAre(published, before) && HanSorted(after) && forall c :: c in after ==> c in Supplemented(before, seen, offered).0
      requires forall c :: c in offered ==> Offerable(c)
      ensures BucketsAre(published, after)
    {
      hide HanSorted, SameClass, Supplemented, FromIndex;
      SupplementedFrom(before, seen, offered);
    }

    /** Freezing the first of what may be frozen: the rest is in no shorter bucket. */
    lemma BucketsFreeze(selected: seq<Candidate>)
      requires BucketsAre(published, pending) && Chinese() && Filter(InScript(Han), selected) <= Filter(InScript(Han), Freezable())
      requires forall c :: c in selected ==> c in Freezable()
      ensures BucketsAre(published + selected, Filter((c: Candidate) => c !in selected, pending))
    {
      hide InBuckets, HanSorted, Freezable, BucketsAscend;
      var rest := Filter((c: Candidate) => c !in selected, pending);
      var first, ready := Filter(InScript(Han), selected), Filter(InScript(Han), Freezable());
      FreezableWaits(selected);
      ReadyInOrder(ready);
      FilterJoin(InScript(Han), published, selected);
      TakeAscends(first, ready);
      AscendingJoin(inputs.compact, Filter(InScript(Han), published), first);
      RestSorted(selected, rest);
      forall f, w | f in published + selected && w in rest ensures InBuckets(inputs.compact, f, w) {
        if f in selected { SelectedFirst(selected, first, ready, f, w); }
      }
    }

    /** What may be frozen stands in the order of what waits. */
    lemma ReadySorted()
      ensures HanSorted(pending) ==> SortedBy(ByHan(inputs.compact, inputs.hanRank), Filter(InScript(Han), Freezable()))
    {
      if HanSorted(pending) {
        hide SortedBy, RipeNow;
        FiltersCommute(InScript(Han), RipeNow(), pending);
        FilterSorted(ByHan(inputs.compact, inputs.hanRank), RipeNow(), Filter(InScript(Han), pending));
      }
    }

    lemma ReadyInOrder(ready: seq<Candidate>)
      requires HanSorted(pending) && ready == Filter(InScript(Han), Freezable())
      ensures BucketsAscend(inputs.compact, ready)
    {
      hide BucketsAscend, SortedBy, Freezable;
      ReadySorted();
      KeyOrderAscends(inputs.compact, inputs.hanRank, ready);
    }

    lemma TakeAscends(first: seq<Candidate>, ready: seq<Candidate>)
      requires first <= ready && BucketsAscend(inputs.compact, ready)
      ensures BucketsAscend(inputs.compact, first)
    {
      hide InBuckets;
    }

    lemma RestSorted(selected: seq<Candidate>, rest: seq<Candidate>)
      requires HanSorted(pending) && rest == Filter((c: Candidate) => c !in selected, pending)
      ensures HanSorted(rest)
    {
      hide SortedBy;
      var unchosen := (c: Candidate) => c !in selected;
      FiltersCommute(InScript(Han), unchosen, pending);
      FilterSorted(ByHan(inputs.compact, inputs.hanRank), unchosen, Filter(InScript(Han), pending));
    }

    lemma SelectedFirst(selected: seq<Candidate>, first: seq<Candidate>, ready: seq<Candidate>, f: Candidate, w: Candidate)
      requires first <= ready && BucketsAscend(inputs.compact, ready) && Chinese() && f in selected && f in Freezable() && w in pending && w !in selected
      requires first == Filter(InScript(Han), selected) && ready == Filter(InScript(Han), Freezable())
      ensures InBuckets(inputs.compact, f, w)
    {
      hide SameClass;
      if Counted(f) && Counted(w) {
        assert InScript(Han)(f) && InScript(Han)(w);
        var i :| 0 <= i < |first| && first[i] == f;
        if w in Freezable() {
          var j :| 0 <= j < |ready| && ready[j] == w;
          EarlierIsIn(first, ready, j);
        }
      }
    }

    lemma EarlierIsIn(first: seq<Candidate>, ready: seq<Candidate>, j: nat)
      requires first <= ready && j < |ready|
      ensures ready[j] !in first ==> |first| <= j
    {
      if j < |first| { assert first[j] in first; }
    }

    lemma SortedAscends(pending: seq<Candidate>, from: seq<Candidate>)
      requires Filter(InScript(Han), pending) == StableSort(ByHan(inputs.compact, inputs.hanRank), from)
      ensures HanSorted(pending)
    {
      hide HanLe;
      var le := ByHan(inputs.compact, inputs.hanRank);
      RanksAreOrders(inputs.compact, inputs.hanRank);
      var han := Filter(InScript(Han), pending);
      forall i, j | 0 <= i < j < |han| ensures le(han[i], han[j]) {
        StableSortAscends(le, from, i, j);
      }
    }

    ghost predicate InOrder(han: seq<Candidate>) {
      forall i, j :: 0 <= i < j < |han| ==> InHanOrder(inputs.compact, inputs.hanRank, han[i], han[j])
    }

    lemma SortedInOrder(pending: seq<Candidate>)
      requires HanSorted(pending)
      ensures InOrder(Filter(InScript(Han), pending))
    {
      hide InHanOrder;
      var han := Filter(InScript(Han), pending);
      forall i, j | 0 <= i < j < |han| ensures InHanOrder(inputs.compact, inputs.hanRank, han[i], han[j]) {
        HanLeMeans(inputs.compact, inputs.hanRank, han[i], han[j]);
      }
    }

    /** Sort what waits: exact spellings, then neural order for Han; Latin interleaved by score. */
    method SortPending()
      modifies this`pending
      ensures forall c :: c in pending <==> c in old(pending)
      ensures old(Clean()) ==> Clean()
      ensures Chinese() ==>
                && Filter(InScript(Han), pending) == StableSort(ByHan(inputs.compact, inputs.hanRank), Filter(InScript(Han), old(pending)))
                && Filter(InScript(Latin), pending) == StableSort(ByOrder(inputs.latinRank), Filter(InScript(Latin), old(pending)))
                && exists n :: 0 <= n <= |pending| && Greedy(pending[..n]) && pending[n..] == Filter(Unscripted(), old(pending))
      ensures !Chinese() ==> pending == StableSort(ByOrder(inputs.latinRank), old(pending))
      ensures Chinese() ==> HanSorted(pending) && InOrder(Filter(InScript(Han), pending))
    {
      hide InOrder, StableSort, Filter, Greedy, TotalPreorder, ByHan, ByOrder, HanSorted;
      RanksAreOrders(inputs.compact, inputs.hanRank);
      RanksAreOrders(inputs.compact, inputs.latinRank);
      if !Chinese() {
        ghost var sorted := SortedSame(ByOrder(inputs.latinRank), pending);
        pending := StableSort(ByOrder(inputs.latinRank), pending);
      } else {
        pending := ChineseOrder(pending, ByHan(inputs.compact, inputs.hanRank), ByOrder(inputs.latinRank));
        SortedAscends(pending, Filter(InScript(Han), old(pending)));
        SortedInOrder(pending);
      }
    }

    /** Whatever became known is shown. */
    ghost predicate NewlyShown(before: set<Identity>, seen: set<Identity>, pending: seq<Candidate>) {
      forall id :: id in seen && id !in before ==> exists c :: c in pending && c.kind == Neural && IdOf(norm, c) == id
    }

    lemma NothingNew(seen: set<Identity>, pending: seq<Candidate>)
      ensures NewlyShown(seen, seen, pending)
    {}

    lemma NewlyShownTwice(before: set<Identity>, middle: set<Identity>, waiting: seq<Candidate>, seen: set<Identity>, pending: seq<Candidate>)
      requires NewlyShown(before, middle, waiting) && NewlyShown(middle, seen, pending) && NoneDropped(norm, waiting, pending)
      ensures NewlyShown(before, seen, pending)
    {
      forall id | id in seen && id !in before ensures exists c :: c in pending && c.kind == Neural && IdOf(norm, c) == id {
        if id in middle {
          var c :| c in waiting && c.kind == Neural && IdOf(norm, c) == id;
          assert Survives(norm, c, pending);
        }
      }
    }

    /** A waiting lexical candidate of the same identity. */
    function Doubles(s: seq<Candidate>, id: Identity): seq<Candidate> {
      Filter((x: Candidate) => x.kind == Lexical && IdOf(norm, x) == id, s)
    }

    /** A neural Han candidate: new, or replacing the first waiting lexical one of its identity. */
    method AddHan(c: Candidate) returns (added: bool)
      requires c.kind == Neural
      modifies this`pending, this`seen
      ensures var doubles := Doubles(old(pending), IdOf(norm, c));
              && added == (IdOf(norm, c) !in old(seen) || doubles != [])
              && pending == (if !added then old(pending)
                             else if doubles == [] then old(pending) + [c]
                             else RemoveFirst(old(pending), doubles[0]) + [c])
      ensures seen == old(seen) + {IdOf(norm, c)} && NewlyShown(old(seen), seen, pending)
      ensures old(Clean()) && c.script == Han && HanOnly(c.text) ==> Clean()
    {
      hide CleanAre;
      var id := IdOf(norm, c);
      var doubles := Doubles(pending, id);
      if id in seen && doubles == [] {
        assert seen == seen + {id};
        return false;
      }
      var without := pending;
      if doubles != [] {
        assert doubles[0] in doubles;
        without := RemoveFirst(pending, doubles[0]);
      }
      if Clean() && c.script == Han && HanOnly(c.text) { HanJoins(c, doubles, without); }
      seen := seen + {id};
      pending := without + [c];
      added := true;
    }

    lemma HanJoins(c: Candidate, doubles: seq<Candidate>, without: seq<Candidate>)
      requires Clean() && c.kind == Neural && c.script == Han && HanOnly(c.text)
      requires doubles == Doubles(pending, IdOf(norm, c)) && (IdOf(norm, c) !in seen || doubles != [])
      requires if doubles == [] then without == pending else doubles[0] in pending && without == RemoveFirst(pending, doubles[0])
      ensures CleanAre(published, without + [c], seen + {IdOf(norm, c)}, frontier, exhausted)
    {
      hide InputsOk, Quiet;
      HanIsNotTheKeys(c);
      NotShown(norm, published, pending, seen, doubles, without, IdOf(norm, c));
      CandidateJoins(without, c);
    }

    /** What AddHan does to the waiting list as a whole. */
    lemma AddedHan(before: seq<Candidate>, after: seq<Candidate>, c: Candidate, added: bool)
      requires c.kind == Neural
      requires var doubles := Doubles(before, IdOf(norm, c));
               after == (if !added then before else if doubles == [] then before + [c] else RemoveFirst(before, doubles[0]) + [c])
      ensures forall x :: x in after ==> x in before || x == c
      ensures NoneDropped(norm, before, after)
    {
      var doubles := Doubles(before, IdOf(norm, c));
      if added && doubles != [] {
        var d := doubles[0];
        assert d in doubles;
        forall x | x in before ensures Survives(norm, x, after) {
          assert c in after;
          if x != d { RemoveFirstKeeps(before, d, x); }
        }
      }
    }

    /** A candidate of a realised root, or a Latin continuation. */
    method AddRoot(c: Candidate) returns (added: bool)
      requires c.kind == Neural
      modifies this`pending, this`seen
      ensures added == (IdOf(norm, c) !in old(seen)) && seen == old(seen) + {IdOf(norm, c)} && NewlyShown(old(seen), seen, pending)
      ensures pending == if added then old(pending) + [c] else old(pending)
      ensures old(Clean()) && Worded(inputs.raw, c) && old(NotTheKeys(norm, published, pending, IdOf(norm, c))) ==> Clean()
    {
      hide CleanAre;
      if IdOf(norm, c) in seen {
        assert seen == seen + {IdOf(norm, c)};
        return false;
      }
      if Clean() && Worded(inputs.raw, c) && NotTheKeys(norm, published, pending, IdOf(norm, c)) {
        RootJoins(c);
      }
      seen := seen + {IdOf(norm, c)};
      pending := pending + [c];
      added := true;
    }

    lemma RootJoins(c: Candidate)
      requires Clean() && c.kind == Neural && Worded(inputs.raw, c) && IdOf(norm, c) !in seen && NotTheKeys(norm, published, pending, IdOf(norm, c))
      ensures CleanAre(published, pending + [c], seen + {IdOf(norm, c)}, frontier, exhausted)
    {
      hide InputsOk, Quiet;
      NotYetShown(norm, published, pending, seen, c);
      CandidateJoins(pending, c);
    }

    /** What the lexical walk may offer: a Han text over the characters of the index. */
    ghost predicate Offerable(c: Candidate) {
      c.kind == Lexical && c.script == Han && FromIndex(matcher.entries, c.text)
    }

    /** A candidate of the lexical walk as it waits. */
    function Lexically(c: W.Candidate): Candidate {
      Candidate(c.text, c.pinyinPath, c.consumedKeys, true, c.predicted, Han, Lexical, c.tokenPath, c.score, LEXICAL_TIER)
    }

    /** Whatever the walk over the same index emits may be offered. */
    lemma WalkIsOfferable(w: W.Problem, emitted: seq<W.Candidate>, known: set<Identity>, i: nat)
      requires w.entries == matcher.entries && W.ExactlyWholePaths(w, norm, known, emitted) && i < |emitted|
      ensures Offerable(Lexically(emitted[i]))
    {
      hide W.LegalChain;
      assert W.IsWhole(w, emitted[i]);
      var p :| W.WholePath(w, p) && emitted[i] == W.CandidateOf(w, p);
      var chain :| W.LegalChain(w, chain) && W.PathOf(w, chain) == p;
      W.PathTextFromIndex(w, chain);
    }

    /** Candidates of the lexical walk join the waiting list under their own text. */
    method Supplement(offered: seq<Candidate>)
      requires forall c :: c in offered ==> Offerable(c)
      modifies this`pending, this`seen
      ensures seen == Supplemented(old(pending), old(seen), offered).1
      ensures forall c :: c in pending <==> c in Supplemented(old(pending), old(seen), offered).0
      ensures Chinese() ==> HanSorted(pending)
      ensures NoneDropped(norm, old(pending), pending)
      ensures forall c :: c in pending ==> c in old(pending) || c.kind != Neural
      ensures old(Clean()) ==> Clean()
      ensures old(Buckets()) ==> Buckets()
    {
      SupplementIsLexical(offered);
      hide CleanAre, NoneDropped, Offerable, BucketsAre, HanSorted, StableSort, Filter, Greedy, Survives;
      if Clean() { SupplementClean(offered); }
      SupplementDropsNone(offered);
      for i := 0 to |offered|
        invariant (pending, seen) == Supplemented(old(pending), old(seen), offered[..i])
      {
        var c := offered[i];
        assert offered[..i + 1][..i] == offered[..i];
        if (c.text, c.consumed) !in seen {
          seen := seen + {(c.text, c.consumed)};
          pending := pending + [c];
        }
      }
      assert offered[..|offered|] == offered;
      ghost var middle := pending;
      SortPending();
      assert NoneDropped(norm, middle, pending) by { SameMembers(norm, middle, pending, 0); }
      NoneDroppedTwice(norm, old(pending), middle, pending);
      if Chinese() && BucketsAre(published, old(pending)) { BucketsSupplement(old(pending), old(seen), offered, pending); }
    }

    lemma SupplementClean(offered: seq<Candidate>)
      requires Clean() && forall c :: c in offered ==> Offerable(c)
      ensures var r := Supplemented(pending, seen, offered); CleanAre(published, r.0, r.1, frontier, exhausted)
    {
      hide Unique, SeenCovers, NotTheKeys, InputsOk, Quiet;
      forall c | c in offered ensures norm(c.text) == c.text && HanOnly(c.text) && NotTheKeys(norm, published, pending, IdOf(norm, c)) {
        IndexTextIsNormal(c.text);
        HanIsNotTheKeys(c);
      }
      NormalSupplementUnique(norm, published, pending, seen, offered);
      SupplementedFrom(pending, seen, offered);
    }

    lemma IndexTextIsNormal(text: string)
      requires BoundTo() && FromIndex(matcher.entries, text)
      ensures norm(text) == text && HanOnly(text)
    {
      forall i | 0 <= i < |text| ensures IsHanCharacter(text[i]) {
        assert Occurs(matcher.entries, text[i]);
        var e :| e in matcher.entries && text[i] in e.text;
        assert HanOnly(e.text);
      }
    }

    lemma SupplementIsLexical(offered: seq<Candidate>)
      requires forall c :: c in offered ==> Offerable(c)
      ensures forall c :: c in Supplemented(pending, seen, offered).0 ==> c in pending || c.kind != Neural
    {
      hide Supplemented, FromIndex;
      SupplementedFrom(pending, seen, offered);
    }

    lemma SupplementDropsNone(offered: seq<Candidate>)
      ensures NoneDropped(norm, pending, Supplemented(pending, seen, offered).0)
    {
      hide Supplemented;
      assert pending <= Supplemented(pending, seen, offered).0;
    }

    // Expanding one path.

    /** The candidate a finished path shows. */
    function CandidateAt(p: HanPath): Candidate {
      Candidate(p.text, p.pinyin, RawPosition(inputs.raw, p.matched), p.matched == |inputs.compact|, p.predicted,
                Han, Neural, p.tokenPath, p.score, 0)
    }

    /** What c is when the token finishes the edge from the path: text, syllables and tokens of the path
        and then of the edge, the sum of their scores; and its consumed keys are those that hold the
        matched letters and the apostrophes behind them. */
    ghost predicate SpeltOut(p: HanPath, token: int, score: real, e: Edge, c: Candidate) {
      && c.text == p.text + e.text && c.pinyin == p.pinyin + e.syllables && c.tokenPath == p.tokenPath + [token]
      && c.score == p.score + score && c.predicted == e.predicted && c.tier == 0 && c.script == Han && c.kind == Neural
      && ConsumedOk(Typed(), c.consumed, c.completes) && |Letters(inputs.raw[..c.consumed])| == e.matched
    }

    lemma FinishedSpells(p: HanPath, token: int, score: real, e: Edge)
      requires KeysParse(inputs) && e.matched <= |inputs.compact|
      ensures SpeltOut(p, token, score, e, CandidateAt(Extended(p, token, score, e)))
    {
      RawPositionExactly(inputs.raw, e.matched, RawPosition(inputs.raw, e.matched));
    }

    lemma EdgeIsInside(p: HanPath, e: Edge)
      requires PathOk(Typed(), p) && EdgeOf(Typed(), p, e)
      ensures e.matched <= |inputs.compact|
    {}

    /** A new candidate finishes one of these edges. */
    ghost predicate SpellsOne(p: HanPath, token: int, score: real, edges: seq<Edge>, c: Candidate) {
      exists e :: e in edges && SpeltOut(p, token, score, e, c)
    }

    lemma FromEdgesSpells(p: HanPath, token: int, score: real, edges: seq<Edge>, c: Candidate)
      requires KeysParse(inputs) && PathOk(Typed(), p) && forall e :: e in edges ==> EdgeOf(Typed(), p, e)
      requires FromEdges(p, token, score, edges, c)
      ensures SpellsOne(p, token, score, edges, c)
    {
      hide Finishes, CandidateAt, Extended, SpeltOut, PathOk, EdgeOf;
      var e :| e in edges && Finishes(p, e) && c == CandidateAt(Extended(p, token, score, e));
      EdgeIsInside(p, e);
      FinishedSpells(p, token, score, e);
    }

    /** A finished path is shown or known, and goes on if it may. */
    ghost predicate TakenUp(p: HanPath, seen: set<Identity>, frontier: seq<Item>) {
      IdOf(norm, CandidateAt(p)) in seen && (GoesOn(p) ==> Search(p) in frontier)
    }

    /** No edge of a scored token is forgotten: it is finished, waits in a fragment, or is too long. */
    ghost predicate Accounted(p: HanPath, token: int, score: real, e: Edge, seen: set<Identity>, frontier: seq<Item>) {
      && (Finishes(p, e) ==> TakenUp(Extended(p, token, score, e), seen, frontier))
      && (StaysInside(p, e) ==> exists options :: e in options && Search(Fragment(p, token, score, options)) in frontier)
    }

    /** A candidate that finishes one of these edges. */
    ghost predicate FromEdges(p: HanPath, token: int, score: real, edges: seq<Edge>, c: Candidate) {
      exists e :: e in edges && Finishes(p, e) && c == CandidateAt(Extended(p, token, score, e))
    }

    lemma AccountedStays(p: HanPath, token: int, score: real, e: Edge, seen: set<Identity>, frontier: seq<Item>, seen': set<Identity>, frontier': seq<Item>)
      requires Accounted(p, token, score, e, seen, frontier) && seen <= seen' && forall x :: x in frontier ==> x in frontier'
      ensures Accounted(p, token, score, e, seen', frontier')
    {
      hide Finishes, StaysInside, GoesOn, CandidateAt, Extended, Fragment;
      if StaysInside(p, e) {
        var options :| e in options && Search(Fragment(p, token, score, options)) in frontier;
        assert Search(Fragment(p, token, score, options)) in frontier';
      }
    }

    /** One edge of a scored token: still inside its entry, or a finished candidate and path. */
    method ExpandEdge(p: HanPath, token: int, score: real, e: Edge) returns (incomplete: bool, done: nat)
      requires PathOk(Typed(), p) && EdgeOf(Typed(), p, e) && Under(p, token, e) && PathAtLeast(p, reached)
      modifies this`pending, this`frontier, this`seen
      ensures Gathered(norm, old(pending), pending, reached) && Grown(Typed(), old(frontier), frontier, reached)
      ensures old(Clean()) ==> Clean()
      ensures incomplete == StaysInside(p, e) && old(seen) <= seen && forall x :: x in old(frontier) ==> x in frontier
      ensures Finishes(p, e) ==> TakenUp(Extended(p, token, score, e), seen, frontier)
      ensures forall x :: x in frontier ==> x in old(frontier) || (x.Search? && Finishes(p, e) && x.path == Extended(p, token, score, e))
      ensures forall c :: c in pending ==> c in old(pending) || FromEdges(p, token, score, [e], c)
      ensures !Finishes(p, e) ==> done == 0 && unchanged(this)
      ensures NewlyShown(old(seen), seen, pending)
      ensures KeysParse(inputs) ==> forall c :: c in pending ==> c in old(pending) || SpeltOut(p, token, score, e, c)
    {
      hide CleanAre, LiteralShown, NewlyShown, SpeltOut, KeysParse, PathOk, EdgeOf, Under, ItemOk, AtLeast, PathAtLeast, NoneDropped;
      Unmoved(norm, pending, reached);
      EdgeIsInside(p, e);
      if KeysParse(inputs) { FinishedSpells(p, token, score, e); }
      EdgeAtLeast(Typed(), p, e, reached);
      if Finishes(p, e) { FinishedOk(p, token, score, e); }
      NothingNew(seen, pending);
      done := 0;
      if |p.tokenPath| + 1 > MAX_MODEL_TOKENS { return false, 0; }
      if Inside(p) + 1 < |e.tokenPath| { return true, 0; }
      incomplete := false;
      var next := Extended(p, token, score, e);
      if |next.text| > MAX_HAN_CHARACTERS { return; }
      var c := CandidateAt(next);
      ghost var before := pending;
      var added := AddHan(c);
      AddedHan(before, pending, c, added);
      assert FromEdges(p, token, score, [e], c) by { assert e in [e]; }
      done := if added then 1 else 0;
      if |next.tokenPath| < MAX_MODEL_TOKENS && |next.text| < MAX_HAN_CHARACTERS {
        if Clean() { FrontierMoves(frontier, frontier + [Search(next)]); }
        frontier := frontier + [Search(next)];
        done := done + 1;
      }
    }

    /** All edges of one token; the unfinished ones share one new fragment path. */
    method ExpandToken(p: HanPath, token: int, score: real, edges: seq<Edge>) returns (done: nat)
      requires PathOk(Typed(), p) && (forall e :: e in edges ==> EdgeOf(Typed(), p, e) && Under(p, token, e)) && PathAtLeast(p, reached)
      modifies this`pending, this`frontier, this`seen
      ensures Gathered(norm, old(pending), pending, reached) && Grown(Typed(), old(frontier), frontier, reached)
      ensures old(Clean()) ==> Clean()
      ensures old(seen) <= seen && forall x :: x in old(frontier) ==> x in frontier
      ensures forall e :: e in edges ==> Accounted(p, token, score, e, seen, frontier)
      ensures forall x :: x in frontier ==> x in old(frontier) || (x.Search? && TokenStep(p, token, score, edges, x.path))
      ensures forall x :: x in frontier ==> x in old(frontier) || (x.Search? && Further(p, token, score, x.path))
      ensures forall c :: c in pending ==> c in old(pending) || FromEdges(p, token, score, edges, c)
      ensures NewlyShown(old(seen), seen, pending)
      ensures KeysParse(inputs) ==> forall c :: c in pending ==> c in old(pending) || SpellsOne(p, token, score, edges, c)
    {
      hide CleanAre, CandidateAt, Finishes, StaysInside, Extended, Fragment, GoesOn, EdgeOf, PathOk, PathAtLeast, NoneDropped, TokenStep,
           NewlyShown, Further;
      Unmoved(norm, pending, reached);
      NothingNew(seen, pending);
      var incomplete: seq<Edge> := [];
      done := 0;
      for n := 0 to |edges|
        invariant Gathered(norm, old(pending), pending, reached) && Grown(Typed(), old(frontier), frontier, reached)
        invariant old(Clean()) ==> Clean()
        invariant old(seen) <= seen && forall x :: x in old(frontier) ==> x in frontier
        invariant forall e :: e in incomplete ==> e in edges && StaysInside(p, e)
        invariant forall x :: x in frontier ==> x in old(frontier) || (x.Search? && TokenStep(p, token, score, edges, x.path))
        invariant NewlyShown(old(seen), seen, pending)
        invariant forall k :: 0 <= k < n ==> EdgeDone(p, token, score, edges[k], incomplete, seen, frontier)
        invariant forall c :: c in pending ==> c in old(pending) || FromEdges(p, token, score, edges, c)
      {
        assert edges[n] in edges;
        ghost var was, before, queue, known := incomplete, pending, frontier, seen;
        var more, steps := ExpandEdge(p, token, score, edges[n]);
        GatheredTwice(norm, old(pending), before, pending, reached);
        NewlyShownTwice(old(seen), known, before, seen, pending);
        OneEdge(p, token, score, edges, n);
        if Finishes(p, edges[n]) { EdgeSteps(p, token, score, edges, edges[n]); }
        if more { incomplete := incomplete + [edges[n]]; }
        forall k | 0 <= k < n ensures EdgeDone(p, token, score, edges[k], incomplete, seen, frontier) {
          EdgeStaysDone(p, token, score, edges[k], was, known, queue, incomplete, seen, frontier);
        }
        done := done + steps;
      }
      ghost var queue := frontier;
      if incomplete != [] {
        FragmentOk(p, token, score, incomplete);
        FragmentSteps(p, token, score, edges, incomplete);
        if Clean() { FrontierMoves(frontier, frontier + [Search(Fragment(p, token, score, incomplete))]); }
        frontier := frontier + [Search(Fragment(p, token, score, incomplete))];
        done := done + 1;
      }
      forall e | e in edges ensures Accounted(p, token, score, e, seen, frontier) {
        var k :| 0 <= k < |edges| && edges[k] == e;
        EdgeStaysDone(p, token, score, e, incomplete, seen, queue, incomplete, seen, frontier);
        if StaysInside(p, e) { assert Search(Fragment(p, token, score, incomplete)) in frontier; }
      }
      NewOnesSpell(p, token, score, edges, old(pending), pending);
      StepsAreFurther(p, token, score, edges);
    }

    /** What the token does to a path: it and its score are added, and while it finishes no entry nothing
        else of the path changes. */
    predicate Further(p: HanPath, token: int, score: real, q: HanPath) {
      && q.tokenPath == p.tokenPath + [token] && q.score == p.score + score && p.text <= q.text && p.pinyin <= q.pinyin
      && (q.options != [] ==> q.text == p.text && q.pinyin == p.pinyin && q.matched == p.matched && q.predicted == p.predicted)
    }

    lemma StepsAreFurther(p: HanPath, token: int, score: real, edges: seq<Edge>)
      ensures forall q :: TokenStep(p, token, score, edges, q) ==> Further(p, token, score, q)
    {}

    lemma NewOnesSpell(p: HanPath, token: int, score: real, edges: seq<Edge>, before: seq<Candidate>, after: seq<Candidate>)
      requires PathOk(Typed(), p) && forall e :: e in edges ==> EdgeOf(Typed(), p, e)
      requires forall c :: c in after ==> c in before || FromEdges(p, token, score, edges, c)
      ensures KeysParse(inputs) ==> forall c :: c in after ==> c in before || SpellsOne(p, token, score, edges, c)
    {
      hide PathOk, EdgeOf, FromEdges, SpellsOne, KeysParse;
      if KeysParse(inputs) {
        forall c | c in after && c !in before ensures SpellsOne(p, token, score, edges, c) { FromEdgesSpells(p, token, score, edges, c); }
      }
    }

    /** An edge met so far: taken up, or among the unfinished ones. */
    ghost predicate EdgeDone(p: HanPath, token: int, score: real, e: Edge, incomplete: seq<Edge>, seen: set<Identity>, frontier: seq<Item>) {
      && (Finishes(p, e) ==> TakenUp(Extended(p, token, score, e), seen, frontier))
      && (StaysInside(p, e) ==> e in incomplete)
    }

    lemma EdgeStaysDone(p: HanPath, token: int, score: real, e: Edge, incomplete: seq<Edge>, seen: set<Identity>, frontier: seq<Item>,
                        incomplete': seq<Edge>, seen': set<Identity>, frontier': seq<Item>)
      requires EdgeDone(p, token, score, e, incomplete, seen, frontier) && seen <= seen' && forall x :: x in frontier ==> x in frontier'
      requires forall x :: x in incomplete ==> x in incomplete'
      ensures EdgeDone(p, token, score, e, incomplete', seen', frontier')
    {
      hide Finishes, StaysInside, GoesOn, CandidateAt, Extended;
    }

    /** A path one scored token further: by an edge that it finishes, or inside unfinished ones. */
    ghost predicate TokenStep(p: HanPath, token: int, score: real, edges: seq<Edge>, q: HanPath) {
      || (exists e :: e in edges && Finishes(p, e) && q == Extended(p, token, score, e))
      || (exists options :: options != [] && (forall o :: o in options ==> o in edges && StaysInside(p, o)) && q == Fragment(p, token, score, options))
    }

    lemma EdgeSteps(p: HanPath, token: int, score: real, edges: seq<Edge>, e: Edge)
      requires e in edges && Finishes(p, e)
      ensures TokenStep(p, token, score, edges, Extended(p, token, score, e))
    {
      hide Finishes, Extended;
    }

    lemma FragmentSteps(p: HanPath, token: int, score: real, edges: seq<Edge>, options: seq<Edge>)
      requires options != [] && forall e :: e in options ==> e in edges && StaysInside(p, e)
      ensures TokenStep(p, token, score, edges, Fragment(p, token, score, options))
    {
      hide Fragment, StaysInside;
    }

    lemma OneEdge(p: HanPath, token: int, score: real, edges: seq<Edge>, n: nat)
      requires n < |edges|
      ensures forall c :: FromEdges(p, token, score, [edges[n]], c) ==> FromEdges(p, token, score, edges, c)
    {
      hide Finishes, CandidateAt, Extended;
      forall c | FromEdges(p, token, score, [edges[n]], c) ensures FromEdges(p, token, score, edges, c) {
        assert edges[n] in edges;
      }
    }

    lemma FragmentOk(p: HanPath, token: int, score: real, options: seq<Edge>)
      requires PathOk(Typed(), p) && PathAtLeast(p, reached) && options != []
      requires forall e :: e in options ==> EdgeOf(Typed(), p, e) && Under(p, token, e) && StaysInside(p, e)
      ensures ItemOk(Typed(), Search(Fragment(p, token, score, options))) && AtLeast(Search(Fragment(p, token, score, options)), reached)
    {
      FragmentPathOk(Typed(), p, token, score, options, reached);
    }

    lemma FinishedOk(p: HanPath, token: int, score: real, e: Edge)
      requires PathOk(Typed(), p) && PathAtLeast(p, reached) && EdgeOf(Typed(), p, e) && Under(p, token, e) && Finishes(p, e)
      ensures ItemOk(Typed(), Search(Extended(p, token, score, e))) && AtLeast(Search(Extended(p, token, score, e)), reached)
      ensures HanOnly(Extended(p, token, score, e).text)
    {
      ExtendedPathOk(Typed(), p, token, score, e, reached);
    }

    /** All edges of the i-th scored position are accounted for. */
    ghost predicate PositionDone(x: Item, i: nat, seen: set<Identity>, frontier: seq<Item>)
      requires x.Resume? && ResumeOk(Typed(), x) && i < |x.positions|
    {
      assert x.positions[i] in x.positions;
      var token := x.tokens[x.positions[i]];
      forall e :: e in x.edges[token] ==> Accounted(x.path, token, x.values[x.positions[i]].value, e, seen, frontier)
    }

    lemma PositionStaysDone(x: Item, i: nat, seen: set<Identity>, frontier: seq<Item>, seen': set<Identity>, frontier': seq<Item>)
      requires x.Resume? && ResumeOk(Typed(), x) && i < |x.positions| && PositionDone(x, i, seen, frontier)
      requires seen <= seen' && forall y :: y in frontier ==> y in frontier'
      ensures PositionDone(x, i, seen', frontier')
    {
      hide Accounted;
      assert x.positions[i] in x.positions;
      var token := x.tokens[x.positions[i]];
      forall e | e in x.edges[token] ensures Accounted(x.path, token, x.values[x.positions[i]].value, e, seen', frontier') {
        AccountedStays(x.path, token, x.values[x.positions[i]].value, e, seen, frontier, seen', frontier');
      }
    }

    /** A slice from the cursor on is done, and what is left of the positions waits on the frontier. */
    ghost predicate SliceDone(x: Item, next: nat, seen: set<Identity>, frontier: seq<Item>)
      requires x.Resume? && ResumeOk(Typed(), x)
    {
      && x.cursor <= next <= |x.positions| && next <= x.cursor + MAX_FRONTIER_PER_BUCKET
      && (x.cursor < |x.positions| ==> x.cursor < next)
      && (forall i :: x.cursor <= i < next ==> PositionDone(x, i, seen, frontier))
      && (next < |x.positions| ==> x.(cursor := next) in frontier)
    }

    /** What the i-th scored position of a parent puts on the frontier, and what it shows. */
    ghost predicate PositionSteps(x: Item, i: nat, q: HanPath)
      requires x.Resume? && ResumeOk(Typed(), x) && i < |x.positions|
    {
      assert x.positions[i] in x.positions;
      var token := x.tokens[x.positions[i]];
      TokenStep(x.path, token, x.values[x.positions[i]].value, x.edges[token], q)
    }

    ghost predicate PositionShows(x: Item, i: nat, c: Candidate)
      requires x.Resume? && ResumeOk(Typed(), x) && i < |x.positions|
    {
      assert x.positions[i] in x.positions;
      var token := x.tokens[x.positions[i]];
      FromEdges(x.path, token, x.values[x.positions[i]].value, x.edges[token], c)
    }

    ghost predicate StepsSomewhere(x: Item, q: HanPath)
      requires x.Resume? && ResumeOk(Typed(), x)
    {
      exists i: nat :: i < |x.positions| && PositionSteps(x, i, q)
    }

    ghost predicate ShowsSomewhere(x: Item, c: Candidate)
      requires x.Resume? && ResumeOk(Typed(), x)
    {
      exists i: nat :: i < |x.positions| && PositionShows(x, i, c)
    }

    /** A position of the slice has a token that finishes an edge into c. */
    ghost predicate SpelledBetween(x: Item, start: nat, end: nat, c: Candidate)
      requires x.Resume? && ResumeOk(Typed(), x)
    {
      exists i :: start <= i < end && i < |x.positions| && SpelledAt(x, i, c)
    }

    ghost predicate SpelledAt(x: Item, i: nat, c: Candidate)
      requires x.Resume? && ResumeOk(Typed(), x) && i < |x.positions|
    {
      assert x.positions[i] in x.positions;
      var token := x.tokens[x.positions[i]];
      SpellsOne(x.path, token, x.values[x.positions[i]].value, x.edges[token], c)
    }

    /** A position of the work has a token that q is further by. */
    ghost predicate FurtherSomewhere(x: Item, q: HanPath)
      requires x.Resume? && ResumeOk(Typed(), x)
    {
      exists i: nat :: i < |x.positions| && x.positions[i] in x.positions && IsFinite(x.values, x.positions[i])
                       && Further(x.path, x.tokens[x.positions[i]], x.values[x.positions[i]].value, q)
    }

    lemma SliceIsFurther(x: Item)
      requires x.Resume? && ResumeOk(Typed(), x)
      ensures forall q :: StepsSomewhere(x, q) ==> FurtherSomewhere(x, q)
    {
      hide TokenStep, Further;
      forall q | StepsSomewhere(x, q) ensures FurtherSomewhere(x, q) {
        var i: nat :| i < |x.positions| && PositionSteps(x, i, q);
        assert x.positions[i] in x.positions;
        var token := x.tokens[x.positions[i]];
        StepsAreFurther(x.path, token, x.values[x.positions[i]].value, x.edges[token]);
      }
    }

    /** A slice brings nothing but what its positions lead to, and what is left of the work. */
    ghost predicate SliceBrings(x: Item, next: nat, was: seq<Item>, frontier: seq<Item>, waiting: seq<Candidate>, pending: seq<Candidate>)
      requires x.Resume? && ResumeOk(Typed(), x)
    {
      && (forall y :: y in frontier ==> y in was || (y.Search? && StepsSomewhere(x, y.path)) || (y == x.(cursor := next) && 0 < next < |x.positions|))
      && (forall c :: c in pending ==> c in waiting || ShowsSomewhere(x, c))
    }

    /** A bounded slice of a scored parent's tokens, best first; the rest is kept for later. */
    method ExpandHanConstrained(work: Item) returns (progressed: nat, ghost next: nat)
      requires work.Resume? && ItemOk(Typed(), work) && AtLeast(work, reached)
      modifies this`pending, this`frontier, this`seen
      ensures Gathered(norm, old(pending), pending, reached) && Grown(Typed(), old(frontier), frontier, reached)
      ensures old(Clean()) ==> Clean()
      ensures old(seen) <= seen && forall x :: x in old(frontier) ==> x in frontier
      ensures SliceDone(work, next, seen, frontier)
      ensures SliceBrings(work, next, old(frontier), frontier, old(pending), pending) && NewlyShown(old(seen), seen, pending)
      ensures KeysParse(inputs) ==> forall c :: c in pending ==> c in old(pending) || SpelledBetween(work, work.cursor, next, c)
      ensures forall x :: x in frontier && x.Search? ==> x in old(frontier) || FurtherSomewhere(work, x.path)
      ensures progressed == 0 <==> work.cursor == |work.positions|
    {
      hide PathOk, PathAtLeast, CleanAre, NoneDropped, Accounted, FromEdges, PositionDone, PositionSteps, PositionShows, TokenStep, NewlyShown,
           SpelledBetween, SpellsOne, KeysParse, Further, FurtherSomewhere;
      SliceIsFurther(work);
      var p := work.path;
      Unmoved(norm, pending, reached);
      NothingNew(seen, pending);
      var cursor, slice, done := work.cursor, 0, 0;
      while cursor < |work.positions|
        invariant work.cursor <= cursor <= |work.positions| && slice == cursor - work.cursor < MAX_FRONTIER_PER_BUCKET
        invariant done >= 0 && (slice == 0 ==> done == 0)
        invariant Gathered(norm, old(pending), pending, reached) && Grown(Typed(), old(frontier), frontier, reached)
        invariant old(Clean()) ==> Clean()
        invariant old(seen) <= seen && forall x :: x in old(frontier) ==> x in frontier
        invariant forall x :: x in frontier ==> x in old(frontier) || (x.Search? && StepsSomewhere(work, x.path))
        invariant forall c :: c in pending ==> c in old(pending) || ShowsSomewhere(work, c)
        invariant KeysParse(inputs) ==> forall c :: c in pending ==> c in old(pending) || SpelledBetween(work, work.cursor, cursor, c)
        invariant NewlyShown(old(seen), seen, pending)
        invariant forall i :: work.cursor <= i < cursor ==> PositionDone(work, i, seen, frontier)
      {
        ghost var before, queue, known := pending, frontier, seen;
        var position := work.positions[cursor];
        assert position in work.positions;
        var token := work.tokens[position];
        var steps := ExpandToken(p, token, work.values[position].value, work.edges[token]);
        ThisPositionBrings(work, cursor);
        ThisPositionSpells(work, cursor);
        GatheredTwice(norm, old(pending), before, pending, reached);
        NewlyShownTwice(old(seen), known, before, seen, pending);
        forall i | work.cursor <= i < cursor ensures PositionDone(work, i, seen, frontier) {
          PositionStaysDone(work, i, known, queue, seen, frontier);
        }
        assert PositionDone(work, cursor, seen, frontier) by { ThisPositionDone(work, cursor, seen, frontier); }
        cursor, slice, done := cursor + 1, slice + 1, done + steps;
        var timeUp: bool := *;
        if slice >= MAX_FRONTIER_PER_BUCKET || timeUp { break; }
      }
      ghost var queue := frontier;
      if cursor < |work.positions| {
        if Clean() { FrontierMoves(frontier, frontier + [work.(cursor := cursor)]); }
        frontier := frontier + [work.(cursor := cursor)];
      }
      forall i | work.cursor <= i < cursor ensures PositionDone(work, i, seen, frontier) {
        PositionStaysDone(work, i, seen, queue, seen, frontier);
      }
      next := cursor;
      progressed := if done > slice then done else slice;
    }

    lemma ThisPositionBrings(x: Item, i: nat)
      requires x.Resume? && ResumeOk(Typed(), x) && i < |x.positions| && x.positions[i] in x.positions
      ensures var token := x.tokens[x.positions[i]];
              && (forall q :: TokenStep(x.path, token, x.values[x.positions[i]].value, x.edges[token], q) ==> StepsSomewhere(x, q))
              && (forall c :: FromEdges(x.path, token, x.values[x.positions[i]].value, x.edges[token], c) ==> ShowsSomewhere(x, c))
    {
      hide TokenStep, FromEdges;
      var token := x.tokens[x.positions[i]];
      forall q | TokenStep(x.path, token, x.values[x.positions[i]].value, x.edges[token], q) ensures StepsSomewhere(x, q) {
        assert PositionSteps(x, i, q);
      }
      forall c | FromEdges(x.path, token, x.values[x.positions[i]].value, x.edges[token], c) ensures ShowsSomewhere(x, c) {
        assert PositionShows(x, i, c);
      }
    }

    lemma ThisPositionSpells(x: Item, i: nat)
      requires x.Resume? && ResumeOk(Typed(), x) && x.cursor <= i < |x.positions| && x.positions[i] in x.positions
      ensures forall c :: SpelledBetween(x, x.cursor, i, c) ==> SpelledBetween(x, x.cursor, i + 1, c)
      ensures var token := x.tokens[x.positions[i]];
              forall c :: SpellsOne(x.path, token, x.values[x.positions[i]].value, x.edges[token], c) ==> SpelledBetween(x, x.cursor, i + 1, c)
    {
      hide SpellsOne;
      forall c | SpelledBetween(x, x.cursor, i, c) ensures SpelledBetween(x, x.cursor, i + 1, c) {
        var j :| x.cursor <= j < i && SpelledAt(x, j, c);
      }
      var token := x.tokens[x.positions[i]];
      forall c | SpellsOne(x.path, token, x.values[x.positions[i]].value, x.edges[token], c) ensures SpelledBetween(x, x.cursor, i + 1, c) {
        assert SpelledAt(x, i, c);
      }
    }

    lemma OneLeft(x: Item, next: nat, was: seq<Item>, frontier: seq<Item>, waiting: seq<Candidate>, pending: seq<Candidate>)
      requires x.Resume? && ResumeOk(Typed(), x) && SliceBrings(x, next, was, frontier, waiting, pending) && NoRemainder(was)
      ensures LoneRemainder(frontier)
    {
      hide ResumeOk, StepsSomewhere, ShowsSomewhere;
    }

    lemma FewerBrought(x: Item, next: nat, was: seq<Item>, queue: seq<Item>, frontier: seq<Item>, waiting: seq<Candidate>, pending: seq<Candidate>)
      requires x.Resume? && ResumeOk(Typed(), x) && SliceBrings(x, next, was, queue, waiting, pending) && forall y :: y in frontier ==> y in queue
      ensures SliceBrings(x, next, was, frontier, waiting, pending)
    {
      hide ResumeOk, StepsSomewhere, ShowsSomewhere;
    }

    /** Whatever a position brings is what its path leads to. */
    lemma SomewhereLeads(x: Item)
      requires x.Resume? && ResumeOk(Typed(), x)
      ensures forall q :: StepsSomewhere(x, q) ==> StepsTo(x.path, q)
      ensures forall c :: ShowsSomewhere(x, c) ==> ShownBy(x.path, c)
    {
      hide EdgeOf, Finishes, CandidateAt, Extended, Fragment;
      forall q | StepsSomewhere(x, q) ensures StepsTo(x.path, q) {
        var i: nat :| i < |x.positions| && PositionSteps(x, i, q);
        assert x.positions[i] in x.positions;
        assert forall e :: e in x.edges[x.tokens[x.positions[i]]] ==> EdgeOf(Typed(), x.path, e) && Under(x.path, x.tokens[x.positions[i]], e);
      }
      forall c | ShowsSomewhere(x, c) ensures ShownBy(x.path, c) {
        var i: nat :| i < |x.positions| && PositionShows(x, i, c);
        assert x.positions[i] in x.positions;
        assert forall e :: e in x.edges[x.tokens[x.positions[i]]] ==> EdgeOf(Typed(), x.path, e) && Under(x.path, x.tokens[x.positions[i]], e);
      }
    }

    lemma ThisPositionDone(x: Item, i: nat, seen: set<Identity>, frontier: seq<Item>)
      requires x.Resume? && ResumeOk(Typed(), x) && i < |x.positions| && x.positions[i] in x.positions
      requires var token := x.tokens[x.positions[i]];
               forall e :: e in x.edges[token] ==> Accounted(x.path, token, x.values[x.positions[i]].value, e, seen, frontier)
      ensures PositionDone(x, i, seen, frontier)
    {}

    // The legal next tokens of a path.

    function QueryFrom(p: HanPath): Query {
      Query(inputs.compact, p.matched, inputs.boundaries, false, true)
    }

    /** A match the path may go on with, and the edge it makes. */
    predicate Continues(p: HanPath, m: Match) {
      && m.nextPosition > p.matched && m.entry.tokenPath != [] && |p.tokenPath| + |m.entry.tokenPath| <= MAX_MODEL_TOKENS
      && |m.entry.text| <= MAX_HAN_CHARACTERS
    }

    function EdgeBy(p: HanPath, m: Match): Edge {
      Edge(m.entry.text, m.entry.tokenPath, m.entry.syllablePath, m.nextPosition,
           p.predicted + if m.nextPosition == |inputs.compact| then m.completionSyllables else 0)
    }

    function FreeEdge(p: HanPath, x: Entry): Edge {
      Edge(x.text, x.tokenPath, x.syllablePath, |inputs.compact|, p.predicted + |x.syllablePath|)
    }

    /** What may follow a path: what is left of its options; while letters are left, the best
        match of each entry at its position; any entry once the input is spent. */
    ghost predicate LegalEdge(p: HanPath, e: Edge) {
      if p.options != [] then e in p.options else Goes(Typed(), p.matched, p.predicted, |p.tokenPath|, e)
    }

    lemma GoesAsMatched(p: HanPath, e: Edge)
      requires p.options == []
      ensures p.matched < |inputs.compact| ==>
                (LegalEdge(p, e) <==> exists m: Match :: m.entry in matcher.entries && IsBest(QueryFrom(p), m.entry, m) && Continues(p, m) && e == EdgeBy(p, m))
      ensures p.matched >= |inputs.compact| ==> (LegalEdge(p, e) <==> exists x :: x in inputs.freeEntries && e == FreeEdge(p, x))
    {
      hide IsBest;
      if p.matched < |inputs.compact| {
        forall m: Match ensures GoesBy(Typed(), p.matched, p.predicted, |p.tokenPath|, m, e) <==>
                                m.entry in matcher.entries && IsBest(QueryFrom(p), m.entry, m) && Continues(p, m) && e == EdgeBy(p, m) {}
      }
    }

    function TokenIndex(p: HanPath): nat {
      if p.options != [] && p.pendingStart <= |p.tokenPath| then |p.tokenPath| - p.pendingStart else 0
    }

    ghost predicate LegalUnder(p: HanPath, token: int, e: Edge) {
      LegalEdge(p, e) && TokenIndex(p) < |e.tokenPath| && e.tokenPath[TokenIndex(p)] == token
    }

    /** Exactly the legal edges, each under its next token; those tokens in ascending order. */
    method HanEdgesFor(p: HanPath) returns (grouped: map<int, seq<Edge>>, tokens: seq<int>)
      requires matcher.Valid()
      ensures forall t, e :: Lists(grouped, t, e) <==> LegalUnder(p, t, e)
      ensures (forall t :: t in tokens <==> t in grouped) && forall i, j :: 0 <= i < j < |tokens| ==> tokens[i] < tokens[j]
      ensures forall t :: t in grouped ==> grouped[t] != []
    {
      hide IsBest, WellFormed, RowsHold;
      if p.options != [] {
        grouped, tokens := GroupEdges(p.options, TokenIndex(p));
        return;
      }
      var edges: seq<Edge> := [];
      if p.matched < |inputs.compact| {
        var matches, unsorted := matcher.NeuralMatches(QueryFrom(p), false);
        for n := 0 to |matches|
          invariant forall e :: e in edges <==> exists k :: 0 <= k < n && Continues(p, matches[k]) && e == EdgeBy(p, matches[k])
        {
          var m := matches[n];
          if Continues(p, m) { edges := edges + [EdgeBy(p, m)]; }
        }
        MatchedEdges(p, matches, edges);
      } else {
        for n := 0 to |inputs.freeEntries|
          invariant forall e :: e in edges <==> exists k :: 0 <= k < n && e == FreeEdge(p, inputs.freeEntries[k])
        {
          edges := edges + [FreeEdge(p, inputs.freeEntries[n])];
        }
        FreeEdges(p, edges);
      }
      grouped, tokens := GroupEdges(edges, 0);
    }

    lemma MatchedEdges(p: HanPath, matches: seq<Match>, edges: seq<Edge>)
      requires p.options == [] && p.matched < |inputs.compact| && IsEnumeration(QueryFrom(p), matcher.entries, matches)
      requires forall e :: e in edges <==> exists k :: 0 <= k < |matches| && Continues(p, matches[k]) && e == EdgeBy(p, matches[k])
      ensures forall e :: e in edges <==> LegalEdge(p, e)
    {
      hide Continues, EdgeBy, Derives, LegalEdge;
      forall e ensures e in edges <==> LegalEdge(p, e) {
        GoesAsMatched(p, e);
        if e in edges {
          var k :| 0 <= k < |matches| && Continues(p, matches[k]) && e == EdgeBy(p, matches[k]);
          assert matches[k].entry in matcher.entries && IsBest(QueryFrom(p), matches[k].entry, matches[k]);
        }
        if LegalEdge(p, e) {
          var m: Match :| m.entry in matcher.entries && IsBest(QueryFrom(p), m.entry, m) && Continues(p, m) && e == EdgeBy(p, m);
          var k :| 0 <= k < |matches| && matches[k].entry == m.entry;
          BestIsUnique(QueryFrom(p), m.entry, m, matches[k]);
        }
      }
    }

    lemma FreeEdges(p: HanPath, edges: seq<Edge>)
      requires p.options == [] && p.matched >= |inputs.compact|
      requires forall e :: e in edges <==> exists k :: 0 <= k < |inputs.freeEntries| && e == FreeEdge(p, inputs.freeEntries[k])
      ensures forall e :: e in edges <==> LegalEdge(p, e)
    {
      forall e ensures e in edges <==> LegalEdge(p, e) {
        GoesAsMatched(p, e);
        if LegalEdge(p, e) {
          var x :| x in inputs.freeEntries && e == FreeEdge(p, x);
          var k :| 0 <= k < |inputs.freeEntries| && inputs.freeEntries[k] == x;
        }
      }
    }

    lemma LegalIsEdge(p: HanPath, e: Edge)
      requires BoundTo() && LegalEdge(p, e)
      ensures EdgeOf(Typed(), p, e)
    {
      hide IsBest, WellFormed, RowsHold, Continues;
      if p.options == [] { GoesAsMatched(p, e); }
      if p.options == [] && p.matched < |inputs.compact| {
        var m: Match :| m.entry in matcher.entries && IsBest(QueryFrom(p), m.entry, m) && Continues(p, m) && e == EdgeBy(p, m);
        BestStaysInside(QueryFrom(p), m.entry, m);
      }
    }

    /** Edges by their token at one index, and those tokens in ascending order. */
    method GroupEdges(edges: seq<Edge>, index: nat) returns (grouped: map<int, seq<Edge>>, tokens: seq<int>)
      ensures forall t, e :: Lists(grouped, t, e) <==> e in edges && index < |e.tokenPath| && e.tokenPath[index] == t
      ensures (forall t :: t in tokens <==> t in grouped) && forall i, j :: 0 <= i < j < |tokens| ==> tokens[i] < tokens[j]
      ensures forall t :: t in grouped ==> grouped[t] != []
    {
      grouped, tokens := map[], [];
      for n := 0 to |edges|
        invariant forall t, e :: Lists(grouped, t, e) <==> e in edges[..n] && index < |e.tokenPath| && e.tokenPath[index] == t
        invariant forall t :: t in tokens <==> t in grouped
        invariant forall i, j :: 0 <= i < j < |tokens| ==> tokens[i] != tokens[j]
        invariant forall t :: t in grouped ==> grouped[t] != []
      {
        assert edges[..n + 1] == edges[..n] + [edges[n]];
        ghost var before := grouped;
        if index < |edges[n].tokenPath| {
          var token := edges[n].tokenPath[index];
          if token !in grouped {
            assert forall i :: 0 <= i < |tokens| ==> tokens[i] in tokens;
            tokens := tokens + [token];
          }
          grouped := grouped[token := (if token in grouped then grouped[token] else []) + [edges[n]]];
          assert forall t, e :: Lists(grouped, t, e) <==> Lists(before, t, e) || (t == token && e == edges[n]);
        }
      }
      assert edges[..|edges|] == edges;
      var ascending := (a: int, b: int) => a <= b;
      StableSortOrders(ascending, tokens);
      tokens := StableSort(ascending, tokens);
    }

    // Deferred roots.

    function MatchedLetters(consumed: nat): nat {
      var letters := |Letters(inputs.raw[..if consumed < |inputs.raw| then consumed else |inputs.raw|])|;
      if letters < |inputs.compact| then letters else |inputs.compact|
    }

    static function RootSyllables(r: R.Root): seq<string> {
      Syllables(r.entry.pinyin)
    }

    /** A one-token root as a path of its own, a longer one as an option of its first token. */
    function OwnPath(r: R.Root): HanPath
      requires r.score.Some?
    {
      HanPath(r.entry.text, RootSyllables(r), [r.entry.tokenId], r.score.value, r.entry.predicted, MatchedLetters(r.entry.consumed), [], 0)
    }

    function OptionOf(r: R.Root): Edge {
      Edge(r.entry.text, r.entry.tokenPath, RootSyllables(r), MatchedLetters(r.entry.consumed), r.entry.predicted)
    }

    predicate Longish(r: R.Root) {
      r.score.Some? && |r.entry.tokenPath| > 1
    }

    predicate Single(r: R.Root) {
      r.score.Some? && |r.entry.tokenPath| <= 1
    }

    function OwnKey(r: R.Root): PathKey
      requires r.score.Some?
    {
      KeyOf(Search(OwnPath(r)))
    }

    /** The best root of each key among the one-token roots met so far. */
    ghost predicate BestOk(roots: seq<R.Root>, met: seq<PathKey>, best: map<PathKey, R.Root>) {
      && (forall k :: k in best <==> k in met) && (forall i, j :: 0 <= i < j < |met| ==> met[i] != met[j])
      && (forall k :: k in best ==> best[k] in roots && Single(best[k]) && OwnKey(best[k]) == k)
      && (forall r :: r in roots && Single(r) ==> BestKnows(best, r))
    }

    ghost predicate BestKnows(best: map<PathKey, R.Root>, r: R.Root)
      requires r.score.Some?
    {
      OwnKey(r) in best && inputs.seedRank(best[OwnKey(r)]) <= inputs.seedRank(r)
    }

    /** One fragment per first token of the longer roots met so far, with all their options. */
    ghost predicate GroupsOk(roots: seq<R.Root>, tokens: seq<int>, groups: map<int, HanPath>) {
      && (forall t :: t in groups <==> t in tokens)
      && (forall t :: t in groups ==> IsGroup(roots, t, groups[t]))
      && (forall r :: r in roots && Longish(r) ==> GroupKnows(groups, r))
    }

    ghost predicate GroupKnows(groups: map<int, HanPath>, r: R.Root) {
      r.entry.tokenId in groups && OptionOf(r) in groups[r.entry.tokenId].options
    }

    ghost predicate IsGroup(roots: seq<R.Root>, token: int, g: HanPath) {
      && g.tokenPath == [token] && g.text == "" && g.pinyin == [] && g.predicted == 0 && g.matched == 0 && g.options != [] && g.pendingStart == 0
      && ScoredBy(roots, token, g.score) && forall o :: o in g.options ==> IsOption(roots, token, o)
    }

    /** It is the score of a longer root that begins with the token. */
    ghost predicate ScoredBy(roots: seq<R.Root>, token: int, score: real) {
      exists r :: r in roots && Longish(r) && r.entry.tokenId == token && r.score.value == score
    }

    ghost predicate IsOption(roots: seq<R.Root>, token: int, o: Edge) {
      exists r :: r in roots && Longish(r) && r.entry.tokenId == token && o == OptionOf(r)
    }

    /** One root becomes a path of its own, or one more option of its first token. */
    method SeedRoot(r: R.Root, best: map<PathKey, R.Root>, met: seq<PathKey>, groups: map<int, HanPath>, tokens: seq<int>, ghost roots: seq<R.Root>)
      returns (best': map<PathKey, R.Root>, met': seq<PathKey>, groups': map<int, HanPath>, tokens': seq<int>)
      requires r.score.Some? && BestOk(roots, met, best) && GroupsOk(roots, tokens, groups)
      ensures BestOk(roots + [r], met', best') && GroupsOk(roots + [r], tokens', groups')
    {
      hide OwnKey, OptionOf;
      best', met', groups', tokens' := best, met, groups, tokens;
      MoreRoots(roots, r);
      if |r.entry.tokenPath| > 1 {
        var token := r.entry.tokenId;
        var options := if token in groups then groups[token].options else [];
        var group := HanPath("", [], [token], r.score.value, 0, 0, options + [OptionOf(r)], 0);
        groups' := groups[token := group];
        if token !in tokens { tokens' := tokens + [token]; }
        GroupGrows(roots, r, options, group);
        GroupsStay(roots, r, groups, groups', tokens, tokens');
        BestStays(roots, r, met, best);
      } else {
        var key := OwnKey(r);
        if key !in met { met' := met + [key]; }
        if key !in best || inputs.seedRank(r) < inputs.seedRank(best[key]) { best' := best[key := r]; }
        BestMoves(roots, r, met, best, met', best');
        GroupsSame(roots, r, groups, tokens);
      }
    }

    lemma MoreRoots(roots: seq<R.Root>, r: R.Root)
      ensures forall t, o :: IsOption(roots, t, o) ==> IsOption(roots + [r], t, o)
      ensures forall t, score :: ScoredBy(roots, t, score) ==> ScoredBy(roots + [r], t, score)
    {
      hide OptionOf;
      forall t, score | ScoredBy(roots, t, score) ensures ScoredBy(roots + [r], t, score) {
        var x :| x in roots && Longish(x) && x.entry.tokenId == t && x.score.value == score;
        assert x in roots + [r];
      }
      forall t, o | IsOption(roots, t, o) ensures IsOption(roots + [r], t, o) {
        var x :| x in roots && Longish(x) && x.entry.tokenId == t && o == OptionOf(x);
        assert x in roots + [r];
      }
    }

    lemma GroupGrows(roots: seq<R.Root>, r: R.Root, options: seq<Edge>, group: HanPath)
      requires Longish(r) && forall o :: o in options ==> IsOption(roots, r.entry.tokenId, o)
      requires group == HanPath("", [], [r.entry.tokenId], r.score.value, 0, 0, options + [OptionOf(r)], 0)
      ensures IsGroup(roots + [r], r.entry.tokenId, group)
    {
      hide OptionOf;
      MoreRoots(roots, r);
      assert r in roots + [r];
      assert IsOption(roots + [r], r.entry.tokenId, OptionOf(r)) && ScoredBy(roots + [r], r.entry.tokenId, r.score.value);
    }

    lemma GroupsStay(roots: seq<R.Root>, r: R.Root, groups: map<int, HanPath>, groups': map<int, HanPath>, tokens: seq<int>, tokens': seq<int>)
      requires GroupsOk(roots, tokens, groups) && Longish(r)
      requires r.entry.tokenId in groups' && IsGroup(roots + [r], r.entry.tokenId, groups'[r.entry.tokenId])
      requires groups' == groups[r.entry.tokenId := groups'[r.entry.tokenId]]
      requires groups'[r.entry.tokenId].options == (if r.entry.tokenId in groups then groups[r.entry.tokenId].options else []) + [OptionOf(r)]
      requires tokens' == if r.entry.tokenId in tokens then tokens else tokens + [r.entry.tokenId]
      ensures GroupsOk(roots + [r], tokens', groups')
    {
      hide OptionOf, IsOption;
      MoreRoots(roots, r);
      forall x | x in roots + [r] && Longish(x) ensures GroupKnows(groups', x) {
        if x in roots { assert GroupKnows(groups, x); }
      }
    }

    lemma GroupsSame(roots: seq<R.Root>, r: R.Root, groups: map<int, HanPath>, tokens: seq<int>)
      requires GroupsOk(roots, tokens, groups) && !Longish(r)
      ensures GroupsOk(roots + [r], tokens, groups)
    {
      hide OptionOf, IsOption;
      MoreRoots(roots, r);
    }

    lemma BestStays(roots: seq<R.Root>, r: R.Root, met: seq<PathKey>, best: map<PathKey, R.Root>)
      requires BestOk(roots, met, best) && !Single(r)
      ensures BestOk(roots + [r], met, best)
    {
      hide OwnKey;
    }

    lemma BestMoves(roots: seq<R.Root>, r: R.Root, met: seq<PathKey>, best: map<PathKey, R.Root>, met': seq<PathKey>, best': map<PathKey, R.Root>)
      requires BestOk(roots, met, best) && Single(r)
      requires var key := OwnKey(r);
               && met' == (if key in met then met else met + [key])
               && best' == if key !in best || inputs.seedRank(r) < inputs.seedRank(best[key]) then best[key := r] else best
      ensures BestOk(roots + [r], met', best')
    {
      hide OwnKey;
      forall x | x in roots + [r] && Single(x) ensures BestKnows(best', x) {
        if x in roots { assert BestKnows(best, x); }
      }
    }

    /** The one-token roots that are seeds: ascending by rank, one for each key, the best of it. */
    ghost predicate OwnSeeds(roots: seq<R.Root>, own: seq<R.Root>) {
      && (forall r :: r in own ==> r in roots && Single(r))
      && (forall i, j :: 0 <= i < j < |own| ==> inputs.seedRank(own[i]) <= inputs.seedRank(own[j]) && own[i] != own[j])
      && (forall r, x :: r in own && x in own && r != x ==> OwnKey(r) != OwnKey(x))
      && (forall r :: r in roots && Single(r) ==> exists x :: x in own && OwnKey(x) == OwnKey(r) && inputs.seedRank(x) <= inputs.seedRank(r))
    }

    /** Every longer root is an option of the fragment of its first token. */
    ghost predicate GroupSeeds(roots: seq<R.Root>, fragments: seq<HanPath>) {
      && (forall r :: r in roots && Longish(r) ==> exists p :: p in fragments && p.tokenPath == [r.entry.tokenId] && OptionOf(r) in p.options)
      && (forall p :: p in fragments ==> exists t :: IsGroup(roots, t, p))
    }

    function OwnPaths(own: seq<R.Root>): (r: seq<HanPath>)
      requires forall r :: r in own ==> r.score.Some?
      ensures |r| == |own| && forall i :: 0 <= i < |own| ==> r[i] == OwnPath(own[i])
      ensures forall p :: p in r <==> exists x :: x in own && p == OwnPath(x)
    {
      if own == [] then [] else
        assert own == [own[0]] + own[1..];
        [OwnPath(own[0])] + OwnPaths(own[1..])
    }

    /** Every root with a score is a seed, on its own under the best of its key, or as an option of
        its first token; and nothing else is. The seeds of their own come first, best first. */
    ghost predicate SeedsOf(roots: seq<R.Root>, records: seq<HanPath>) {
      exists own, fragments :: OwnSeeds(roots, own) && GroupSeeds(roots, fragments) && records == OwnPaths(own) + fragments
    }

    /** The search seeds of a plan: one path per distinct one-token root, best first, then one
        fragment per first token of the longer ones. */
    method SeedRecords(roots: seq<R.Root>) returns (records: seq<HanPath>)
      ensures SeedsOf(roots, records) && forall p :: p in records ==> SeedSays(roots, p)
    {
      hide BestOk, GroupsOk, SeedsOf, OwnSeeds, GroupSeeds;
      var best: map<PathKey, R.Root> := map[];
      var met: seq<PathKey> := [];
      var groups: map<int, HanPath> := map[];
      var tokens: seq<int> := [];
      NoSeeds();
      for n := 0 to |roots|
        invariant BestOk(roots[..n], met, best) && GroupsOk(roots[..n], tokens, groups)
      {
        assert roots[..n + 1] == roots[..n] + [roots[n]];
        if roots[n].score.Some? {
          best, met, groups, tokens := SeedRoot(roots[n], best, met, groups, tokens, roots[..n]);
        } else {
          BestStays(roots[..n], roots[n], met, best);
          GroupsSame(roots[..n], roots[n], groups, tokens);
        }
      }
      assert roots[..|roots|] == roots;
      SeedsKnown(roots, met, best, tokens, groups);
      var ordinary := seq(|met|, n requires 0 <= n < |met| => best[met[n]]);
      var own := SortedRoots(roots, met, best, ordinary);
      var fragments := seq(|tokens|, n requires 0 <= n < |tokens| => groups[tokens[n]]);
      AllGrouped(roots, tokens, groups, fragments);
      OwnScored(roots, own);
      records := OwnPaths(own) + fragments;
      AllSeeded(roots, own, fragments, records);
      SeedsSay(roots, records);
    }

    /** What a seed is: a root of one token with its text, syllables, letters and score; or the first token
        and the score of a longer root, with nothing matched yet. */
    ghost predicate SeedSays(roots: seq<R.Root>, p: HanPath) {
      exists r :: r in roots && r.score == Some(p.score) && p.tokenPath == [r.entry.tokenId]
                  && if |r.entry.tokenPath| <= 1
                     then p.text == r.entry.text && p.pinyin == Syllables(r.entry.pinyin) && p.predicted == r.entry.predicted
                          && p.matched == MatchedLetters(r.entry.consumed) && p.options == []
                     else p.text == "" && p.pinyin == [] && p.matched == 0 && p.predicted == 0 && p.options != []
    }

    lemma SeedsSay(roots: seq<R.Root>, records: seq<HanPath>)
      requires SeedsOf(roots, records)
      ensures forall p :: p in records ==> SeedSays(roots, p)
    {
      hide OwnKey, IsGroup, OptionOf, OwnPath, SeedSays;
      var own, fragments :| OwnSeeds(roots, own) && GroupSeeds(roots, fragments) && records == OwnPaths(own) + fragments;
      forall p | p in records ensures SeedSays(roots, p) {
        if p in OwnPaths(own) {
          var x :| x in own && p == OwnPath(x);
          OwnSays(roots, x);
        } else {
          var t :| IsGroup(roots, t, p);
          GroupSays(roots, t, p);
        }
      }
    }

    lemma OwnSays(roots: seq<R.Root>, x: R.Root)
      requires x in roots && Single(x)
      ensures SeedSays(roots, OwnPath(x))
    {
      hide Syllables;
    }

    lemma GroupSays(roots: seq<R.Root>, token: int, p: HanPath)
      requires IsGroup(roots, token, p)
      ensures SeedSays(roots, p)
    {
      hide Syllables, IsOption;
      assert ScoredBy(roots, token, p.score);
    }

    lemma NoSeeds()
      ensures BestOk([], [], map[]) && GroupsOk([], [], map[])
    {}

    lemma OwnScored(roots: seq<R.Root>, own: seq<R.Root>)
      requires OwnSeeds(roots, own)
      ensures forall r :: r in own ==> r.score.Some?
    {
      hide OwnKey;
    }

    lemma SeedsKnown(roots: seq<R.Root>, met: seq<PathKey>, best: map<PathKey, R.Root>, tokens: seq<int>, groups: map<int, HanPath>)
      requires BestOk(roots, met, best) && GroupsOk(roots, tokens, groups)
      ensures forall n :: 0 <= n < |met| ==> met[n] in best
      ensures forall n :: 0 <= n < |tokens| ==> tokens[n] in groups
    {
      hide OwnKey, OptionOf, IsGroup;
      forall n | 0 <= n < |met| ensures met[n] in best { assert met[n] in met; }
      forall n | 0 <= n < |tokens| ensures tokens[n] in groups {
        var t := tokens[n];
        assert t in tokens;
      }
    }

    lemma AllSeeded(roots: seq<R.Root>, own: seq<R.Root>, fragments: seq<HanPath>, records: seq<HanPath>)
      requires OwnSeeds(roots, own) && GroupSeeds(roots, fragments) && (forall r :: r in own ==> r.score.Some?)
      requires records == OwnPaths(own) + fragments
      ensures SeedsOf(roots, records)
    {}

    method SortedRoots(roots: seq<R.Root>, met: seq<PathKey>, best: map<PathKey, R.Root>, ordinary: seq<R.Root>) returns (own: seq<R.Root>)
      requires BestOk(roots, met, best)
      requires |ordinary| == |met| && forall n :: 0 <= n < |met| ==> met[n] in best && ordinary[n] == best[met[n]]
      ensures OwnSeeds(roots, own)
    {
      hide OwnKey, StableSort;
      var byRank := (x: R.Root, y: R.Root) => inputs.seedRank(x) <= inputs.seedRank(y);
      assert forall i, j :: 0 <= i < j < |ordinary| ==> ordinary[i] != ordinary[j];
      StableSortOrders(byRank, ordinary);
      own := StableSort(byRank, ordinary);
      forall r | r in ordinary ensures r in roots && Single(r) && OwnKey(r) in best && best[OwnKey(r)] == r {
        var n :| 0 <= n < |ordinary| && ordinary[n] == r;
      }
      forall r | r in roots && Single(r) ensures exists x :: x in own && OwnKey(x) == OwnKey(r) && inputs.seedRank(x) <= inputs.seedRank(r) {
        assert BestKnows(best, r);
        var n :| 0 <= n < |met| && met[n] == OwnKey(r);
        assert ordinary[n] in ordinary;
      }
    }

    lemma AllGrouped(roots: seq<R.Root>, tokens: seq<int>, groups: map<int, HanPath>, fragments: seq<HanPath>)
      requires GroupsOk(roots, tokens, groups)
      requires |fragments| == |tokens| && forall n :: 0 <= n < |tokens| ==> tokens[n] in groups && fragments[n] == groups[tokens[n]]
      ensures GroupSeeds(roots, fragments)
    {
      hide OptionOf, IsOption;
      forall r | r in roots && Longish(r) ensures exists p :: p in fragments && p.tokenPath == [r.entry.tokenId] && OptionOf(r) in p.options {
        assert GroupKnows(groups, r);
        var n :| 0 <= n < |tokens| && tokens[n] == r.entry.tokenId;
        assert fragments[n] in fragments && IsGroup(roots, tokens[n], fragments[n]);
      }
      forall p | p in fragments ensures exists t :: IsGroup(roots, t, p) {
        var n :| 0 <= n < |tokens| && fragments[n] == p;
        assert IsGroup(roots, tokens[n], p);
      }
    }

    lemma EmptyIsHan()
      ensures HanOnly("")
    {}

    /** Seeds lie in no shorter bucket than the plan's least. */
    lemma SeedsAtLeast(roots: seq<R.Root>, records: seq<HanPath>, b: nat)
      requires SeedsOf(roots, records) && forall r :: r in roots ==> RootOk(Typed(), r, b)
      ensures forall p :: p in records ==> PathOk(Typed(), p) && PathAtLeast(p, b)
    {
      hide OwnKey, HanOnly, PathOk, PathAtLeast, IsGroup, OptionOf, OwnPath, RootOk;
      var own, fragments :| OwnSeeds(roots, own) && GroupSeeds(roots, fragments) && records == OwnPaths(own) + fragments;
      forall p | p in records ensures PathOk(Typed(), p) && PathAtLeast(p, b) {
        if p in OwnPaths(own) {
          var x :| x in own && p == OwnPath(x);
          OwnAtLeast(x, b);
        } else {
          GroupAtLeast(roots, p, b);
        }
      }
    }

    lemma OwnAtLeast(r: R.Root, b: nat)
      requires Single(r) && RootOk(Typed(), r, b)
      ensures PathOk(Typed(), OwnPath(r)) && PathAtLeast(OwnPath(r), b)
    {
      hide Goes;
      var e := OptionOf(r);
      OptionIsEdge(r, b);
      assert [e][..|[e]| - 1] == [] && r.entry.tokenPath == [r.entry.tokenId];
      OneEdgeChain(Typed(), e);
      assert Spelt(Typed(), [e], OwnPath(r));
    }

    lemma OptionIsEdge(r: R.Root, b: nat)
      requires RootOk(Typed(), r, b)
      ensures OptionOf(r) == RootEdge(Typed(), r)
    {
      hide Goes;
    }

    lemma GroupAtLeast(roots: seq<R.Root>, p: HanPath, b: nat)
      requires (exists t :: IsGroup(roots, t, p)) && forall r :: r in roots ==> RootOk(Typed(), r, b)
      ensures PathOk(Typed(), p) && PathAtLeast(p, b)
    {
      hide HanOnly, Goes;
      EmptyIsHan();
      var t :| IsGroup(roots, t, p);
      forall o | o in p.options ensures o.predicted >= b && EdgeOk(Typed(), p, o) && Opens(Typed(), p, o) {
        assert IsOption(roots, t, o);
        var r :| r in roots && Longish(r) && r.entry.tokenId == t && o == OptionOf(r);
        OptionIsEdge(r, b);
        assert p.tokenPath[0..] == [t];
      }
      assert ChainOk(Typed(), []) && Spelt(Typed(), [], p);
    }

    method MaterializeSeeds(id: nat, records: seq<HanPath>, at: nat) returns (items: seq<Item>)
      requires at <= |records|
      ensures items == Materialized(id, records, at)
    {
      var end := if at + MAX_FRONTIER_PER_BUCKET < |records| then at + MAX_FRONTIER_PER_BUCKET else |records|;
      items := [];
      for n := at to end
        invariant items == seq(n - at, i requires 0 <= i < n - at => Search(records[at + i]))
      {
        items := items + [Search(records[n])];
      }
      if end < |records| {
        items := items + [RootSeeds(id, records, end)];
      }
    }

    lemma MaterializedOk(id: nat, records: seq<HanPath>, at: nat, b: nat)
      requires at <= |records| && (forall p :: p in records ==> PathOk(Typed(), p)) && forall i :: at <= i < |records| ==> PathAtLeast(records[i], b)
      ensures forall x :: x in Materialized(id, records, at) ==> ItemOk(Typed(), x) && AtLeast(x, b) && (x.Search? || x.RootSeeds?)
    {
      forall i | at <= i < |records| ensures PathOk(Typed(), records[i]) { assert records[i] in records; }
    }

    static function RootCandidate(r: R.Root): Candidate
      requires r.score.Some?
    {
      Candidate(r.entry.text, RootSyllables(r), r.entry.consumed, r.entry.completes, r.entry.predicted, Han, Neural, [r.entry.tokenId],
                r.score.value, r.entry.tier)
    }

    /** What a root is shown as: itself, one neural Han candidate of one token. */
    ghost predicate RootSays(r: R.Root, c: Candidate) {
      && r.score == Some(c.score) && c.text == r.entry.text && c.pinyin == Syllables(r.entry.pinyin) && c.tokenPath == [r.entry.tokenId]
      && c.consumed == r.entry.consumed && c.completes == r.entry.completes && c.predicted == r.entry.predicted && c.tier == r.entry.tier
      && c.kind == Neural && c.script == Han
    }

    lemma RootsSay(d: Item, before: seq<Candidate>, after: seq<Candidate>)
      requires d.Deferred? && forall c :: c in after ==> c in before || Shows(d, c)
      ensures forall c :: c in after ==> c in before || exists r :: r in d.roots && R.Eligible(r) && RootSays(r, c)
    {
      forall c | c in after && c !in before ensures exists r :: r in d.roots && R.Eligible(r) && RootSays(r, c) {
        var r :| r in d.roots && R.Eligible(r) && c == RootCandidate(r);
        assert RootSays(r, c);
      }
    }

    ghost predicate RootKnown(r: R.Root, seen: set<Identity>) {
      r.score.Some? ==> IdOf(norm, RootCandidate(r)) in seen
    }

    /** The best roots of a plan are shown or known, and all its roots are seeds. */
    ghost predicate Realised(d: Item, records: seq<HanPath>, seen: set<Identity>)
      requires d.Deferred?
    {
      SeedsOf(d.roots, records) && forall r :: r in R.Prefix(R.Ranking(d.roots), CHINESE_CANDIDATE_COUNT) ==> RootKnown(r, seen)
    }

    /** A deferred plan becomes visible roots and search seeds. */
    method Realize(d: Item, id: nat) returns (items: seq<Item>, ghost records: seq<HanPath>)
      requires d.Deferred? && ItemOk(Typed(), d) && AtLeast(d, reached)
      modifies this`pending, this`seen
      ensures Gathered(norm, old(pending), pending, reached) && (old(Clean()) ==> Clean()) && old(seen) <= seen
      ensures Realised(d, records, seen) && items == Materialized(id, records, 0)
      ensures forall x :: x in items ==> ItemOk(Typed(), x) && AtLeast(x, reached) && (x.Search? || x.RootSeeds?) && LeadsTo(d, x)
      ensures (forall c :: c in pending ==> c in old(pending) || Shows(d, c)) && NewlyShown(old(seen), seen, pending)
      ensures forall c :: c in pending ==> c in old(pending) || exists r :: r in d.roots && R.Eligible(r) && RootSays(r, c)
      ensures forall p :: p in records ==> SeedSays(d.roots, p)
    {
      hide SeedsOf, CleanAre, RootCandidate, Worded, HanOnly, Materialized, NewlyShown, Gathered, R.Prefix, R.Ranking, RootSays, SeedSays;
      ShowRoots(d);
      RootsSay(d, old(pending), pending);
      var seeds := SeedRecords(d.roots);
      SeedsAtLeast(d.roots, seeds, reached);
      forall i | 0 <= i < |seeds| ensures PathAtLeast(seeds[i], reached) { assert seeds[i] in seeds; }
      items := MaterializeSeeds(id, seeds, 0);
      MaterializedOk(id, seeds, 0, reached);
      records := seeds;
    }

    /** The best roots of a plan join the waiting list. */
    method ShowRoots(d: Item)
      requires d.Deferred? && ItemOk(Typed(), d) && AtLeast(d, reached)
      modifies this`pending, this`seen
      ensures Gathered(norm, old(pending), pending, reached) && (old(Clean()) ==> Clean()) && old(seen) <= seen
      ensures forall r :: r in R.Prefix(R.Ranking(d.roots), CHINESE_CANDIDATE_COUNT) ==> RootKnown(r, seen)
      ensures (forall c :: c in pending ==> c in old(pending) || Shows(d, c)) && NewlyShown(old(seen), seen, pending)
    {
      hide CleanAre, RootCandidate, Worded, HanOnly, NewlyShown, Shows, R.Ranking, R.Prefix, NoneDropped, InputsOk;
      NothingNew(seen, pending);
      Unmoved(norm, pending, reached);
      var roots := R.SelectTopRoots(d.roots, CHINESE_CANDIDATE_COUNT);
      for n := 0 to |roots|
        invariant Gathered(norm, old(pending), pending, reached) && (old(Clean()) ==> Clean()) && old(seen) <= seen
        invariant forall k :: 0 <= k < n ==> RootKnown(roots[k], seen)
        invariant (forall c :: c in pending ==> c in old(pending) || Shows(d, c)) && NewlyShown(old(seen), seen, pending)
      {
        TopRoot(d, roots, n);
        var c := RootCandidate(roots[n]);
        if Clean() { HanIsNotTheKeys(c); }
        ghost var before, known := pending, seen;
        var added := AddRoot(c);
        OneMoreGathered(before, c, reached);
        GatheredTwice(norm, old(pending), before, pending, reached);
        NewlyShownTwice(old(seen), known, before, seen, pending);
      }
    }

    lemma OneMoreGathered(before: seq<Candidate>, c: Candidate, reached: nat)
      requires c.predicted >= reached
      ensures Gathered(norm, before, before + [c], reached) && Gathered(norm, before, before, reached)
    {}

    lemma TopRoot(d: Item, roots: seq<R.Root>, n: nat)
      requires d.Deferred? && ItemOk(Typed(), d) && AtLeast(d, reached) && roots == R.Prefix(R.Ranking(d.roots), CHINESE_CANDIDATE_COUNT) && n < |roots|
      ensures roots[n].score.Some?
      ensures var c := RootCandidate(roots[n]);
              c.kind == Neural && c.predicted >= reached && HanOnly(c.text) && Worded(inputs.raw, c) && Shows(d, c)
    {
      hide RootCandidate, Worded, HanOnly;
      R.RankingIsIncreasing(d.roots);
      var r := roots[n];
      assert r in R.Ranking(d.roots) && r in d.roots;
      RootInBucket(r);
    }

    lemma RootInBucket(r: R.Root)
      requires r.score.Some?
      ensures RootCandidate(r).kind == Neural && RootCandidate(r).predicted == r.entry.predicted && RootCandidate(r).text == r.entry.text
      ensures HanOnly(r.entry.text) ==> Worded(inputs.raw, RootCandidate(r))
    {}

    // Pruning.

    /** A path key that was expanded, or that waits on the frontier. */
    ghost predicate Held(k: PathKey, expanded: set<PathKey>, frontier: seq<Item>) {
      k in expanded || exists x :: x in frontier && KeyOf(x) == k
    }

    ghost predicate AllHeld(items: seq<Item>, expanded: set<PathKey>, frontier: seq<Item>) {
      forall x :: x in items ==> Held(KeyOf(x), expanded, frontier)
    }

    /** A plan realised earlier or now, with its first seeds held. */
    ghost predicate PlanHeld(d: Item, seen: set<Identity>, expanded: set<PathKey>, frontier: seq<Item>)
      requires d.Deferred?
    {
      exists id, records :: Realised(d, records, seen) && AllHeld(Materialized(id, records, 0), expanded, frontier)
    }

    /** An item of the frontier before a step: still held, or a plan that has been realised. */
    ghost predicate Carried(x: Item, seen: set<Identity>, expanded: set<PathKey>, frontier: seq<Item>) {
      if x.Deferred? then x in frontier || PlanHeld(x, seen, expanded, frontier) else Held(KeyOf(x), expanded, frontier)
    }

    /** Deferred plans become visible roots and seeds; the other items stay as they are. */
    method RealizePlans() returns (immediate: seq<Item>, later: seq<Item>)
      requires forall x :: x in frontier ==> ItemOk(Typed(), x) && AtLeast(x, reached)
      modifies this`pending, this`seen
      ensures forall x :: x in immediate <==> x in frontier && !x.Deferred?
      ensures forall x :: x in later ==> ItemOk(Typed(), x) && AtLeast(x, reached) && (x.Search? || x.RootSeeds?)
      ensures forall x :: x in frontier && x.Deferred? ==> PlanListed(x, seen, later)
      ensures Gathered(norm, old(pending), pending, reached) && (old(Clean()) ==> Clean()) && old(seen) <= seen
      ensures Chinese() && old(HanSorted(pending)) ==> HanSorted(pending)
      ensures (forall x :: x in frontier ==> !x.Deferred?) ==> later == [] && pending == old(pending) && seen == old(seen)
      ensures (forall x :: x in later ==> Planned(frontier, x)) && forall c :: c in pending ==> c in old(pending) || PlanShows(frontier, c)
      ensures NewlyShown(old(seen), seen, pending)
    {
      hide ItemOk, AtLeast, CleanAre, Realised, NoneDropped, Materialized, PlanListed, HanSorted, LeadsTo, Shows, NewlyShown;
      Unmoved(norm, pending, reached);
      NothingNew(seen, pending);
      immediate, later := [], [];
      var realised := false;
      for n := 0 to |frontier|
        invariant forall x :: x in immediate ==> x in frontier && !x.Deferred?
        invariant forall x :: x in later ==> ItemOk(Typed(), x) && AtLeast(x, reached) && (x.Search? || x.RootSeeds?)
        invariant forall k :: 0 <= k < n && !frontier[k].Deferred? ==> frontier[k] in immediate
        invariant forall k :: 0 <= k < n && frontier[k].Deferred? ==> PlanListed(frontier[k], seen, later)
        invariant Gathered(norm, old(pending), pending, reached) && (old(Clean()) ==> Clean()) && old(seen) <= seen
        invariant !realised ==> later == [] && pending == old(pending) && seen == old(seen)
        invariant realised ==> exists x :: x in frontier && x.Deferred?
        invariant (forall x :: x in later ==> Planned(frontier, x)) && forall c :: c in pending ==> c in old(pending) || PlanShows(frontier, c)
        invariant NewlyShown(old(seen), seen, pending)
      {
        assert frontier[n] in frontier;
        if frontier[n].Deferred? {
          ghost var before, known, was := pending, seen, later;
          ghost var records: seq<HanPath>;
          var items: seq<Item>;
          items, records := Realize(frontier[n], n);
          GatheredTwice(norm, old(pending), before, pending, reached);
          NewlyShownTwice(old(seen), known, before, seen, pending);
          later := later + items;
          forall k | 0 <= k < n && frontier[k].Deferred? ensures PlanListed(frontier[k], seen, later) {
            PlanStaysListed(frontier[k], known, was, seen, later);
          }
          PlanIsListed(frontier[n], n, records, items, seen, later);
          realised := true;
        } else {
          immediate := immediate + [frontier[n]];
        }
      }
      if realised {
        ghost var before := pending;
        SortPending();
        assert Gathered(norm, before, pending, reached) by { SameMembers(norm, before, pending, reached); }
        GatheredTwice(norm, old(pending), before, pending, reached);
        NothingNew(seen, pending);
        NewlyShownTwice(old(seen), seen, before, seen, pending);
      }
    }

    /** Realise what is deferred, order the frontier, and drop expanded and repeated keys. No
        remainder is dropped, as there is at most one. */
    method PruneFrontier()
      requires forall x :: x in frontier ==> ItemOk(Typed(), x) && AtLeast(x, reached)
      requires LoneRemainder(frontier) && NoneExpanded(expanded)
      modifies this`pending, this`seen, this`frontier
      ensures FrontierOk(Typed(), frontier, expanded, reached) && KeysDiffer(frontier) && OneRemainder(frontier)
      ensures forall x :: x in frontier ==> !x.Deferred?
      ensures forall x: Item :: x.Resume? ==> (x in frontier <==> x in old(frontier))
      ensures Gathered(norm, old(pending), pending, reached) && (old(Clean()) ==> Clean()) && old(seen) <= seen
      ensures Chinese() && old(HanSorted(pending)) ==> HanSorted(pending)
      ensures forall x :: x in old(frontier) ==> Carried(x, seen, expanded, frontier)
      ensures Ranked(inputs.itemRank, frontier)
      ensures (forall x :: x in old(frontier) ==> !x.Deferred?) ==>
                pending == old(pending) && seen == old(seen) && forall x :: x in frontier ==> x in old(frontier)
      ensures forall x :: x in frontier ==> x in old(frontier) || Planned(old(frontier), x)
      ensures forall c :: c in pending ==> c in old(pending) || PlanShows(old(frontier), c)
      ensures Traced(old(frontier), old(pending), frontier, pending) && NewlyShown(old(seen), seen, pending)
    {
      hide NewlyShown, Planned, PlanShows, Traced, ItemOk, AtLeast, CleanAre, KeyOf, Held, NoneDropped, PlanListed, PlanHeld, Ranked, BestKept,
           HanSorted, KeysDiffer, LoneRemainder, OneRemainder, NoneExpanded;
      var immediate, later := RealizePlans();
      ghost var all := immediate + later;
      var sorted := SortedItems(immediate + later);
      var retained := Retained(sorted, expanded, inputs.itemRank);
      forall x | x in all ensures Held(KeyOf(x), expanded, retained) {
        assert x in sorted;
        RetainedHolds(sorted, expanded, retained, x);
      }
      forall x | x in frontier && x.Deferred? ensures PlanHeld(x, seen, expanded, retained) {
        PlanBecomesHeld(x, seen, later, expanded, retained);
      }
      RemainderKept(frontier, sorted, expanded, retained);
      if Clean() { PrunedClean(frontier, retained); }
      PlansTraced(frontier, old(pending), retained, pending);
      frontier := retained;
    }

    /** Ordering and dropping repeated keys keeps the one remainder. */
    lemma RemainderKept(before: seq<Item>, sorted: seq<Item>, expanded: set<PathKey>, retained: seq<Item>)
      requires LoneRemainder(before) && NoneExpanded(expanded) && KeysDiffer(retained)
      requires forall x :: x in retained ==> x in sorted
      requires forall x: Item :: x.Resume? ==> (x in sorted <==> x in before)
      requires forall x :: x in sorted && KeyOf(x) !in expanded ==> BestKept(inputs.itemRank, retained, x)
      ensures OneRemainder(retained) && forall x: Item :: x.Resume? ==> (x in retained <==> x in before)
    {
      hide BestKept, KeysDiffer;
      forall x | x in before && x.Resume? ensures x in retained {
        assert KeyOf(x).ResumeKey?;
        var y := KeptFor(inputs.itemRank, retained, x);
        assert KeyOf(y).ResumeKey?;
      }
      RemainderOnce(retained);
    }

    /** Without a deferred plan pruning brings nothing new. */
    lemma PrunedClean(before: seq<Item>, after: seq<Item>)
      requires CleanAre(published, pending, seen, before, exhausted)
      requires (forall x :: x in before ==> !x.Deferred?) ==> forall x :: x in after ==> x in before
      ensures CleanAre(published, pending, seen, after, exhausted)
    {
      hide InputsOk, Unique, SeenCovers, Worded, LiteralShown;
    }

    method SortedItems(items: seq<Item>) returns (sorted: seq<Item>)
      ensures forall x :: x in sorted <==> x in items
      ensures Ranked(inputs.itemRank, sorted)
    {
      var le := ByItemRank(inputs.itemRank);
      assert forall a, b :: le(a, b) == (inputs.itemRank(a) <= inputs.itemRank(b));
      ghost var kept := StableSortKeeps(le, items);
      sorted := StableSort(le, items);
      forall i, j | 0 <= i < j < |sorted| ensures inputs.itemRank(sorted[i]) <= inputs.itemRank(sorted[j]) {
        StableSortAscends(le, items, i, j);
      }
    }

    ghost predicate AllIn(items: seq<Item>, later: seq<Item>) {
      forall x :: x in items ==> x in later
    }

    ghost predicate PlanListed(d: Item, seen: set<Identity>, later: seq<Item>)
      requires d.Deferred?
    {
      exists id, records :: Realised(d, records, seen) && AllIn(Materialized(id, records, 0), later)
    }

    lemma PlanIsListed(d: Item, id: nat, records: seq<HanPath>, items: seq<Item>, seen: set<Identity>, later: seq<Item>)
      requires d.Deferred? && Realised(d, records, seen) && items == Materialized(id, records, 0) && forall x :: x in items ==> x in later
      ensures PlanListed(d, seen, later)
    {
      hide Realised, Materialized;
    }

    lemma PlanStaysListed(d: Item, seen: set<Identity>, later: seq<Item>, seen': set<Identity>, later': seq<Item>)
      requires d.Deferred? && PlanListed(d, seen, later) && seen <= seen' && forall x :: x in later ==> x in later'
      ensures PlanListed(d, seen', later')
    {
      hide SeedsOf, Materialized, RootCandidate;
      var id, records :| Realised(d, records, seen) && AllIn(Materialized(id, records, 0), later);
      assert Realised(d, records, seen') && AllIn(Materialized(id, records, 0), later');
    }

    lemma PlanBecomesHeld(d: Item, seen: set<Identity>, later: seq<Item>, expanded: set<PathKey>, frontier: seq<Item>)
      requires d.Deferred? && PlanListed(d, seen, later) && forall x :: x in later ==> Held(KeyOf(x), expanded, frontier)
      ensures PlanHeld(d, seen, expanded, frontier)
    {
      hide Realised, Materialized, KeyOf, Held;
      var id, records :| Realised(d, records, seen) && AllIn(Materialized(id, records, 0), later);
      assert AllHeld(Materialized(id, records, 0), expanded, frontier);
    }

    lemma RetainedHolds(sorted: seq<Item>, expanded: set<PathKey>, frontier: seq<Item>, x: Item)
      requires x in sorted
      requires KeyOf(x) !in expanded ==> BestKept(inputs.itemRank, frontier, x)
      ensures Held(KeyOf(x), expanded, frontier)
    {}

    // One step of the search.

    /** A first token that still waits for its score. */
    predicate Unscored(x: Item, expanded: set<PathKey>) {
      && x.Search? && |x.path.tokenPath| == 1 && KeyOf(x) !in expanded
      && (x.path.options != [] || x.path.matched < |inputs.compact|)
    }

    /** Root seeds are held back while a first token waits for its score. */
    predicate HoldsBack(frontier: seq<Item>, expanded: set<PathKey>) {
      exists x :: x in frontier && Unscored(x, expanded)
    }

    ghost predicate NothingToResume(frontier: seq<Item>, expanded: set<PathKey>) {
      NoRemainder(frontier) && ((exists x :: x in frontier && x.RootSeeds?) ==> HoldsBack(frontier, expanded))
    }

    /** A slice of a scored parent, or the next root seeds, has been worked off: whatever it led
        to is known, expanded, or on the frontier, and what is left of it waits there. */
    ghost predicate WorkedOff(x: Item, seen: set<Identity>, expanded: set<PathKey>, frontier: seq<Item>)
      requires (x.Resume? || x.RootSeeds?) && ItemOk(Typed(), x)
    {
      if x.Resume? then
        exists next: nat, queue: seq<Item> ::
          SliceDone(x, next, seen, queue) && AllHeld(queue, expanded, frontier) && (next < |x.positions| ==> x.(cursor := next) in frontier)
      else AllHeld(Materialized(x.id, x.records, x.at), expanded, frontier)
    }

    lemma WorkedOffSlice(x: Item, next: nat, known: set<Identity>, queue: seq<Item>, seen: set<Identity>, expanded: set<PathKey>, frontier: seq<Item>)
      requires x.Resume? && ItemOk(Typed(), x) && SliceDone(x, next, known, queue) && known <= seen && AllHeld(queue, expanded, frontier)
      requires next < |x.positions| ==> x.(cursor := next) in frontier
      ensures WorkedOff(x, seen, expanded, frontier)
    {
      hide PositionDone, Held, KeyOf;
      forall i | x.cursor <= i < next ensures PositionDone(x, i, seen, queue) {
        PositionStaysDone(x, i, known, queue, seen, queue);
      }
      assert SliceDone(x, next, seen, queue);
    }

    /** What a resumed step did with its item; every other item is carried on. */
    ghost predicate ResumedOk(x: Item, before: seq<Item>, expanded: set<PathKey>, seen: set<Identity>, frontier: seq<Item>) {
      && x in before && (x.Resume? || (x.RootSeeds? && !HoldsBack(before, expanded))) && ItemOk(Typed(), x)
      && WorkedOff(x, seen, expanded, frontier)
      && (forall y :: y in before && y != x ==> Carried(y, seen, expanded, frontier) && (y.Resume? ==> y in frontier))
    }

    /** Work that needs no scorer: a slice of a scored parent, or the next root seeds. */
    method ResumeScored() returns (resumed: bool, progressed: nat, ghost x: Option<Item>)
      requires OrderOk() && !exhausted
      modifies this`pending, this`seen, this`frontier, this`exhausted
      ensures OrderOk() && Gathered(norm, old(pending), pending, reached) && (old(Clean()) ==> Clean()) && old(seen) <= seen
      ensures !resumed ==> unchanged(this) && x == None && NothingToResume(frontier, expanded)
      ensures resumed ==> x.Some? && ResumedOk(x.value, old(frontier), expanded, seen, frontier)
      ensures Traced(old(frontier), old(pending), frontier, pending)
    {
      hide Traced, ItemOk, AtLeast, CleanAre, NoneDropped, WorkedOff, Carried, KeyOf, Unscored, NoneExpanded, InputsOk;
      Unmoved(norm, pending, reached);
      progressed, x := 0, None;
      var unscored := HoldsBack(frontier, expanded);
      for n := 0 to |frontier|
        invariant unchanged(this)
        invariant forall k :: 0 <= k < n ==> !frontier[k].Resume? && (frontier[k].RootSeeds? ==> unscored)
      {
        var y := frontier[n];
        assert y in frontier;
        if y.Resume? || (y.RootSeeds? && !unscored) {
          TakenOff(frontier, n);
          frontier := frontier[..n] + frontier[n + 1..];
          OthersStay(old(frontier), n, frontier);
          ghost var parts := frontier + [y];
          TracedHere(old(frontier), pending, parts, pending);
          progressed := ResumeItem(y);
          TracedTwice(old(frontier), old(pending), parts, old(pending), frontier, pending);
          if Clean() { EndsClean(frontier == []); }
          exhausted := frontier == [];
          return true, progressed, Some(y);
        }
      }
      resumed := false;
      TracedHere(frontier, pending, frontier, pending);
    }

    lemma OthersStay(before: seq<Item>, n: nat, after: seq<Item>)
      requires n < |before| && after == before[..n] + before[n + 1..]
      ensures forall y :: y in before && y != before[n] ==> y in after
      ensures forall y :: y in after ==> y in before
    {}

    /** An item leaves the frontier to be worked off. */
    lemma TakenOff(before: seq<Item>, n: nat)
      requires n < |before| && OneRemainder(before)
      ensures var rest := before[..n] + before[n + 1..];
              && LoneRemainder(rest) && (before[n].Resume? ==> NoRemainder(rest))
              && (CleanAre(published, pending, seen, before, exhausted) ==> CleanAre(published, pending, seen, rest + [before[n]], exhausted))
    {
      hide CleanAre, OneRemainder;
      var rest := before[..n] + before[n + 1..];
      OthersStay(before, n, rest);
      OneIsLone(before);
      if before[n].Resume? { WithoutRemainder(before, n, rest); }
      if CleanAre(published, pending, seen, before, exhausted) { FrontierMoves(before, rest + [before[n]]); }
    }

    /** The search may end, which asks less of the frontier. */
    lemma EndsClean(ends: bool)
      requires Clean() && (exhausted ==> ends)
      ensures CleanAre(published, pending, seen, frontier, ends)
    {
      hide InputsOk, Unique, SeenCovers, Worded, Quiet, LiteralShown;
    }

    /** Seeds are on the frontier of no session that could still be completed to the keys. */
    lemma SeedsClean(x: Item, after: seq<Item>)
      requires CleanBut(x) && x.RootSeeds?
      ensures CleanAre(published, pending, seen, after, exhausted)
    {
      hide InputsOk, Unique, SeenCovers, Worded, LiteralShown;
      assert x in frontier + [x];
    }

    method ResumeItem(x: Item) returns (progressed: nat)
      requires (x.Resume? || x.RootSeeds?) && ItemOk(Typed(), x) && AtLeast(x, reached)
      requires (forall y :: y in frontier ==> ItemOk(Typed(), y) && AtLeast(y, reached)) && NoneExpanded(expanded)
      requires LoneRemainder(frontier) && (x.Resume? ==> NoRemainder(frontier))
      modifies this`pending, this`seen, this`frontier
      ensures FrontierOk(Typed(), frontier, expanded, reached) && OneRemainder(frontier)
      ensures Gathered(norm, old(pending), pending, reached) && (old(CleanBut(x)) ==> Clean())
      ensures old(seen) <= seen && WorkedOff(x, seen, expanded, frontier)
      ensures forall y :: y in old(frontier) ==> Carried(y, seen, expanded, frontier) && (y.Resume? ==> y in frontier)
      ensures Traced(old(frontier) + [x], old(pending), frontier, pending)
    {
      hide Traced, PathOk, PathAtLeast, ResumeOk, CleanAre, NoneDropped, PlanHeld, Held, SliceDone, KeyOf, Materialized, NoneExpanded, InputsOk;
      ghost var next: nat := 0;
      Unmoved(norm, pending, reached);
      if CleanBut(x) { FrontierMoves(frontier + [x], frontier); }
      if x.Resume? {
        progressed, next := ExpandHanConstrained(x);
        SliceTraced(x, next, old(frontier), frontier, old(pending), pending);
      } else {
        SeedsLeft(x);
        var items := MaterializeSeeds(x.id, x.records, x.at);
        MaterializedOk(x.id, x.records, x.at, reached);
        progressed := |items|;
        if CleanBut(x) { SeedsClean(x, frontier + items); }
        SeedsTraced(x, frontier, items, pending);
        frontier := frontier + items;
      }
      ghost var middle, queue, known := pending, frontier, seen;
      PruneFrontier();
      GatheredTwice(norm, old(pending), middle, pending, reached);
      TracedTwice(old(frontier) + [x], old(pending), queue, middle, frontier, pending);
      assert forall y :: y in old(frontier) ==> y in queue;
      if x.Resume? {
        QueueHeld(queue, seen, expanded, frontier, x, next, known);
      } else {
        NewItemsHeld(queue, seen, expanded, frontier, Materialized(x.id, x.records, x.at));
      }
    }

    lemma SeedsLeft(x: Item)
      requires x.RootSeeds? && ItemOk(Typed(), x) && AtLeast(x, reached)
      ensures x.at <= |x.records| && forall p :: p in x.records ==> PathOk(Typed(), p)
      ensures forall i :: x.at <= i < |x.records| ==> PathAtLeast(x.records[i], reached)
    {}

    lemma NewItemsHeld(queue: seq<Item>, seen: set<Identity>, expanded: set<PathKey>, frontier: seq<Item>, items: seq<Item>)
      requires forall y :: y in queue && !y.Deferred? ==> Held(KeyOf(y), expanded, frontier)
      requires forall y :: y in items ==> y in queue && (y.Search? || y.RootSeeds?)
      ensures AllHeld(items, expanded, frontier)
    {
      hide Held, KeyOf;
    }

    /** What a slice appended is held after pruning; deferred plans aside, which no slice appends. */
    lemma QueueHeld(queue: seq<Item>, seen: set<Identity>, expanded: set<PathKey>, frontier: seq<Item>, x: Item, next: nat, known: set<Identity>)
      requires x.Resume? && ItemOk(Typed(), x) && SliceDone(x, next, known, queue) && known <= seen
      requires forall y :: y in queue && !y.Deferred? ==> Held(KeyOf(y), expanded, frontier)
      requires forall y :: y in queue && y.Resume? ==> y in frontier
      ensures WorkedOff(x, seen, expanded, frontier)
    {
      hide Held, KeyOf, PositionDone;
      var plain := Filter(NotDeferred(), queue);
      forall i | x.cursor <= i < next ensures PositionDone(x, i, known, plain) {
        PlainPositionDone(x, i, known, queue, plain);
      }
      assert SliceDone(x, next, known, plain);
      WorkedOffSlice(x, next, known, plain, seen, expanded, frontier);
    }

    lemma PlainPositionDone(x: Item, i: nat, known: set<Identity>, queue: seq<Item>, plain: seq<Item>)
      requires x.Resume? && ResumeOk(Typed(), x) && i < |x.positions| && PositionDone(x, i, known, queue)
      requires forall y :: y in queue && y.Search? ==> y in plain
      ensures PositionDone(x, i, known, plain)
    {
      hide Finishes, StaysInside, GoesOn, CandidateAt, Extended, Fragment;
      assert x.positions[i] in x.positions;
      var token := x.tokens[x.positions[i]];
      var score := x.values[x.positions[i]].value;
      forall e | e in x.edges[token] ensures Accounted(x.path, token, score, e, known, plain) {
        assert Accounted(x.path, token, score, e, known, queue);
        if StaysInside(x.path, e) {
          var options :| e in options && Search(Fragment(x.path, token, score, options)) in queue;
          assert Search(Fragment(x.path, token, score, options)) in plain;
        }
      }
    }

    /** An item that has nothing to hand out: a Han path without a legal edge, and anything else
        when there are no Latin tokens. */
    ghost predicate Barren(x: Item) {
      if x.Search? then forall t, e :: !LegalUnder(x.path, t, e) else inputs.latinTokens == []
    }

    ghost predicate AllBarren(items: seq<Item>) {
      forall x :: x in items ==> Barren(x)
    }

    /** What PopParent hands out: for a Han path exactly its legal edges, for anything else the Latin tokens. */
    ghost predicate Handed(x: Item, tokens: seq<int>, edges: map<int, seq<Edge>>) {
      && tokens != []
      && (x.Search? ==>
            && (forall t, e :: Lists(edges, t, e) <==> LegalUnder(x.path, t, e))
            && (forall t :: t in tokens <==> t in edges) && forall i, j :: 0 <= i < j < |tokens| ==> tokens[i] < tokens[j])
      && (!x.Search? ==> tokens == inputs.latinTokens)
    }

    /** The first items of the queue, which are barren but for the last of them, the parent. */
    ghost predicate Popping(queue: seq<Item>, count: nat, parent: Option<Item>) {
      && count <= |queue|
      && match parent
         case None => count == |queue| && AllBarren(queue)
         case Some(x) => count > 0 && x == queue[count - 1] && !Barren(x) && AllBarren(queue[..count - 1])
    }

    /** What holds of the frontier while a parent is out of it. */
    ghost predicate Waiting()
      reads this`frontier, this`expanded, this`reached
    {
      && BoundTo() && FrontierOk(Typed(), frontier, expanded, reached) && NoRemainder(frontier) && NoneExpanded(expanded)
      && forall x :: x in frontier ==> !x.Deferred?
    }

    ghost predicate IsParent(x: Item)
      reads this`reached
    {
      ItemOk(Typed(), x) && AtLeast(x, reached) && !x.Resume? && !x.Deferred?
    }

    /** Pop paths until one has legal next tokens: the first in rank that has. */
    method PopParent() returns (parent: Option<Item>, tokens: seq<int>, edges: map<int, seq<Edge>>, ghost count: nat)
      requires Waiting() && KeysDiffer(frontier)
      modifies this`frontier, this`expanded
      ensures Waiting() && Popping(old(frontier), count, parent)
      ensures frontier == old(frontier)[count..] && expanded == old(expanded) + KeysOf(old(frontier)[..count])
      ensures parent.Some? ==> IsParent(parent.value) && Handed(parent.value, tokens, edges)
    {
      hide ItemOk, AtLeast, EdgeOf, KeyOf, KeysOf, LegalUnder, WellFormed, RowsHold, Barren, AllBarren, Handed, KeysDiffer, InputsOk,
           NoneExpanded, NoRemainder, FrontierOk;
      NothingPopped(frontier, expanded);
      parent, tokens, edges, count := None, [], map[], 0;
      while frontier != []
        invariant count <= |old(frontier)| && frontier == old(frontier)[count..]
        invariant expanded == old(expanded) + KeysOf(old(frontier)[..count]) && AllBarren(old(frontier)[..count])
        decreases |frontier|
      {
        var x := frontier[0];
        assert x == old(frontier)[count];
        ParentIsOk(old(frontier), old(expanded), count);
        NotPopped(old(frontier), old(expanded), count);
        OneMore(old(frontier), count);
        frontier := frontier[1..];
        count := count + 1;
        if KeyOf(x) !in expanded {
          if x.Search? {
            edges, tokens := HanEdgesFor(x.path);
          } else {
            edges, tokens := map[], inputs.latinTokens;
          }
          HandsOut(x, tokens, edges);
          expanded := expanded + {KeyOf(x)};
          if tokens != [] {
            assert expanded == old(expanded) + KeysOf(old(frontier)[..count]);
            PoppedWaits(old(frontier), old(expanded), count);
            return Some(x), tokens, edges, count;
          }
        }
      }
      assert old(frontier)[..|old(frontier)|] == old(frontier);
      PoppedWaits(old(frontier), old(expanded), count);
    }

    lemma NothingPopped(queue: seq<Item>, expanded: set<PathKey>)
      ensures queue == queue[0..] && expanded == expanded + KeysOf(queue[..0]) && AllBarren(queue[..0])
    {}

    lemma ParentIsOk(queue: seq<Item>, expanded: set<PathKey>, n: nat)
      requires n < |queue| && FrontierOk(Typed(), queue, expanded, reached) && NoRemainder(queue) && forall x :: x in queue ==> !x.Deferred?
      ensures IsParent(queue[n]) && KeyOf(queue[n]) !in expanded
    {
      hide ItemOk, AtLeast, KeyOf;
      assert queue[n] in queue;
    }

    lemma NotPopped(queue: seq<Item>, expanded: set<PathKey>, n: nat)
      requires n < |queue| && KeysDiffer(queue) && KeyOf(queue[n]) !in expanded
      ensures KeyOf(queue[n]) !in expanded + KeysOf(queue[..n])
    {
      hide KeyOf;
      PrefixKeys(queue, n, KeyOf(queue[n]));
    }

    lemma PrefixKeys(queue: seq<Item>, n: nat, k: PathKey)
      requires n <= |queue|
      ensures k in KeysOf(queue[..n]) <==> exists i :: 0 <= i < n && KeyOf(queue[i]) == k
    {
      hide KeyOf;
      if i :| 0 <= i < n && KeyOf(queue[i]) == k {
        assert queue[i] in queue[..n];
      }
    }

    lemma OneMore(queue: seq<Item>, n: nat)
      requires n < |queue|
      ensures queue[..n + 1] == queue[..n] + [queue[n]] && KeysOf(queue[..n + 1]) == KeysOf(queue[..n]) + {KeyOf(queue[n])}
      ensures AllBarren(queue[..n]) && Barren(queue[n]) ==> AllBarren(queue[..n + 1])
      ensures queue[n..][1..] == queue[n + 1..]
    {
      hide KeyOf, Barren;
      assert queue[..n + 1] == queue[..n] + [queue[n]];
      assert forall x :: x in queue[..n + 1] <==> x in queue[..n] || x == queue[n];
    }

    /** What is left of the queue is still in order. */
    lemma PoppedWaits(queue: seq<Item>, expanded: set<PathKey>, n: nat)
      requires BoundTo() && n <= |queue| && KeysDiffer(queue) && FrontierOk(Typed(), queue, expanded, reached) && NoRemainder(queue) && NoneExpanded(expanded)
      requires forall x :: x in queue ==> !x.Deferred?
      ensures FrontierOk(Typed(), queue[n..], expanded + KeysOf(queue[..n]), reached) && NoRemainder(queue[n..]) && NoneExpanded(expanded + KeysOf(queue[..n]))
      ensures forall x :: x in queue[n..] ==> !x.Deferred?
    {
      hide ItemOk, AtLeast;
      forall x | x in queue[n..] ensures KeyOf(x) !in expanded + KeysOf(queue[..n]) {
        var i :| n <= i < |queue| && queue[i] == x;
        NotPopped(queue, expanded, i);
        assert forall y :: y in queue[..n] ==> y in queue[..i];
      }
      forall k | k in KeysOf(queue[..n]) ensures !k.ResumeKey? {
        var x :| x in queue[..n] && KeyOf(x) == k;
        assert x in queue;
      }
    }

    lemma HandsOut(x: Item, tokens: seq<int>, edges: map<int, seq<Edge>>)
      requires x.Search? ==> forall t, e :: Lists(edges, t, e) <==> LegalUnder(x.path, t, e)
      requires x.Search? ==> (forall t :: t in tokens <==> t in edges) && forall i, j :: 0 <= i < j < |tokens| ==> tokens[i] < tokens[j]
      requires x.Search? ==> forall t :: t in edges ==> edges[t] != []
      requires !x.Search? ==> tokens == inputs.latinTokens
      ensures if tokens == [] then Barren(x) else Handed(x, tokens, edges) && !Barren(x)
    {
      hide LegalUnder;
      if x.Search? && tokens == [] {
        forall t, e ensures !LegalUnder(x.path, t, e) {
          assert !Lists(edges, t, e);
        }
      } else if x.Search? {
        var t := tokens[0];
        assert t in tokens && Lists(edges, t, edges[t][0]);
      }
    }

    /** A parent that could not be scored goes back to the front. */
    method Rollback(parent: Item)
      requires Waiting() && IsParent(parent)
      modifies this`frontier, this`expanded
      ensures Waiting() && (old(CleanBut(parent)) ==> Clean())
      ensures frontier == [parent] + old(frontier) && expanded == old(expanded) - {KeyOf(parent)}
    {
      hide ItemOk, AtLeast, KeyOf, CleanAre, InputsOk;
      if CleanBut(parent) { FrontierMoves(frontier + [parent], [parent] + frontier); }
      frontier := [parent] + frontier;
      expanded := expanded - {KeyOf(parent)};
    }

    /** A Latin text that agrees with the keys, and what it shows once it covers them. */
    predicate LatinLegal(text: string) {
      |text| <= MAX_LATIN_CHARACTERS && L.IsLatin(text) && L.Comparable(L.Fold(inputs.raw), text)
    }

    function LatinCandidate(text: string, tokenPath: seq<int>, score: real): Candidate {
      Candidate(text, [], |inputs.raw|, L.Fold(text) == L.Fold(inputs.raw), 0, Latin, Neural, tokenPath, score, 0)
    }

    /** One continuation of a Latin path: dropped, or shown if it covers the keys and kept if it may go on. */
    ghost predicate LatinDone(text: string, tokenPath: seq<int>, score: real, seen: set<Identity>, frontier: seq<Item>) {
      LatinLegal(text) && |tokenPath| <= MAX_MODEL_TOKENS ==>
        && (L.Fold(inputs.raw) <= L.Fold(text) ==> IdOf(norm, LatinCandidate(text, tokenPath, score)) in seen)
        && (|tokenPath| < MAX_MODEL_TOKENS && |text| < MAX_LATIN_CHARACTERS ==> LatinPath(text, tokenPath, score) in frontier)
    }

    ghost predicate TokenTried(text: string, tokenPath: seq<int>, score: real, tokens: seq<int>, values: Scores, p: nat, seen: set<Identity>, frontier: seq<Item>)
      requires |values| == |tokens|
    {
      IsFinite(values, p) ==> LatinDone(text + inputs.latinFragment(tokens[p]), tokenPath + [tokens[p]], score + values[p].value, seen, frontier)
    }

    /** A new Latin path, one finite token further. */
    ghost predicate LatinChild(text: string, tokenPath: seq<int>, score: real, tokens: seq<int>, values: Scores, y: Item)
      requires |values| == |tokens|
    {
      exists p: nat :: IsFinite(values, p)
                       && y == LatinPath(text + inputs.latinFragment(tokens[p]), tokenPath + [tokens[p]], score + values[p].value)
    }

    ghost predicate NeuralLatin(c: Candidate) {
      c.kind == Neural && c.script == Latin
    }

    /** A new Latin candidate: the path and one finite token more, Latin, within the length, beginning with
        the keys up to case, of which it consumes all; complete exactly when it is no longer than them. */
    ghost predicate LatinShown(text: string, tokenPath: seq<int>, score: real, tokens: seq<int>, values: Scores, c: Candidate)
      requires |values| == |tokens|
    {
      exists p: nat :: IsFinite(values, p) && LatinSpelt(text + inputs.latinFragment(tokens[p]), tokenPath + [tokens[p]], score + values[p].value, c)
    }

    ghost predicate LatinSpelt(text: string, tokenPath: seq<int>, score: real, c: Candidate) {
      && c.text == text && c.tokenPath == tokenPath && c.score == score && c.kind == Neural && c.script == Latin
      && L.IsLatin(text) && |text| <= MAX_LATIN_CHARACTERS && |tokenPath| <= MAX_MODEL_TOKENS && L.Fold(inputs.raw) <= L.Fold(text)
      && c.consumed == |inputs.raw| && (c.completes <==> |text| == |inputs.raw|) && c.predicted == 0 && c.tier == 0 && c.pinyin == []
    }

    /** No completion of this path is the keys while the literal is shown. */
    ghost predicate Harmless(text: string, tokenPath: seq<int>)
      reads this`pending, this`published
    {
      LiteralShown(published, pending) ==> !Completable(inputs, text, tokenPath)
    }

    /** What a parent that cannot be completed to the keys leads to is not the keys, and cannot either. */
    lemma StaysHarmless(text: string, tokenPath: seq<int>, token: int, score: real)
      requires BoundTo() && token in inputs.latinTokens && !Completable(inputs, text, tokenPath)
      ensures var more, path := text + inputs.latinFragment(token), tokenPath + [token];
              && (LatinLegal(more) && |path| <= MAX_MODEL_TOKENS ==> norm(more) != norm(inputs.raw))
              && !Completable(inputs, more, path)
    {
      hide InputsOk, Completes;
      var more, path := text + inputs.latinFragment(token), tokenPath + [token];
      if LatinLegal(more) && |path| <= MAX_MODEL_TOKENS && norm(more) == norm(inputs.raw) {
        SpellsTheKeys(text, tokenPath, token);
      }
      if tokens :| Completes(inputs, more, path, tokens) {
        GoesOnToTheKeys(text, tokenPath, token, tokens);
      }
    }

    lemma SpellsTheKeys(text: string, tokenPath: seq<int>, token: int)
      requires BoundTo() && token in inputs.latinTokens && |tokenPath| < MAX_MODEL_TOKENS
      requires var more := text + inputs.latinFragment(token); LatinLegal(more) && norm(more) == norm(inputs.raw)
      ensures text + inputs.latinFragment(token) == inputs.raw && Completes(inputs, text, tokenPath, [token])
    {
      assert Spelled(inputs, [token]) == inputs.latinFragment(token) + "";
    }

    lemma GoesOnToTheKeys(text: string, tokenPath: seq<int>, token: int, tokens: seq<int>)
      requires token in inputs.latinTokens && Completes(inputs, text + inputs.latinFragment(token), tokenPath + [token], tokens)
      ensures Completes(inputs, text, tokenPath, [token] + tokens)
    {
      var fragment := inputs.latinFragment(token);
      assert ([token] + tokens)[1..] == tokens && text + (fragment + Spelled(inputs, tokens)) == text + fragment + Spelled(inputs, tokens);
    }

    /** Tokens in the order of their scores: the first of them tried, with what they led to held. */
    ghost predicate LatinWorked(parent: Item, tokens: seq<int>, values: Scores, order: seq<nat>, tried: nat,
                                seen: set<Identity>, expanded: set<PathKey>, frontier: seq<Item>)
      requires parent.LatinPath? && |values| == |tokens|
    {
      && IsScoreOrder(values, order) && tried <= |order| && (order != [] ==> tried > 0)
      && exists queue ::
           && AllHeld(queue, expanded, frontier)
           && forall k :: 0 <= k < tried ==> TokenTried(parent.latinText, parent.latinTokens, parent.latinScore, tokens, values, order[k], seen, queue)
    }

    /** The best finite tokens first, until enough is shown or time is up. */
    method ExpandLatin(text: string, tokenPath: seq<int>, score: real, tokens: seq<int>, values: Scores)
      returns (progressed: nat, ghost order: seq<nat>, ghost tried: nat)
      requires |values| == |tokens| && BoundTo() && tokens == inputs.latinTokens
      modifies this`pending, this`frontier, this`seen
      ensures Gathered(norm, old(pending), pending, reached) && old(seen) <= seen && NewlyShown(old(seen), seen, pending)
      ensures old(Clean()) && old(Harmless(text, tokenPath)) ==> Clean()
      ensures forall x :: x in old(frontier) ==> x in frontier
      ensures forall x :: x in frontier ==> x in old(frontier) || LatinChild(text, tokenPath, score, tokens, values, x)
      ensures forall c :: c in pending ==> c in old(pending) || (NeuralLatin(c) && LatinShown(text, tokenPath, score, tokens, values, c))
      ensures IsScoreOrder(values, order) && tried <= |order| && (order != [] ==> tried > 0)
      ensures forall k :: 0 <= k < tried ==> TokenTried(text, tokenPath, score, tokens, values, order[k], seen, frontier)
    {
      hide CleanAre, Longer, NoneDropped, InputsOk, Harmless, LatinChild, NewlyShown, TokenTried, LatinShown;
      NothingNew(seen, pending);
      Unmoved(norm, pending, reached);
      progressed := 0;
      var finite := FinitePositions(values);
      ghost var sorted := SortedSoonest(values, finite);
      var best := StableSort(ByScore(values), finite);
      order := best;
      var emitted, n := 0, 0;
      while n < |best|
        invariant n <= |best|
        invariant Gathered(norm, old(pending), pending, reached) && old(seen) <= seen && NewlyShown(old(seen), seen, pending)
        invariant old(Clean()) && old(Harmless(text, tokenPath)) ==> Clean() && Harmless(text, tokenPath)
        invariant forall x :: x in old(frontier) ==> x in frontier
        invariant forall x :: x in frontier ==> x in old(frontier) || LatinChild(text, tokenPath, score, tokens, values, x)
        invariant forall c :: c in pending ==> c in old(pending) || (NeuralLatin(c) && LatinShown(text, tokenPath, score, tokens, values, c))
        invariant forall k :: 0 <= k < n ==> TokenTried(text, tokenPath, score, tokens, values, best[k], seen, frontier)
      {
        assert best[n] in finite;
        ghost var before, queue, known := pending, frontier, seen;
        var added, kept := TryToken(text, tokenPath, score, tokens, values, best[n]);
        GatheredTwice(norm, old(pending), before, pending, reached);
        NewlyShownTwice(old(seen), known, before, seen, pending);
        forall k | 0 <= k < n ensures TokenTried(text, tokenPath, score, tokens, values, best[k], seen, frontier) {
          TriedStays(text, tokenPath, score, tokens, values, best[k], known, queue, seen, frontier);
        }
        emitted := emitted + added;
        progressed := progressed + added + kept;
        n := n + 1;
        var timeUp: bool := *;
        if emitted >= MAX_FRONTIER_PER_BUCKET || timeUp { break; }
      }
      tried := n;
    }

    method TryToken(text: string, tokenPath: seq<int>, score: real, tokens: seq<int>, values: Scores, p: nat) returns (added: nat, kept: nat)
      requires |values| == |tokens| && IsFinite(values, p) && BoundTo() && tokens == inputs.latinTokens
      modifies this`pending, this`frontier, this`seen
      ensures Gathered(norm, old(pending), pending, reached) && old(seen) <= seen && NewlyShown(old(seen), seen, pending)
      ensures old(Clean()) && old(Harmless(text, tokenPath)) ==> Clean() && Harmless(text, tokenPath)
      ensures forall x :: x in old(frontier) ==> x in frontier
      ensures forall x :: x in frontier ==> x in old(frontier) || LatinChild(text, tokenPath, score, tokens, values, x)
      ensures forall c :: c in pending ==> c in old(pending) || (NeuralLatin(c) && LatinShown(text, tokenPath, score, tokens, values, c))
      ensures TokenTried(text, tokenPath, score, tokens, values, p, seen, frontier)
    {
      hide CleanAre, Longer, NoneDropped, LatinDone, InputsOk, LiteralShown, Completable, LatinChild, NewlyShown, NotSpelled, LatinShown, LatinSpelt;
      var token := tokens[p];
      assert token in tokens;
      if Harmless(text, tokenPath) { HarmlessToken(text, tokenPath, token); }
      added, kept := TryLatin(text + inputs.latinFragment(token), tokenPath + [token], score + values[p].value);
      NoNewLiteral(published, old(pending), pending);
      IsChild(text, tokenPath, score, tokens, values, p);
      IsShown(text, tokenPath, score, tokens, values, p);
    }

    lemma IsChild(text: string, tokenPath: seq<int>, score: real, tokens: seq<int>, values: Scores, p: nat)
      requires |values| == |tokens| && IsFinite(values, p)
      ensures LatinChild(text, tokenPath, score, tokens, values,
                         LatinPath(text + inputs.latinFragment(tokens[p]), tokenPath + [tokens[p]], score + values[p].value))
    {}

    lemma IsShown(text: string, tokenPath: seq<int>, score: real, tokens: seq<int>, values: Scores, p: nat)
      requires |values| == |tokens| && IsFinite(values, p)
      ensures forall c :: LatinSpelt(text + inputs.latinFragment(tokens[p]), tokenPath + [tokens[p]], score + values[p].value, c) ==>
                LatinShown(text, tokenPath, score, tokens, values, c)
    {}

    lemma HarmlessToken(text: string, tokenPath: seq<int>, token: int)
      requires BoundTo() && token in inputs.latinTokens && Harmless(text, tokenPath)
      ensures NotSpelled(text + inputs.latinFragment(token), tokenPath + [token]) && Harmless(text + inputs.latinFragment(token), tokenPath + [token])
    {
      hide InputsOk, Completable, LatinLegal, LiteralShown;
      if LiteralShown(published, pending) { StaysHarmless(text, tokenPath, token, 0.0); }
    }

    ghost predicate NotSpelled(text: string, tokenPath: seq<int>)
      reads this`pending, this`published
    {
      LiteralShown(published, pending) && LatinLegal(text) && |tokenPath| <= MAX_MODEL_TOKENS ==> norm(text) != norm(inputs.raw)
    }

    lemma TriedStays(text: string, tokenPath: seq<int>, score: real, tokens: seq<int>, values: Scores, p: nat,
                     seen: set<Identity>, frontier: seq<Item>, seen': set<Identity>, frontier': seq<Item>)
      requires |values| == |tokens| && TokenTried(text, tokenPath, score, tokens, values, p, seen, frontier)
      requires seen <= seen' && forall x :: x in frontier ==> x in frontier'
      ensures TokenTried(text, tokenPath, score, tokens, values, p, seen', frontier')
    {
      hide LatinLegal, LatinCandidate;
    }

    method TryLatin(text: string, tokenPath: seq<int>, score: real) returns (added: nat, kept: nat)
      modifies this`pending, this`frontier, this`seen
      ensures Gathered(norm, old(pending), pending, reached) && old(seen) <= seen && NewlyShown(old(seen), seen, pending)
      ensures forall c :: c in pending ==> c in old(pending) || (NeuralLatin(c) && LatinSpelt(text, tokenPath, score, c))
      ensures forall x :: x in frontier ==> x in old(frontier) || (L.IsLatin(text) && |text| < MAX_LATIN_CHARACTERS && |tokenPath| < MAX_MODEL_TOKENS
                                                                   && L.Comparable(L.Fold(inputs.raw), text))
      ensures old(Clean()) && old(NotSpelled(text, tokenPath)) && old(Harmless(text, tokenPath)) ==> Clean()
      ensures forall x :: x in old(frontier) ==> x in frontier
      ensures forall x :: x in frontier ==> x in old(frontier) || x == LatinPath(text, tokenPath, score)
      ensures LatinDone(text, tokenPath, score, seen, frontier)
    {
      hide CleanAre, Completable;
      added, kept := 0, 0;
      if !LatinLegal(text) || |tokenPath| > MAX_MODEL_TOKENS { return; }
      ghost var safe := Clean() && NotSpelled(text, tokenPath) && Harmless(text, tokenPath);
      if L.Fold(inputs.raw) <= L.Fold(text) {
        if safe { SpelledOtherwise(text, tokenPath, score); }
        var isNew := AddRoot(LatinCandidate(text, tokenPath, score));
        added := if isNew then 1 else 0;
      }
      if |tokenPath| < MAX_MODEL_TOKENS && |text| < MAX_LATIN_CHARACTERS {
        if safe { PathJoins(LatinPath(text, tokenPath, score)); }
        frontier := frontier + [LatinPath(text, tokenPath, score)];
        kept := 1;
      }
    }

    lemma SpelledOtherwise(text: string, tokenPath: seq<int>, score: real)
      requires Clean() && LatinLegal(text) && |tokenPath| <= MAX_MODEL_TOKENS && NotSpelled(text, tokenPath)
      ensures var c := LatinCandidate(text, tokenPath, score); Worded(inputs.raw, c) && NotTheKeys(norm, published, pending, IdOf(norm, c))
    {
      hide InputsOk, Unique, SeenCovers, Quiet, LatinLegal;
      var c := LatinCandidate(text, tokenPath, score);
      forall x | (x in published || x in pending) && x.kind == Literal ensures IdOf(norm, x) != IdOf(norm, c) {
        assert x == LiteralCandidate(inputs.raw) && LiteralShown(published, pending);
      }
    }

    lemma PathJoins(x: Item)
      requires Clean() && (LiteralShown(published, pending) && !exhausted ==> QuietItem(inputs, x))
      ensures CleanAre(published, pending, seen, frontier + [x], exhausted)
    {
      hide InputsOk, Unique, SeenCovers, Worded, QuietItem, LiteralShown;
    }

    /** What a scored parent led to: a Han path is worked off from its first position on, and of a
        Latin path at least the best tokens. Seeds that are popped as a parent are scored as an
        empty Latin text; nothing is promised for them. */
    ghost predicate ScoredOff(parent: Item, tokens: seq<int>, edges: map<int, seq<Edge>>, values: Scores,
                              seen: set<Identity>, expanded: set<PathKey>, frontier: seq<Item>)
      requires |values| == |tokens|
    {
      match parent
      case Search(p) =>
        exists positions :: IsScoreOrder(values, positions) && ScoredWork(parent, tokens, values, edges, positions)
                            && WorkedOff(Resume(p, tokens, values, edges, positions, 0), seen, expanded, frontier)
      case LatinPath(_, _, _) => exists order, tried :: LatinWorked(parent, tokens, values, order, tried, seen, expanded, frontier)
      case _ => true
    }

    /** Scoring a parent brings nothing but what its finite tokens lead to, and shows whatever
        becomes known. */
    ghost predicate Growth(parent: Item, tokens: seq<int>, edges: map<int, seq<Edge>>, values: Scores, known: set<Identity>, was: seq<Item>,
                           waiting: seq<Candidate>, pending: seq<Candidate>, seen: set<Identity>, frontier: seq<Item>)
      requires |values| == |tokens|
    {
      && NewlyShown(known, seen, pending)
      && if parent.Search?
         then exists positions, next ::
                && IsScoreOrder(values, positions) && ScoredWork(parent, tokens, values, edges, positions)
                && SliceBrings(Resume(parent.path, tokens, values, edges, positions, 0), next, was, frontier, waiting, pending)
         else && (exists text, path, score ::
                    && (parent.LatinPath? ==> parent == LatinPath(text, path, score)) && (!parent.LatinPath? ==> text == "" && path == [])
                    && LatinBrings(text, path, score, tokens, values, was, frontier))
              && forall c :: c in pending ==> c in waiting || NeuralLatin(c)
    }

    ghost predicate LatinBrings(text: string, path: seq<int>, score: real, tokens: seq<int>, values: Scores, was: seq<Item>, frontier: seq<Item>)
      requires |values| == |tokens|
    {
      forall y :: y in frontier ==> y in was || LatinChild(text, path, score, tokens, values, y)
    }

    /** Expand a parent that has just been scored. */
    method ExpandScored(parent: Item, tokens: seq<int>, edges: map<int, seq<Edge>>, values: Scores) returns (progressed: nat)
      requires Waiting() && !exhausted && IsParent(parent) && |values| == |tokens| && Handed(parent, tokens, edges)
      modifies this`pending, this`seen, this`frontier
      ensures FrontierOk(Typed(), frontier, expanded, reached) && OneRemainder(frontier)
      ensures Gathered(norm, old(pending), pending, reached) && (old(CleanBut(parent)) ==> Clean())
      ensures old(seen) <= seen && forall y :: y in old(frontier) ==> Carried(y, seen, expanded, frontier)
      ensures ScoredOff(parent, tokens, edges, values, seen, expanded, frontier)
      ensures Growth(parent, tokens, edges, values, old(seen), old(frontier), old(pending), pending, seen, frontier)
    {
      hide SliceBrings,  PathOk, PathAtLeast, EdgeOf, CleanAre, NoneDropped, Held, PlanHeld, KeyOf, SliceDone, LegalUnder, IsScoreOrder, WorkedOff,
           ResumeOk, NoneExpanded, InputsOk, LatinChild, TokenTried, NewlyShown;
      ghost var positions: seq<nat>, order: seq<nat>, next: nat, tried: nat := [], [], 0, 0;
      ghost var latin: (string, seq<int>, real) := ("", [], 0.0);
      if CleanBut(parent) { ParentOff(parent); }
      if parent.Search? {
        var ranked := StableBoundedScorePositions(values, MAX_FRONTIER_PER_BUCKET);
        WorkIsOk(parent, tokens, values, edges, ranked);
        progressed, next := ExpandHanConstrained(Resume(parent.path, tokens, values, edges, ranked, 0));
        OneLeft(Resume(parent.path, tokens, values, edges, ranked, 0), next, old(frontier), frontier, old(pending), pending);
        positions := ranked;
      } else {
        var text: string, path: seq<int>, score: real := "", [], *;
        if parent.LatinPath? { text, path, score := parent.latinText, parent.latinTokens, parent.latinScore; }
        progressed, order, tried := ExpandLatin(text, path, score, tokens, values);
        ChildrenAreLatin(frontier, old(frontier), text, path, score, tokens, values);
        latin := (text, path, score);
      }
      ghost var middle, queue, known := pending, frontier, seen;
      PruneFrontier();
      GatheredTwice(norm, old(pending), middle, pending, reached);
      assert forall y :: y in old(frontier) ==> y in queue;
      if parent.Search? {
        QueueHeld(queue, seen, expanded, frontier, Resume(parent.path, tokens, values, edges, positions, 0), next, known);
        FewerBrought(Resume(parent.path, tokens, values, edges, positions, 0), next, old(frontier), queue, frontier, old(pending), pending);
      } else if parent.LatinPath? {
        assert AllHeld(queue, expanded, frontier);
        assert LatinWorked(parent, tokens, values, order, tried, seen, expanded, frontier);
      }
      if !parent.Search? { assert LatinBrings(latin.0, latin.1, latin.2, tokens, values, old(frontier), frontier); }
    }

    /** The parent alone leaves the frontier in order, and is harmless. */
    lemma ParentOff(parent: Item)
      requires CleanBut(parent) && !exhausted
      ensures Clean()
      ensures parent.LatinPath? ==> Harmless(parent.latinText, parent.latinTokens)
      ensures parent.RootSeeds? ==> Harmless("", [])
    {
      hide InputsOk, Unique, SeenCovers, Worded, Completable, LiteralShown;
      assert parent in frontier + [parent];
      FrontierMoves(frontier + [parent], frontier);
    }

    lemma ChildrenAreLatin(after: seq<Item>, before: seq<Item>, text: string, path: seq<int>, score: real, tokens: seq<int>, values: Scores)
      requires |values| == |tokens| && forall x :: x in after ==> x in before || LatinChild(text, path, score, tokens, values, x)
      ensures forall x :: x in after ==> x in before || x.LatinPath?
    {}

    /** A freshly scored parent is well-formed work, from its first position on. */
    ghost predicate ScoredWork(parent: Item, tokens: seq<int>, values: Scores, edges: map<int, seq<Edge>>, positions: seq<nat>) {
      parent.Search? && ItemOk(Typed(), Resume(parent.path, tokens, values, edges, positions, 0))
    }

    lemma WorkIsOk(parent: Item, tokens: seq<int>, values: Scores, edges: map<int, seq<Edge>>, positions: seq<nat>)
      requires BoundTo() && parent.Search? && ItemOk(Typed(), parent) && AtLeast(parent, reached) && |values| == |tokens|
      requires Handed(parent, tokens, edges) && IsScoreOrder(values, positions)
      ensures ScoredWork(parent, tokens, values, edges, positions)
      ensures AtLeast(Resume(parent.path, tokens, values, edges, positions, 0), reached)
    {
      hide LegalUnder, EdgeOf, PathOk, PathAtLeast, InputsOk;
      forall q | q in positions ensures IsFinite(values, q) && tokens[q] in edges {
        var token := tokens[q];
        assert token in tokens;
      }
      forall t | t in edges ensures forall e :: e in edges[t] ==> EdgeOf(Typed(), parent.path, e) && Under(parent.path, t, e) {
        forall e | e in edges[t] ensures EdgeOf(Typed(), parent.path, e) && Under(parent.path, t, e) {
          assert Lists(edges, t, e);
          UnderIsEdge(parent.path, t, e);
        }
      }
    }

    lemma UnderIsEdge(p: HanPath, t: int, e: Edge)
      requires BoundTo() && PathOk(Typed(), p) && LegalUnder(p, t, e)
      ensures EdgeOf(Typed(), p, e) && Under(p, t, e)
    {
      hide InputsOk, LegalEdge, EdgeOf;
      LegalIsEdge(p, e);
      NextIsInside(p);
    }

    lemma NextIsInside(p: HanPath)
      requires PathOk(Typed(), p)
      ensures TokenIndex(p) == Inside(p)
    {
      hide Goes, ChainOk;
      var chain :| ChainOk(Typed(), chain) && Spelt(Typed(), chain, p);
    }

    /** An answer with one value per token. */
    predicate Usable(answer: Answer, tokens: seq<int>) {
      answer.Scored? && |answer.values| == |tokens|
    }

    /** Ask the scorer; without a usable answer the parent goes back, and an error is passed on. */
    method Attempt(parent: Item, tokens: seq<int>, edges: map<int, seq<Edge>>, answer: Answer) returns (progressed: Option<nat>)
      requires Waiting() && !exhausted && IsParent(parent) && Handed(parent, tokens, edges)
      modifies this`pending, this`seen, this`frontier, this`expanded, this`exhausted
      ensures FrontierOk(Typed(), frontier, expanded, reached) && OneRemainder(frontier) && NoneExpanded(expanded)
      ensures Gathered(norm, old(pending), pending, reached) && (old(CleanBut(parent)) ==> Clean()) && old(seen) <= seen
      ensures exhausted ==> frontier == []
      ensures !Usable(answer, tokens) ==>
                && progressed == (if answer.Unanswered? then Some(0) else None)
                && pending == old(pending) && seen == old(seen)
                && frontier == [parent] + old(frontier) && expanded == old(expanded) - {KeyOf(parent)}
      ensures Usable(answer, tokens) ==>
                && progressed.Some? && expanded == old(expanded)
                && (forall y :: y in old(frontier) ==> Carried(y, seen, expanded, frontier))
                && ScoredOff(parent, tokens, edges, answer.values, seen, expanded, frontier)
                && Growth(parent, tokens, edges, answer.values, old(seen), old(frontier), old(pending), pending, seen, frontier)
      ensures Traced(old(frontier) + [parent], old(pending), frontier, pending)
    {
      hide Traced, ItemOk, AtLeast, EdgeOf, CleanAre, KeyOf, Handed, NoneDropped, Carried, ScoredOff, Growth, InputsOk;
      Unmoved(norm, pending, reached);
      if !Usable(answer, tokens) {
        Rollback(parent);
        NoneIsOne(frontier);
        TracedHere(old(frontier) + [parent], pending, frontier, pending);
        return if answer.Unanswered? then Some(0) else None;
      }
      var steps := ExpandScored(parent, tokens, edges, answer.values);
      GrowthTraced(parent, tokens, edges, answer.values, old(seen), old(frontier), old(pending), pending, seen, frontier);
      if frontier == [] {
        if Clean() { EndsClean(true); }
        exhausted := true;
      }
      progressed := Some(steps);
    }

    lemma NoneIsOne(frontier: seq<Item>)
      requires NoRemainder(frontier)
      ensures OneRemainder(frontier) && LoneRemainder(frontier)
    {}

    /** How many popped items stay expanded: all but a parent that went back. */
    function Spent(step: Step): nat
      requires step.Popped? && (step.parent.Some? ==> step.count > 0)
    {
      if step.parent.Some? && !Usable(step.answer, step.tokens) then step.count - 1 else step.count
    }

    /** A step that needed the scorer. Of the ordered frontier, `queue`, barren items and then one
        parent are popped, and exactly they become expanded. */
    ghost predicate PoppedOk(step: Step, scorer: Scorer, before: seq<Item>, known: set<PathKey>,
                             seen: set<Identity>, expanded: set<PathKey>, frontier: seq<Item>, exhausted: bool)
      requires step.Popped?
    {
      && inputs.hasRoot && NothingToResume(before, known) && QueueOk(step.queue, before, known, seen)
      && Popping(step.queue, step.count, step.parent) && expanded == known + KeysOf(step.queue[..Spent(step)])
      && match step.parent
         case None => frontier == [] && exhausted
         case Some(parent) => ParentOk(step, parent, scorer, seen, expanded, frontier)
    }

    /** The ordered frontier: its keys differ and are new, and it carries on whatever waited. */
    ghost predicate QueueOk(queue: seq<Item>, before: seq<Item>, known: set<PathKey>, seen: set<Identity>) {
      && KeysDiffer(queue) && Ranked(inputs.itemRank, queue) && (forall x :: x in queue ==> KeyOf(x) !in known)
      && (forall x :: x in before ==> Carried(x, seen, known, queue))
      && ((forall x :: x in before ==> !x.Deferred?) ==> forall x :: x in queue ==> x in before)
    }

    /** The parent was scored and led on, with the rest of the queue carried on; or it went back in front. */
    ghost predicate ParentOk(step: Step, parent: Item, scorer: Scorer, seen: set<Identity>, expanded: set<PathKey>, frontier: seq<Item>)
      requires step.Popped? && 0 < step.count <= |step.queue|
    {
      && Handed(parent, step.tokens, step.edges) && step.answer == scorer(parent, step.tokens)
      && if !Usable(step.answer, step.tokens) then frontier == step.queue[step.count - 1..]
         else && ScoredOff(parent, step.tokens, step.edges, step.answer.values, seen, expanded, frontier)
              && forall y :: y in step.queue[step.count..] ==> Carried(y, seen, expanded, frontier)
    }

    /** One step; None when the scorer raised. Whatever happens, every Han candidate that appears is
        in no shorter bucket than anything counted and frozen so far, no waiting candidate is lost
        and no remainder is dropped; `step` says what became of the frontier. */
    method ExpandOneFrontier(scorer: Scorer) returns (progressed: Option<nat>, ghost step: Step)
      requires OrderOk() && !exhausted
      modifies this`pending, this`seen, this`frontier, this`expanded, this`exhausted
      ensures OrderOk() && Gathered(norm, old(pending), pending, reached) && (old(Clean()) ==> Clean()) && old(seen) <= seen
      ensures inputs.hasRoot ==>
                forall f, c :: f in published && Counted(f) && c in pending && c !in old(pending) && c.script == Han ==> f.predicted <= c.predicted
      ensures forall x :: x in old(frontier) && x.Resume? ==> x in frontier || step == Resumed(x)
      ensures Traced(old(frontier), old(pending), frontier, pending)
      ensures progressed.None? && Chinese() && old(HanSorted(pending)) ==> HanSorted(pending)
      ensures match step
              case Resumed(x) => progressed.Some? && expanded == old(expanded) && ResumedOk(x, old(frontier), expanded, seen, frontier)
              case Ended => (old(frontier) == [] || !inputs.hasRoot) && exhausted
                            && frontier == old(frontier) && expanded == old(expanded) && pending == old(pending) && seen == old(seen)
              case Popped(_, _, _, _, _, _) =>
                PoppedOk(step, scorer, old(frontier), old(expanded), seen, expanded, frontier, exhausted)
                && StepBrings(step, old(frontier), old(seen), old(pending), pending, seen, frontier)
    {
      hide Traced, ItemOk, AtLeast, CleanAre, NoneDropped, KeyOf, Carried, InputsOk, HanSorted, NoneExpanded, OneRemainder, HoldsBack, ResumedOk,
           PoppedOk, StepBrings;
      var resumed: bool, steps: nat;
      ghost var worked: Option<Item>;
      resumed, steps, worked := ResumeScored();
      if resumed {
        AllCarried(worked.value, old(frontier), expanded, seen, frontier);
        return Some(steps), Resumed(worked.value);
      }
      if frontier == [] || !inputs.hasRoot {
        if Clean() { EndsClean(true); }
        TracedHere(frontier, pending, frontier, pending);
        exhausted := true;
        return Some(0), Ended;
      }
      progressed, step := PopAndScore(scorer);
    }

    /** The step with a scorer: prune, pop a parent, score it. */
    method PopAndScore(scorer: Scorer) returns (progressed: Option<nat>, ghost step: Step)
      requires OrderOk() && !exhausted && inputs.hasRoot && NothingToResume(frontier, expanded)
      modifies this`pending, this`seen, this`frontier, this`expanded, this`exhausted
      ensures OrderOk() && Gathered(norm, old(pending), pending, reached) && (old(Clean()) ==> Clean()) && old(seen) <= seen
      ensures progressed.None? && Chinese() && old(HanSorted(pending)) ==> HanSorted(pending)
      ensures step.Popped? && PoppedOk(step, scorer, old(frontier), old(expanded), seen, expanded, frontier, exhausted)
      ensures StepBrings(step, old(frontier), old(seen), old(pending), pending, seen, frontier)
      ensures Traced(old(frontier), old(pending), frontier, pending)
    {
      hide Traced, ItemOk, AtLeast, EdgeOf, CleanAre, NoneDropped, KeyOf, Held, PlanHeld, Handed, Carried, InputsOk, HanSorted, KeysDiffer, KeysOf,
           Ranked, ScoredOff, Growth, NoneExpanded, Barren, HoldsBack, AllBarren, OneRemainder, LoneRemainder, Longer, IsParent, Gathered;
      OneIsLone(frontier);
      PruneFrontier();
      ghost var middle, queue, known := pending, frontier, seen;
      assert QueueOk(queue, old(frontier), old(expanded), known) by { UnexpandedKeys(queue); }
      hide QueueOk;
      var parent: Option<Item>, tokens: seq<int>, edges: map<int, seq<Edge>>;
      ghost var count: nat;
      parent, tokens, edges, count := PopParent();
      if parent.None? {
        QueueClean(queue, frontier, true);
        NoneIsOne(frontier);
        TracedHere(queue, pending, frontier, pending);
        TracedTwice(old(frontier), old(pending), queue, pending, frontier, pending);
        exhausted := true;
        return Some(0), Popped(queue, count, None, [], map[], Unanswered);
      }
      QueueClean(queue, frontier + [parent.value], exhausted);
      ghost var parts := frontier + [parent.value];
      TracedHere(queue, pending, parts, pending);
      TracedTwice(old(frontier), old(pending), queue, pending, parts, pending);
      var answer := scorer(parent.value, tokens);
      progressed := Attempt(parent.value, tokens, edges, answer);
      TracedTwice(old(frontier), old(pending), parts, middle, frontier, pending);
      GatheredTwice(norm, old(pending), middle, pending, reached);
      step := Popped(queue, count, parent, tokens, edges, answer);
      QueueStaysOk(queue, old(frontier), old(expanded), known, seen);
      SpentKeys(step, old(frontier), old(expanded), seen, expanded);
      assert ParentOk(step, parent.value, scorer, seen, expanded, frontier);
    }

    lemma UnexpandedKeys(queue: seq<Item>)
      requires FrontierOk(Typed(), queue, expanded, reached)
      ensures forall x :: x in queue ==> KeyOf(x) !in expanded
    {}

    lemma QueueStaysOk(queue: seq<Item>, before: seq<Item>, known: set<PathKey>, seen: set<Identity>, seen': set<Identity>)
      requires QueueOk(queue, before, known, seen) && seen <= seen'
      ensures QueueOk(queue, before, known, seen')
    {
      hide Carried, KeyOf, Ranked, KeysDiffer;
      StillCarried(before, seen, known, queue, seen');
    }

    lemma AllCarried(x: Item, before: seq<Item>, expanded: set<PathKey>, seen: set<Identity>, frontier: seq<Item>)
      requires ResumedOk(x, before, expanded, seen, frontier)
      ensures forall y :: y in before && y.Resume? ==> y in frontier || y == x
    {
      hide Carried, WorkedOff;
    }

    /** Popping items leaves nothing that could be completed to the keys. */
    lemma QueueClean(queue: seq<Item>, after: seq<Item>, ends: bool)
      requires (exhausted ==> ends) && forall x :: x in after ==> x in queue
      ensures CleanAre(published, pending, seen, queue, exhausted) ==> CleanAre(published, pending, seen, after, ends)
    {
      hide InputsOk, Unique, SeenCovers, Worded, QuietItem, LiteralShown;
    }

    /** The parent leaves the expanded keys again when it goes back. */
    lemma SpentKeys(step: Step, before: seq<Item>, known: set<PathKey>, seen: set<Identity>, expanded: set<PathKey>)
      requires step.Popped? && QueueOk(step.queue, before, known, seen) && Popping(step.queue, step.count, step.parent) && step.parent.Some?
      requires expanded == known + KeysOf(step.queue[..step.count]) - if Usable(step.answer, step.tokens) then {} else {KeyOf(step.parent.value)}
      ensures expanded == known + KeysOf(step.queue[..Spent(step)])
    {
      hide KeyOf, Barren, Carried, Ranked;
      var n := step.count - 1;
      OneMore(step.queue, n);
      NotPopped(step.queue, known, n);
    }

    /** While no plan is deferred, a step brings what scoring its parent brings, and nothing else. */
    ghost predicate StepBrings(step: Step, before: seq<Item>, known: set<Identity>, waiting: seq<Candidate>,
                               pending: seq<Candidate>, seen: set<Identity>, frontier: seq<Item>)
      requires step.Popped?
    {
      (forall x :: x in before ==> !x.Deferred?) ==>
        if step.parent.Some? && Usable(step.answer, step.tokens)
        then step.count <= |step.queue|
             && Growth(step.parent.value, step.tokens, step.edges, step.answer.values, known, step.queue[step.count..], waiting, pending, seen, frontier)
        else pending == waiting && seen == known
    }

    /** A scorer that refuses the empty path, as the runtime does, loses seeds only where there are no
        Latin tokens; else the step raises, and the seeds go back. */
    lemma SeedsLostWhenRefused(step: Step, scorer: Scorer, before: seq<Item>, known: set<PathKey>,
                               seen: set<Identity>, expanded: set<PathKey>, frontier: seq<Item>, exhausted: bool, i: nat)
      requires step.Popped? && PoppedOk(step, scorer, before, known, seen, expanded, frontier, exhausted)
      requires i < |step.queue| && step.queue[i].RootSeeds? && forall x: Item, tokens :: x.RootSeeds? ==> scorer(x, tokens) == Raised
      ensures KeyOf(step.queue[i]) in expanded <==> inputs.latinTokens == [] && AllBarren(step.queue[..i])
      ensures inputs.latinTokens != [] && AllBarren(step.queue[..i]) ==> step.queue[i] in frontier
    {
      hide KeyOf, Carried, ScoredOff, Ranked, KeysDiffer, QueueOk;
      SeedsLostExactly(step, scorer, before, known, seen, expanded, frontier, exhausted, i);
      if inputs.latinTokens != [] && AllBarren(step.queue[..i]) {
        assert !Barren(step.queue[i]) && step.queue[i] in step.queue;
        FirstFruitful(step.queue, i, step.count, step.parent);
        assert step.queue[step.count - 1..][0] == step.queue[i];
      }
    }

    /** Behind barren items only, an item that is not barren is the parent. */
    lemma FirstFruitful(queue: seq<Item>, i: nat, count: nat, parent: Option<Item>)
      requires Popping(queue, count, parent) && i < |queue| && AllBarren(queue[..i]) && !Barren(queue[i])
      ensures count == i + 1 && parent == Some(queue[i])
    {
      hide Barren;
      assert queue[i] in queue;
      if parent.Some? {
        StandsBefore(queue, i, count - 1);
        StandsBefore(queue, count - 1, i);
      }
    }

    lemma StandsBefore(queue: seq<Item>, i: nat, n: nat)
      requires i < |queue| && n <= |queue|
      ensures i < n ==> queue[i] in queue[..n]
    {
      if i < n { assert queue[..n][i] == queue[i]; }
    }

    lemma StillCarried(items: seq<Item>, seen: set<Identity>, expanded: set<PathKey>, frontier: seq<Item>, seen': set<Identity>)
      requires forall x :: x in items ==> Carried(x, seen, expanded, frontier)
      requires seen <= seen'
      ensures forall x :: x in items ==> Carried(x, seen', expanded, frontier)
    {
      hide KeyOf, Held, SeedsOf, RootCandidate, Materialized;
      forall x | x in items ensures Carried(x, seen', expanded, frontier) {
        assert Carried(x, seen, expanded, frontier);
        if x.Deferred? && x !in frontier {
          var id, records :| Realised(x, records, seen) && AllHeld(Materialized(id, records, 0), expanded, frontier);
          assert Realised(x, records, seen') && AllHeld(Materialized(id, records, 0), expanded, frontier);
        }
      }
    }

    /** Root seeds of the queue are lost, marked as expanded although they were never taken up, exactly
        when nothing ranked before them has anything to hand out, and they have nothing either or
        the scorer answers for them, whose path is empty. */
    lemma SeedsLostExactly(step: Step, scorer: Scorer, before: seq<Item>, known: set<PathKey>,
                           seen: set<Identity>, expanded: set<PathKey>, frontier: seq<Item>, exhausted: bool, i: nat)
      requires step.Popped? && PoppedOk(step, scorer, before, known, seen, expanded, frontier, exhausted)
      requires i < |step.queue| && step.queue[i].RootSeeds?
      ensures KeyOf(step.queue[i]) in expanded <==>
                && AllBarren(step.queue[..i])
                && (inputs.latinTokens == [] || Usable(scorer(step.queue[i], inputs.latinTokens), inputs.latinTokens))
    {
      hide KeyOf, Carried, ScoredOff, Ranked;
      var queue, n := step.queue, Spent(step);
      BarrenAsFar(queue, step.count, step.parent, i);
      hide Barren, AllBarren, Popping;
      if i < n {
        StandsBefore(queue, i, n);
      } else {
        assert forall x :: x in queue[..n] ==> x in queue[..i];
        NotPopped(queue, known, i);
      }
    }

    /** What stands before root seeds in the queue is barren unless the parent is there. */
    lemma BarrenAsFar(queue: seq<Item>, count: nat, parent: Option<Item>, i: nat)
      requires Popping(queue, count, parent) && i < |queue| && queue[i].RootSeeds?
      ensures AllBarren(queue[..i]) <==> parent.None? || i < count
      ensures parent.None? || i < count - 1 ==> inputs.latinTokens == []
      ensures parent.None? ==> count == |queue|
      ensures parent.Some? && i == count - 1 ==> parent.value == queue[i]
    {
      var barren := if parent.Some? then count - 1 else count;
      assert AllBarren(queue[..barren]) by { if parent.None? { assert queue[..count] == queue; } }
      if i < barren { StandsBefore(queue, i, barren); }
      if i <= barren {
        forall x | x in queue[..i] ensures x in queue[..barren] {
          var j :| 0 <= j < i && queue[j] == x;
          StandsBefore(queue, j, barren);
        }
      } else {
        StandsBefore(queue, count - 1, i);
      }
    }

    /** Later pages are prepared: deferred plans are realised first, and without a continuation root
        the search ends there. */
    method PrepareSearch()
      requires OrderOk()
      modifies this`pending, this`seen, this`frontier, this`exhausted
      ensures OrderOk() && Gathered(norm, old(pending), pending, reached) && (old(Clean()) ==> Clean()) && old(seen) <= seen
      ensures forall x :: x in frontier ==> !x.Deferred?
      ensures forall x :: x in old(frontier) ==> Carried(x, seen, expanded, frontier) && (x.Resume? ==> x in frontier)
      ensures (exists x :: x in old(frontier) && x.Deferred?) ==> (exhausted <==> old(exhausted) || !inputs.hasRoot)
      ensures (forall x :: x in old(frontier) ==> !x.Deferred?) ==> unchanged(this)
      ensures old(Buckets()) ==> Buckets()
      ensures forall x :: x in frontier ==> x in old(frontier) || Planned(old(frontier), x)
      ensures forall c :: c in pending ==> c in old(pending) || PlanShows(old(frontier), c)
      ensures Traced(old(frontier), old(pending), frontier, pending) && NewlyShown(old(seen), seen, pending)
    {
      hide NewlyShown, Planned, PlanShows, Traced, ItemOk, AtLeast, CleanAre, NoneDropped, KeyOf, PlanHeld, InputsOk, HanSorted, NoneExpanded,
           BucketsAre, NoneLonger, Longer;
      BucketsSorted();
      Unmoved(norm, pending, reached);
      if exists i :: 0 <= i < |frontier| && frontier[i].Deferred? {
        OneIsLone(frontier);
        PruneFrontier();
        if !inputs.hasRoot {
          if Clean() { EndsClean(true); }
          exhausted := true;
        }
        SearchedBuckets(old(pending));
      } else {
        SelfHeld();
        NothingNew(seen, pending);
        TracedHere(frontier, pending, frontier, pending);
      }
    }

    lemma SelfHeld()
      ensures forall x :: x in frontier ==> Carried(x, seen, expanded, frontier)
    {
      hide KeyOf, PlanHeld;
      forall x | x in frontier ensures Held(KeyOf(x), expanded, frontier) {}
    }

    // Freezing.

    /** The waiting candidates that may be frozen now. */
    function Freezable(): seq<Candidate>
      reads this`pending, this`frontier, this`expanded, this`exhausted, this`frozen
    {
      Filter(RipeNow(), pending)
    }

    /** Whether a waiting candidate may be frozen now. */
    function RipeNow(): Candidate -> bool
      reads this`frontier, this`expanded, this`exhausted, this`frozen
    {
      MayFreeze(if exhausted then None else MinimumFuture(frontier, expanded, inputs.hasRoot), 0 !in frozen, Chinese())
    }

    /** Freezable counted candidates are in no longer bucket than the frontier can produce. */
    lemma FreezableIsShort(c: Candidate)
      requires OrderOk() && inputs.hasRoot && c in Freezable() && Counted(c)
      ensures forall x :: x in frontier ==> AtLeast(x, c.predicted)
    {
      hide ItemOk, AtLeast, KeyOf;
      forall x | x in frontier ensures AtLeast(x, c.predicted) {
        if x.LatinPath? || c.predicted == 0 {
          AtLeastZero(x, c.predicted);
        } else {
          assert c.predicted < MinimumFuture(frontier, expanded, inputs.hasRoot).value;
          BelowBucket(Typed(), x, c.predicted);
        }
      }
    }

    /** Something on the frontier may still bring a candidate of this bucket or a shorter one. */
    ghost predicate MayBringAsShort(predicted: nat)
      reads this`frontier, this`expanded
    {
      exists x :: x in frontier && Expandable(x, expanded, inputs.hasRoot) && Bucket(x) <= predicted
    }

    /** Exactly what may be frozen. In Chinese mode a Han candidate must be a whole input, and nothing as
        short may still come, unless it is lexical, or in the first bucket before page zero; in Latin
        mode a whole-input Han candidate waits for what is as short, and nothing else waits. */
    lemma FreezableExactly(c: Candidate)
      ensures c in Freezable() <==>
                && c in pending
                && (c.script == Han && Chinese() ==> c.completes)
                && (c.script == Han && c.completes && !exhausted && MayBringAsShort(c.predicted) ==>
                      Chinese() && (c.kind == Lexical || (c.predicted == 0 && 0 !in frozen)))
    {
      hide Bucket, KeyOf;
      var least := MinimumFuture(frontier, expanded, inputs.hasRoot);
      if least.Some? {
        var x :| x in frontier && Expandable(x, expanded, inputs.hasRoot) && Bucket(x) == least.value;
      }
    }

    // What an item can lead to.

    /** A path one token further, by an edge that it may take. */
    ghost predicate StepsTo(p: HanPath, q: HanPath) {
      || (exists token, score, e :: EdgeOf(Typed(), p, e) && Under(p, token, e) && Finishes(p, e) && q == Extended(p, token, score, e))
      || (exists token, score, options ::
            && options != [] && (forall o :: o in options ==> EdgeOf(Typed(), p, o) && Under(p, token, o) && StaysInside(p, o))
            && q == Fragment(p, token, score, options))
    }

    ghost predicate ShownBy(p: HanPath, c: Candidate) {
      exists token, score, e :: EdgeOf(Typed(), p, e) && Under(p, token, e) && Finishes(p, e) && c == CandidateAt(Extended(p, token, score, e))
    }

    /** What taking an item up may put on the frontier. */
    ghost predicate LeadsTo(x: Item, y: Item) {
      match x
      case Search(p) => (y.Search? && StepsTo(p, y.path)) || (y.Resume? && y.path == p && ItemOk(Typed(), y))
      case Resume(p, _, _, _, _, _) => (y.Search? && StepsTo(p, y.path)) || (y.Resume? && y.path == p && ItemOk(Typed(), y))
      case RootSeeds(id, records, at) =>
        y.LatinPath? || (at <= |records| && exists n: nat :: at <= n <= |records| && y in Materialized(id, records, n))
      case Deferred(_, roots) => exists id: nat, records :: SeedsOf(roots, records) && y in Materialized(id, records, 0)
      case LatinPath(_, _, _) => y.LatinPath?
    }

    /** What taking an item up may show. */
    ghost predicate Shows(x: Item, c: Candidate) {
      match x
      case Search(p) => ShownBy(p, c)
      case Resume(p, _, _, _, _, _) => ShownBy(p, c)
      case RootSeeds(_, _, _) => c.script == Latin
      case Deferred(_, roots) => exists r :: r in roots && R.Eligible(r) && c == RootCandidate(r)
      case LatinPath(_, _, _) => c.script == Latin
    }

    /** A candidate that at most n + 1 steps from an item can show. */
    ghost predicate CanYield(x: Item, c: Candidate, n: nat)
      decreases n
    {
      Shows(x, c) || (n > 0 && exists y :: LeadsTo(x, y) && CanYield(y, c, n - 1))
    }

    lemma StepAtLeast(p: HanPath, q: HanPath, b: nat)
      requires PathOk(Typed(), p) && PathAtLeast(p, b) && StepsTo(p, q)
      ensures PathOk(Typed(), q) && PathAtLeast(q, b)
    {
      hide Finishes, StaysInside, EdgeOf, Under, Extended, Fragment, PathOk, PathAtLeast;
      if token, score, e :| EdgeOf(Typed(), p, e) && Under(p, token, e) && Finishes(p, e) && q == Extended(p, token, score, e) {
        ExtendedPathOk(Typed(), p, token, score, e, b);
      } else {
        var token, score, options :|
          && options != [] && (forall o :: o in options ==> EdgeOf(Typed(), p, o) && Under(p, token, o) && StaysInside(p, o))
          && q == Fragment(p, token, score, options);
        FragmentPathOk(Typed(), p, token, score, options, b);
      }
    }

    // Where what appears comes from.

    /** y is n steps from x. */
    ghost predicate Reaches(x: Item, y: Item, n: nat)
      decreases n
    {
      if n == 0 then x == y else exists z :: LeadsTo(x, z) && Reaches(z, y, n - 1)
    }

    ghost predicate Descends(items: seq<Item>, y: Item) {
      exists x, n: nat :: x in items && Reaches(x, y, n)
    }

    ghost predicate Yielded(items: seq<Item>, c: Candidate) {
      exists x, n: nat :: x in items && CanYield(x, c, n)
    }

    /** Whatever is on the frontier now descends from what was, and whatever neural candidate is new
        is one that the old frontier could yield. */
    ghost predicate Traced(was: seq<Item>, shown: seq<Candidate>, frontier: seq<Item>, pending: seq<Candidate>) {
      && (forall y :: y in frontier ==> Descends(was, y))
      && (forall c :: c in pending ==> c in shown || c.kind != Neural || Yielded(was, c))
    }

    lemma {:induction false} ReachesTwice(x: Item, y: Item, z: Item, m: nat, n: nat)
      requires Reaches(x, y, m) && Reaches(y, z, n)
      ensures Reaches(x, z, m + n)
      decreases m
    {
      hide LeadsTo;
      if m > 0 {
        var w :| LeadsTo(x, w) && Reaches(w, y, m - 1);
        ReachesTwice(w, y, z, m - 1, n);
      }
    }

    lemma {:induction false} ReachesYield(x: Item, y: Item, c: Candidate, m: nat, n: nat)
      requires Reaches(x, y, m) && CanYield(y, c, n)
      ensures CanYield(x, c, m + n)
      decreases m
    {
      hide LeadsTo, Shows;
      if m > 0 {
        var w :| LeadsTo(x, w) && Reaches(w, y, m - 1);
        ReachesYield(w, y, c, m - 1, n);
      }
    }

    lemma TracedTwice(a: seq<Item>, p: seq<Candidate>, b: seq<Item>, q: seq<Candidate>, c: seq<Item>, r: seq<Candidate>)
      requires Traced(a, p, b, q) && Traced(b, q, c, r)
      ensures Traced(a, p, c, r)
    {
      hide Reaches, CanYield;
      forall z | z in c ensures Descends(a, z) {
        var y, n: nat :| y in b && Reaches(y, z, n);
        var x, m: nat :| x in a && Reaches(x, y, m);
        ReachesTwice(x, y, z, m, n);
      }
      forall d | d in r && d !in p && d.kind == Neural ensures Yielded(a, d) {
        if d !in q {
          var y, n: nat :| y in b && CanYield(y, d, n);
          var x, m: nat :| x in a && Reaches(x, y, m);
          ReachesYield(x, y, d, m, n);
        }
      }
    }

    ghost predicate LedTo(items: seq<Item>, y: Item) {
      exists x :: x in items && LeadsTo(x, y)
    }

    ghost predicate ShownFrom(items: seq<Item>, c: Candidate) {
      exists x :: x in items && Shows(x, c)
    }

    /** One step from what was. */
    lemma TracedOnce(was: seq<Item>, shown: seq<Candidate>, frontier: seq<Item>, pending: seq<Candidate>)
      requires forall y :: y in frontier ==> y in was || LedTo(was, y)
      requires forall c :: c in pending ==> c in shown || c.kind != Neural || ShownFrom(was, c)
      ensures Traced(was, shown, frontier, pending)
    {
      hide LeadsTo, Shows;
      forall y | y in frontier ensures Descends(was, y) {
        if y in was {
          assert Reaches(y, y, 0);
        } else {
          var x :| x in was && LeadsTo(x, y);
          assert Reaches(y, y, 0);
          assert Reaches(x, y, 1);
        }
      }
      forall c | c in pending && c !in shown && c.kind == Neural ensures Yielded(was, c) {
        var x :| x in was && Shows(x, c);
        assert CanYield(x, c, 0);
      }
    }

    /** Nothing new. */
    lemma TracedHere(was: seq<Item>, shown: seq<Candidate>, frontier: seq<Item>, pending: seq<Candidate>)
      requires (forall y :: y in frontier ==> y in was) && forall c :: c in pending ==> c in shown || c.kind != Neural
      ensures Traced(was, shown, frontier, pending)
    {
      TracedOnce(was, shown, frontier, pending);
    }

    /** Searching leaves the pages alone. */
    lemma TracedBeside(published: seq<Candidate>, was: seq<Item>, waiting: seq<Candidate>, frontier: seq<Item>, pending: seq<Candidate>)
      requires Traced(was, waiting, frontier, pending)
      ensures Traced(was, published + waiting, frontier, published + pending)
    {
      hide Descends, Yielded;
    }

    /** Every neural candidate that is shown now was shown before, or is one that the frontier then
        could yield. */
    twostate predicate AllTraced()
      reads this
    {
      Traced(old(frontier), old(published + pending), frontier, published + pending)
    }

    /** What a slice brings comes from the work it was taken from. */
    lemma SliceTraced(x: Item, next: nat, was: seq<Item>, frontier: seq<Item>, waiting: seq<Candidate>, pending: seq<Candidate>)
      requires x.Resume? && ItemOk(Typed(), x) && SliceBrings(x, next, was, frontier, waiting, pending)
      ensures Traced(was + [x], waiting, frontier, pending)
    {
      hide StepsSomewhere, ShowsSomewhere, StepsTo, ShownBy, PathOk, Traced;
      SomewhereLeads(x);
      FromOne(x, was, waiting, frontier, pending);
    }

    lemma FromOne(x: Item, was: seq<Item>, waiting: seq<Candidate>, frontier: seq<Item>, pending: seq<Candidate>)
      requires forall y :: y in frontier ==> y in was || LeadsTo(x, y)
      requires forall c :: c in pending ==> c in waiting || Shows(x, c)
      ensures Traced(was + [x], waiting, frontier, pending)
    {
      hide LeadsTo, Shows, Traced;
      assert x in was + [x];
      TracedOnce(was + [x], waiting, frontier, pending);
    }

    lemma SeedsTraced(x: Item, was: seq<Item>, items: seq<Item>, pending: seq<Candidate>)
      requires x.RootSeeds? && x.at <= |x.records| && items == Materialized(x.id, x.records, x.at)
      ensures Traced(was + [x], pending, was + items, pending)
    {
      hide Materialized, Traced;
      FromOne(x, was, pending, was + items, pending);
    }

    /** What scoring a parent brings comes from it. */
    lemma GrowthTraced(parent: Item, tokens: seq<int>, edges: map<int, seq<Edge>>, values: Scores, known: set<Identity>, was: seq<Item>,
                       waiting: seq<Candidate>, pending: seq<Candidate>, seen: set<Identity>, frontier: seq<Item>)
      requires |values| == |tokens| && Growth(parent, tokens, edges, values, known, was, waiting, pending, seen, frontier)
      requires ItemOk(Typed(), parent) && !parent.Resume? && !parent.Deferred?
      ensures Traced(was + [parent], waiting, frontier, pending)
    {
      hide StepsSomewhere, ShowsSomewhere, StepsTo, ShownBy, PathOk, Traced, IsScoreOrder;
      if parent.Search? {
        var positions, next :| IsScoreOrder(values, positions) && ScoredWork(parent, tokens, values, edges, positions)
                               && SliceBrings(Resume(parent.path, tokens, values, edges, positions, 0), next, was, frontier, waiting, pending);
        SomewhereLeads(Resume(parent.path, tokens, values, edges, positions, 0));
      }
      FromOne(parent, was, waiting, frontier, pending);
    }

    /** What a plan becomes when it is realised. */
    ghost predicate Planned(items: seq<Item>, y: Item) {
      exists x :: x in items && x.Deferred? && LeadsTo(x, y)
    }

    ghost predicate PlanShows(items: seq<Item>, c: Candidate) {
      exists x :: x in items && x.Deferred? && Shows(x, c)
    }

    lemma PlansTraced(was: seq<Item>, shown: seq<Candidate>, frontier: seq<Item>, pending: seq<Candidate>)
      requires forall y :: y in frontier ==> y in was || Planned(was, y)
      requires forall c :: c in pending ==> c in shown || PlanShows(was, c)
      ensures Traced(was, shown, frontier, pending)
    {
      hide LeadsTo, Shows;
      forall y | y in frontier && y !in was ensures LedTo(was, y) {}
      forall c | c in pending && c !in shown ensures ShownFrom(was, c) {}
      TracedOnce(was, shown, frontier, pending);
    }

    /** Whatever an item leads to lies in no shorter bucket. */
    lemma LeadsAtLeast(x: Item, y: Item, b: nat)
      requires ItemOk(Typed(), x) && AtLeast(x, b) && LeadsTo(x, y)
      ensures ItemOk(Typed(), y) && AtLeast(y, b)
    {
      hide PathOk, PathAtLeast, StepsTo, Materialized, SeedsOf, ResumeOk;
      match x {
        case Search(p) => if y.Search? { StepAtLeast(p, y.path, b); }
        case Resume(p, _, _, _, _, _) => if y.Search? { StepAtLeast(p, y.path, b); }
        case RootSeeds(id, records, at) =>
          if !y.LatinPath? {
            var n: nat :| at <= n <= |records| && y in Materialized(id, records, n);
            MaterializedOk(id, records, n, b);
          }
        case Deferred(_, roots) =>
          var id: nat, records :| SeedsOf(roots, records) && y in Materialized(id, records, 0);
          SeedsAtLeast(roots, records, b);
          forall i | 0 <= i < |records| ensures PathAtLeast(records[i], b) { assert records[i] in records; }
          MaterializedOk(id, records, 0, b);
        case LatinPath(_, _, _) =>
      }
    }

    lemma ShowsAtLeast(x: Item, c: Candidate, b: nat)
      requires ItemOk(Typed(), x) && AtLeast(x, b) && Shows(x, c) && c.script == Han
      ensures c.predicted >= b
    {
      hide Finishes, PathOk, PathAtLeast, RootSyllables, MatchedLetters;
      match x {
        case Search(p) => ShownAtLeast(p, c, b);
        case Resume(p, _, _, _, _, _) => ShownAtLeast(p, c, b);
        case _ =>
      }
    }

    lemma ShownAtLeast(p: HanPath, c: Candidate, b: nat)
      requires PathOk(Typed(), p) && PathAtLeast(p, b) && ShownBy(p, c)
      ensures c.predicted >= b
    {
      hide Finishes;
      var token, score, e :| EdgeOf(Typed(), p, e) && Under(p, token, e) && Finishes(p, e) && c == CandidateAt(Extended(p, token, score, e));
      EdgeAtLeast(Typed(), p, e, b);
    }

    /** No Han candidate that an item can ever yield is in a shorter bucket than the item's bound. */
    lemma {:induction false} YieldsAtLeast(x: Item, c: Candidate, n: nat, b: nat)
      requires ItemOk(Typed(), x) && AtLeast(x, b) && CanYield(x, c, n) && c.script == Han
      ensures c.predicted >= b
      decreases n
    {
      hide ItemOk, AtLeast, Shows, LeadsTo;
      if Shows(x, c) {
        ShowsAtLeast(x, c, b);
      } else {
        var y :| LeadsTo(x, y) && CanYield(y, c, n - 1);
        LeadsAtLeast(x, y, b);
        YieldsAtLeast(y, c, n - 1, b);
      }
    }

    /** A candidate is read off a chain of index entries from the start of the keys: their texts, syllables
        and tokens one after another, each entry at its best match behind the one before. */
    ghost predicate ReadOff(chain: seq<Edge>, c: Candidate) {
      && chain != [] && c.text == TextOf(chain) && c.pinyin == SyllablesOf(chain) && c.tokenPath == TokensOf(chain)
      && c.predicted == PredictedBy(chain) && (c.completes <==> MatchedBy(chain) == |inputs.compact|)
      && ConsumedOk(Typed(), c.consumed, c.completes) && |Letters(inputs.raw[..c.consumed])| == MatchedBy(chain)
    }

    ghost predicate Legal(c: Candidate) {
      exists chain :: ChainOk(Typed(), chain) && ReadOff(chain, c)
    }

    lemma FinishedIsLegal(p: HanPath)
      requires KeysParse(inputs) && PathOk(Typed(), p) && p.options == [] && p.matched <= |inputs.compact|
      ensures Legal(CandidateAt(p))
    {
      hide ChainOk;
      var chain :| ChainOk(Typed(), chain) && Spelt(Typed(), chain, p);
      RawPositionExactly(inputs.raw, p.matched, RawPosition(inputs.raw, p.matched));
      assert ReadOff(chain, CandidateAt(p));
    }

    lemma RootIsLegal(r: R.Root, b: nat)
      requires RootOk(Typed(), r, b) && R.Eligible(r)
      ensures Legal(RootCandidate(r))
    {
      hide Goes, ChainOk;
      var e := RootEdge(Typed(), r);
      OneEdgeChain(Typed(), e);
      assert r.entry.tokenPath == [r.entry.tokenId];
      assert ReadOff([e], RootCandidate(r));
    }

    lemma ShownIsLegal(p: HanPath, c: Candidate)
      requires KeysParse(inputs) && PathOk(Typed(), p) && ShownBy(p, c)
      ensures Legal(c)
    {
      hide PathOk, CandidateAt, Legal, Finishes, Under, EdgeOf;
      var token, score, e :| EdgeOf(Typed(), p, e) && Under(p, token, e) && Finishes(p, e) && c == CandidateAt(Extended(p, token, score, e));
      EdgeIsInside(p, e);
      PathAtLeastZero(p);
      ExtendedPathOk(Typed(), p, token, score, e, 0);
      FinishedIsLegal(Extended(p, token, score, e));
    }

    lemma PathAtLeastZero(p: HanPath)
      ensures PathAtLeast(p, 0)
    {}

    lemma ShowsLegal(x: Item, c: Candidate)
      requires KeysParse(inputs) && ItemOk(Typed(), x) && Shows(x, c) && c.script == Han
      ensures Legal(c)
    {
      hide PathOk, ShownBy, Legal, RootOk, RootCandidate;
      match x {
        case Search(p) => ShownIsLegal(p, c);
        case Resume(p, _, _, _, _, _) => ShownIsLegal(p, c);
        case Deferred(least, roots) =>
          var r :| r in roots && R.Eligible(r) && c == RootCandidate(r);
          RootIsLegal(r, least);
        case _ =>
      }
    }

    /** Every Han candidate that an item can ever yield is legal. */
    lemma {:induction false} YieldsLegal(x: Item, c: Candidate, n: nat)
      requires KeysParse(inputs) && ItemOk(Typed(), x) && CanYield(x, c, n) && c.script == Han
      ensures Legal(c)
      decreases n
    {
      hide ItemOk, AtLeast, Shows, LeadsTo, Legal, KeysParse;
      if Shows(x, c) {
        ShowsLegal(x, c);
      } else {
        var y :| LeadsTo(x, y) && CanYield(y, c, n - 1);
        AtLeastZero(x, 0);
        LeadsAtLeast(x, y, 0);
        YieldsLegal(y, c, n - 1);
      }
    }

    /** So is whatever the frontier can yield. */
    lemma YieldedIsLegal()
      requires OrderOk() && KeysParse(inputs)
      ensures forall c :: Yielded(frontier, c) && c.script == Han ==> Legal(c)
    {
      hide CanYield, InputsOk, OneRemainder, NoneLonger, Legal, KeysParse, ItemOk, AtLeast, KeyOf;
      forall c | Yielded(frontier, c) && c.script == Han ensures Legal(c) {
        var x, n: nat :| x in frontier && CanYield(x, c, n);
        YieldsLegal(x, c, n);
      }
    }

    /** A root and a finished path of the same text and the same letters are one identity. */
    lemma OneIdentity(c: Candidate, d: Candidate)
      requires ConsumedOk(Typed(), c.consumed, c.completes) && ConsumedOk(Typed(), d.consumed, d.completes)
      requires c.text == d.text && |Letters(inputs.raw[..c.consumed])| == |Letters(inputs.raw[..d.consumed])|
      ensures IdOf(norm, c) == IdOf(norm, d) && c.completes == d.completes
    {
      if c.consumed < d.consumed { NextLetterCounts(inputs.raw, c.consumed, d.consumed); }
      if d.consumed < c.consumed { NextLetterCounts(inputs.raw, d.consumed, c.consumed); }
    }

    /** Legal candidates of the same text and as many letters are one identity, whether a root or a
        finished path: the search cannot show a reading of the plan again under other keys. */
    lemma LegalIdentity(c: Candidate, d: Candidate)
      requires Legal(c) && Legal(d) && c.text == d.text && |Letters(inputs.raw[..c.consumed])| == |Letters(inputs.raw[..d.consumed])|
      ensures IdOf(norm, c) == IdOf(norm, d) && c.completes == d.completes
    {
      hide ChainOk;
      OneIdentity(c, d);
    }

    /** Short before long: whatever the frontier can still yield, in however many steps, is in no
        shorter bucket than any whole-input Han candidate of the neural search frozen so far. */
    lemma ShortBeforeLong(c: Candidate, x: Item, later: Candidate, n: nat)
      requires OrderOk() && inputs.hasRoot && c in published && Counted(c)
      requires x in frontier && CanYield(x, later, n) && later.script == Han
      ensures c.predicted <= later.predicted
    {
      hide ItemOk, AtLeast, CanYield, KeyOf, InputsOk, OneRemainder;
      YieldsAtLeast(x, later, n, reached);
    }

    /** Freezing them moves the longest frozen bucket no further than the frontier allows. */
    lemma ReachedStays(selected: seq<Candidate>)
      requires OrderOk() && inputs.hasRoot && forall c :: c in selected ==> c in Freezable()
      ensures forall x :: x in frontier ==> AtLeast(x, LongestOf(selected, reached))
    {
      hide ItemOk, AtLeast, KeyOf, Freezable;
      var longest := LongestOf(selected, reached);
      if longest != reached {
        var c :| c in selected && Counted(c) && c.predicted == longest;
        FreezableIsShort(c);
      }
    }

    /** Search until enough may be frozen, time runs out, or nothing moves. */
    method EnsureFreezable(target: nat, ticks: nat, scorer: Scorer) returns (raised: bool)
      requires OrderOk()
      modifies this`pending, this`seen, this`frontier, this`expanded, this`exhausted
      ensures OrderOk() && Gathered(norm, old(pending), pending, reached) && (old(Clean()) ==> Clean())
      ensures old(exhausted) || |old(Freezable())| >= target ==> unchanged(this) && !raised
      ensures inputs.hasRoot ==>
                forall f, c :: f in published && Counted(f) && c in pending && c !in old(pending) && c.script == Han ==> f.predicted <= c.predicted
      ensures Chinese() && old(HanSorted(pending)) ==> HanSorted(pending)
      ensures old(Buckets()) ==> Buckets()
      ensures Traced(old(frontier), old(pending), frontier, pending)
    {
      hide Traced, FrontierOk, CleanAre, WellFormed, RowsHold, Freezable, NoneDropped, Carried, WorkedOff, ItemOk, HanSorted, InputsOk, ResumedOk,
           PoppedOk, StepBrings, BucketsAre;
      BucketsSorted();
      Unmoved(norm, pending, reached);
      TracedHere(frontier, pending, frontier, pending);
      var left := ticks;
      raised := false;
      while !exhausted && |Freezable()| < target && left > 0
        invariant OrderOk() && Gathered(norm, old(pending), pending, reached) && (old(Clean()) ==> Clean())
        invariant Chinese() && old(HanSorted(pending)) ==> HanSorted(pending)
        invariant old(exhausted) || |old(Freezable())| >= target ==> unchanged(this)
        invariant Traced(old(frontier), old(pending), frontier, pending)
        decreases left
      {
        ghost var middle, queue := pending, frontier;
        var progressed: Option<nat>;
        ghost var step: Step;
        progressed, step := ExpandOneFrontier(scorer);
        GatheredTwice(norm, old(pending), middle, pending, reached);
        TracedTwice(old(frontier), old(pending), queue, middle, frontier, pending);
        if progressed.None? {
          SearchedBuckets(old(pending));
          return true;
        }
        middle := pending;
        SortPending();
        SameMembers(norm, middle, pending, reached);
        GatheredTwice(norm, old(pending), middle, pending, reached);
        TracedHere(frontier, middle, frontier, pending);
        TracedTwice(old(frontier), old(pending), frontier, middle, frontier, pending);
        if progressed.value == 0 {
          SearchedBuckets(old(pending));
          return;
        }
        left := left - 1;
      }
      SearchedBuckets(old(pending));
    }

    lemma BucketsSorted()
      ensures BucketsAre(published, pending) ==> HanSorted(pending)
    {}

    lemma SearchedBuckets(before: seq<Candidate>)
      requires OrderOk() && Gathered(norm, before, pending, reached)
      requires Chinese() && BucketsAre(published, before) ==> HanSorted(pending)
      ensures Chinese() && inputs.hasRoot && BucketsAre(published, before) ==> BucketsAre(published, pending)
    {
      hide FrontierOk, BucketsAre, HanSorted, NoneDropped, NoneLonger, Longer, InputsOk, OneRemainder, NoneExpanded;
      if Chinese() && inputs.hasRoot && BucketsAre(published, before) { BucketsGather(before, pending); }
    }

    lemma FreezableWaits(selected: seq<Candidate>)
      requires forall c :: c in selected ==> c in Freezable()
      ensures forall c :: c in selected ==> c in pending
    {}

    method TotalFrozen() returns (total: nat, next: nat)
      requires PagesOk()
      ensures total == |published| && next == pages
    {
      total, next := 0, 0;
      while next in frozen
        invariant next <= pages && total == |Concat(frozen, next)|
        decreases pages - next
      {
        total := total + |frozen[next].candidates|;
        next := next + 1;
      }
    }

    /** Move candidates from the waiting list to a new page; nothing frozen before changes. */
    method FreezePage(selected: seq<Candidate>, hasMore: bool)
      requires PagesOk() && OrderOk() && (forall c :: c in selected ==> c in Freezable())
      requires |selected| <= PageSize() && |published| + |selected| <= Capacity()
      modifies this`pending, this`frozen, this`published, this`pages, this`reached
      ensures PagesOk() && OrderOk() && Kept(old(frozen), frozen)
      ensures pages == old(pages) + 1 && old(pages) in frozen && published == old(published) + selected
      ensures frozen[old(pages)].candidates == selected && frozen[old(pages)].hasMore == hasMore
      ensures pending == Filter((c: Candidate) => c !in selected, old(pending))
      ensures NoneDropped(norm, old(published + pending), published + pending) && AllTraced()
      ensures old(Clean()) && NoRepeats(selected) ==> Clean()
    {
      hide Traced, PagesAre, FrontierOk, CleanAre, Freezable, NoneLonger, NoneDropped, Kept, Ids, AtLeast, WellFormed, RowsHold, PageSize, Capacity,
           InputsOk, OneRemainder, NoneExpanded, NoRepeats;
      var total, index := TotalFrozen();
      FreezableWaits(selected);
      ghost var longest := FrozenReach(selected);
      var page := Page(selected, Ids(index, selected), hasMore);
      PagesGrow(frozen, published, pages, page);
      var chosen := (c: Candidate) => c !in selected;
      if Clean() && NoRepeats(selected) { PageJoins(selected); }
      OnlyMoved(norm, published, pending, selected);
      TracedHere(frontier, published + pending, frontier, published + selected + Filter(chosen, pending));
      pending := Filter(chosen, pending);
      frozen := frozen[index := page];
      published := published + selected;
      pages := pages + 1;
      reached := longest;
    }

    /** The bound after freezing: moved only where the order is claimed. */
    lemma FrozenReach(selected: seq<Candidate>) returns (longest: nat)
      requires OrderOk() && forall c :: c in selected ==> c in Freezable()
      ensures FrontierOk(Typed(), frontier, expanded, longest) && (inputs.hasRoot ==> NoneLonger(published + selected, longest))
    {
      hide FrontierOk, NoneLonger, AtLeast, WellFormed, RowsHold, Freezable;
      longest := reached;
      if inputs.hasRoot {
        longest := LongestOf(selected, reached);
        ReachedStays(selected);
        OrderMoves(Typed(), frontier, expanded, published, reached, selected, longest);
      }
    }

    lemma PagesGrow(before: map<nat, Page>, published: seq<Candidate>, pages: nat, page: Page)
      requires PagesAre(before, published, pages)
      requires |page.candidates| <= PageSize() && |published| + |page.candidates| <= Capacity() && page.ids == Ids(pages, page.candidates)
      ensures PagesAre(before[pages := page], published + page.candidates, pages + 1) && Kept(before, before[pages := page])
    {
      hide Ids;
      ConcatSame(before, before[pages := page], pages);
    }

    /** A later page of what may be frozen now: a full one, or what is left when the search has
        nothing more to give. */
    method FreezeNow(target: nat) returns (r: PageResult)
      requires PagesOk() && OrderOk() && 0 < target <= PageSize() && |published| + target <= Capacity()
      modifies this`pending, this`frozen, this`published, this`pages, this`reached
      ensures PagesOk() && OrderOk() && Kept(old(frozen), frozen) && (old(Clean()) ==> Clean()) && (old(Buckets()) ==> Buckets())
      ensures NoneDropped(norm, old(published + pending), published + pending) && AllTraced()
      ensures r.Ready? ==> pending == Filter((c: Candidate) => c !in r.page.candidates, old(pending))
      ensures var ready := old(Freezable());
              && (r.Ready? <==> |ready| >= target || (exhausted && ready != []))
              && (r == NotReady <==> |ready| < target && !exhausted)
              && (r.Ready? ==>
                    && pages == old(pages) + 1 && old(pages) in frozen && frozen[old(pages)] == r.page
                    && r.page.candidates == Take(ready, target) && published == old(published) + r.page.candidates
                    && (r.page.hasMore <==> |published| < Capacity() && ((Chinese() && |ready| >= target) || pending != [] || !exhausted)))
      ensures !r.Ready? ==> unchanged(this)
    {
      hide Traced, PagesAre, FrontierOk, CleanAre, NoneLonger, NoneDropped, Freezable, BucketsAre, InputsOk, OneRemainder, NoneExpanded;
      NoneDroppedHere(published + pending);
      TracedHere(frontier, published + pending, frontier, published + pending);
      var total, index := TotalFrozen();
      PublishedFits();
      var freezable := Freezable();
      if |freezable| < target && !exhausted { return NotReady; }
      var selected := Take(freezable, target);
      if selected == [] { return Failed; }
      TakeFreezable(selected);
      var waiting := Filter((c: Candidate) => c !in selected, pending);
      var hasMore := Capacity() - total - |selected| > 0 && ((Chinese() && |selected| == target) || waiting != [] || !exhausted);
      if Chinese() && BucketsAre(published, pending) {
        TakePrefix(freezable, target);
        BucketsFreeze(selected);
      }
      FreezePage(selected, hasMore);
      r := Ready(frozen[index]);
    }

    /** What a page request asks for, and what later-page preparation freezes next. */
    method FreezeNext(ticks: nat, scorer: Scorer) returns (r: PageResult)
      requires PagesOk() && OrderOk() && pages > 0
      modifies this`pending, this`seen, this`frontier, this`expanded, this`exhausted, this`frozen, this`published, this`pages, this`reached
      ensures PagesOk() && OrderOk() && Kept(old(frozen), frozen) && (old(Clean()) ==> Clean()) && (old(Buckets()) ==> Buckets())
      ensures NoneDropped(norm, old(published + pending), published + pending) && AllTraced()
      ensures r.Ready? ==>
                && pages == old(pages) + 1 && old(pages) in frozen && frozen[old(pages)] == r.page
                && published == old(published) + r.page.candidates && r.page.candidates != []
                && (exhausted || |r.page.candidates| == Target(|old(published)|))
                && (r.page.hasMore ==> |published| < Capacity())
      ensures !r.Ready? ==> pages == old(pages) && frozen == old(frozen) && published == old(published)
      ensures Target(|old(published)|) == 0 ==> r == Failed && unchanged(this)
      ensures |old(Freezable())| >= Target(|old(published)|) > 0 ==> r.Ready? && r.page.candidates == Take(old(Freezable()), Target(|old(published)|))
    {
      hide Traced, PagesAre, FrontierOk, CleanAre, NoneLonger, Longer, NoneDropped, Freezable, BucketsAre, HanSorted, InputsOk, OneRemainder, NoneExpanded;
      NoneDroppedHere(published + pending);
      TracedHere(frontier, published + pending, frontier, published + pending);
      var total, index := TotalFrozen();
      PublishedFits();
      var capacity := Capacity();
      if total >= capacity { return Failed; }
      var target := Target(total);
      ghost var before := pending;
      var raised := EnsureFreezable(target, ticks, scorer);
      BesidePages(norm, published, before, pending);
      TracedBeside(published, old(frontier), before, frontier, pending);
      if raised { return Failed; }
      ghost var middle := published + pending;
      r := FreezeNow(target);
      NoneDroppedTwice(norm, old(published + pending), middle, published + pending);
      TracedTwice(old(frontier), old(published + pending), frontier, middle, frontier, published + pending);
    }

    /** How many candidates the next page should have. */
    function Target(total: nat): (n: nat)
      requires total <= Capacity()
      ensures n <= PageSize() && n <= Capacity() - total && (n == PageSize() || n == Capacity() - total)
    {
      if PageSize() < Capacity() - total then PageSize() else Capacity() - total
    }

    lemma PublishedFits()
      requires PagesOk()
      ensures |published| <= Capacity()
    {}

    lemma TakeFreezable(selected: seq<Candidate>)
      requires selected <= Freezable()
      ensures forall c :: c in selected ==> c in Freezable()
      ensures Clean() ==> NoRepeats(selected)
    {
      if Clean() {
        FilterNoRepeats(MayFreeze(if exhausted then None else MinimumFuture(frontier, expanded, inputs.hasRoot), 0 !in frozen, Chinese()), pending);
      }
    }

    /** When the search has ended without a candidate, page zero shows the keys themselves. */
    method FreezeLiteral(hasMore: bool)
      requires PagesOk() && OrderOk() && |published| < Capacity()
      modifies this`frozen, this`published, this`pages
      ensures PagesOk() && OrderOk() && Kept(old(frozen), frozen) && pages == old(pages) + 1 && old(pages) in frozen
      ensures published == old(published) + [LiteralCandidate(inputs.raw)]
      ensures frozen[old(pages)].candidates == [LiteralCandidate(inputs.raw)] && frozen[old(pages)].hasMore == hasMore
    {
      hide PagesAre, FrontierOk, Ids;
      var total, index := TotalFrozen();
      var page := Page([LiteralCandidate(inputs.raw)], Ids(index, [LiteralCandidate(inputs.raw)]), hasMore);
      PagesGrow(frozen, published, pages, page);
      frozen := frozen[index := page];
      published := published + page.candidates;
      pages := pages + 1;
    }

    /** Page zero of what may be frozen now, which may be nothing while the search goes on, or of
        the keys themselves once it has ended. */
    method FreezeFirstPage()
      requires PagesOk() && OrderOk() && pages == 0
      modifies this`pending, this`frozen, this`published, this`pages, this`reached
      ensures PagesOk() && OrderOk() && pages == 1 && 0 in frozen
      ensures NoneDropped(norm, old(published + pending), published + pending) && AllTraced()
      ensures var shown := FirstPage(old(Freezable()), Chinese());
              && frozen[0].candidates == (if shown == [] && exhausted then [LiteralCandidate(inputs.raw)] else shown)
              && published == frozen[0].candidates
              && (!(shown == [] && exhausted) ==> IsFirstPage(old(Freezable()), Chinese(), published))
              && pending == (if shown == [] && exhausted then old(pending) else Filter((c: Candidate) => c !in shown, old(pending)))
              && (frozen[0].hasMore <==> Chinese() || pending != [] || !exhausted)
      ensures old(Clean()) ==> Clean()
      ensures old(Buckets()) ==> Buckets()
    {
      hide Traced, PagesAre, FrontierOk, CleanAre, NoneLonger, NoneDropped, Freezable, FirstPage, Kept, InputsOk, BucketsAre, OneRemainder, NoneExpanded,
           IsFirstPage, NoRepeats, HanSorted, RipeNow;
      NothingPublished();
      var freezable := Freezable();
      var selected := FirstPage(freezable, Chinese());
      FirstPageOk(freezable, Chinese());
      FirstPageExactly(freezable, Chinese());
      FreezableOnce();
      if selected == [] && exhausted {
        LiteralDropsNone();
        if Clean() {
          OnlyHanWaits();
          LiteralJoins();
        }
        LiteralBuckets();
        TracedHere(frontier, published + pending, frontier, [LiteralCandidate(inputs.raw)] + pending);
        FreezeLiteral(Chinese() || pending != [] || !exhausted);
        assert [] + [LiteralCandidate(inputs.raw)] == [LiteralCandidate(inputs.raw)];
      } else {
        var waiting := Filter((c: Candidate) => c !in selected, pending);
        if Chinese() && BucketsAre(published, pending) {
          FirstPagePrefix(freezable);
          BucketsFreeze(selected);
        }
        FreezePage(selected, Chinese() || waiting != [] || !exhausted);
        assert [] + selected == selected;
      }
    }

    /** When the search has ended and nothing can fill page zero, what waits is Han. */
    lemma OnlyHanWaits()
      requires Clean() && exhausted && FirstPage(Freezable(), Chinese()) == []
      ensures forall c :: c in pending ==> c.script == Han
    {
      hide InputsOk, Unique, SeenCovers, Quiet, LiteralShown;
      forall c | c in pending ensures c.script == Han {
        assert Worded(inputs.raw, c);
        LatinFills(c);
      }
    }

    lemma LatinFills(c: Candidate)
      requires exhausted && c in pending
      ensures c.script == Latin ==> FirstPage(Freezable(), Chinese()) != []
    {
      if c.script == Latin {
        assert c in Freezable();
        assert InScript(Latin)(c) && c in Filter(InScript(Latin), Freezable());
      }
    }

    /** The literal is not Han. */
    lemma LiteralBuckets()
      ensures published == [] && BucketsAre(published, pending) ==> BucketsAre([LiteralCandidate(inputs.raw)], pending)
    {
      hide HanSorted;
      NoneKept(InScript(Han), [LiteralCandidate(inputs.raw)]);
    }

    lemma LiteralDropsNone()
      ensures NoneDropped(norm, published + pending, (published + [LiteralCandidate(inputs.raw)]) + pending)
    {}

    /** Freeze page zero. `preparing` says that a lexical preparation owns it already, `prepares`
        that one is started now, `searching` that a background search owns it or is started;
        `offered` is what the lexical walk delivered in time if it was resumed, `mayFill` that it
        can fill a page. */
    method FreezeFirst(offered: Option<seq<Candidate>>, preparing: bool, mayFill: bool, prepares: bool, searching: bool,
                       ticks: nat, scorer: Scorer) returns (r: PageResult, ghost ready: seq<Candidate>)
      requires PagesOk() && OrderOk() && pages == 0 && (offered.Some? ==> forall c :: c in offered.value ==> Offerable(c))
      modifies this`pending, this`seen, this`frontier, this`expanded, this`exhausted, this`frozen, this`published, this`pages, this`reached
      ensures PagesOk() && OrderOk()
      ensures NoneDropped(norm, old(published + pending), published + pending) && AllTraced()
      ensures r.Ready? || r.NotReady?
      ensures r.Ready? ==> 0 in frozen && frozen[0].candidates == r.page.candidates && frozen[0].ids == r.page.ids
      ensures !r.Ready? ==> frozen == old(frozen)
      // what may be frozen then: what could be, or, if the lexical walk is resumed for a page that is not full, with what it offers
      ensures var resumed := Chinese() && |old(Freezable())| < PageSize() && !preparing
                             && offered.Some? && (mayFill || |old(Freezable())| + |offered.value| >= PageSize());
              if resumed then forall c :: c in ready <==> c in Supplemented(old(pending), old(seen), offered.value).0 && old(RipeNow())(c)
              else ready == old(Freezable())
      ensures Chinese() && old(HanSorted(pending)) ==> SortedBy(ByHan(inputs.compact, inputs.hanRank), Filter(InScript(Han), ready))
      // when page zero is withheld, and what it is
      ensures r.NotReady? <==>
                && Chinese() && |old(Freezable())| < PageSize()
                && (preparing || (prepares && mayFill && |ready| < PageSize()) || (searching && Filter(InScript(Han), ready) == []))
      ensures r.Ready? ==> if FirstPage(ready, Chinese()) == [] && old(exhausted) then r.page.candidates == [LiteralCandidate(inputs.raw)]
                           else IsFirstPage(ready, Chinese(), r.page.candidates)
      ensures preparing && Chinese() && |old(Freezable())| < PageSize() ==> r.NotReady? && unchanged(this)
      ensures (old(Clean()) ==> Clean()) && (old(Buckets()) ==> Buckets())
    {
      hide Traced, PagesAre, FrontierOk, CleanAre, NoneLonger, NoneDropped, Supplemented, Freezable, FirstPage, BucketsAre, InputsOk, OneRemainder,
           NoneExpanded, ExactTail;
      hide RipeNow, HanSorted, SortedBy, IsFirstPage, Filter, Kept, Target, NoneExpanded;
      hide KeyOf, ItemOk, AtLeast, Offerable;
      NoneDroppedHere(published + pending);
      TracedHere(frontier, published + pending, frontier, published + pending);
      ReadySorted();
      if Chinese() && |Freezable()| < PageSize() {
        if preparing { return NotReady, Freezable(); }
        ready := ResumeLexical(offered, mayFill);
        if prepares && mayFill && |Freezable()| < PageSize() { return NotReady, ready; }
        if searching && Filter(InScript(Han), Freezable()) == [] { return NotReady, ready; }
      }
      ready := Freezable();
      ghost var middle := published + pending;
      r := FreezeZero(ticks, scorer);
      NoneDroppedTwice(norm, old(published + pending), middle, published + pending);
      TracedTwice(old(frontier), old(published + pending), old(frontier), middle, frontier, published + pending);
    }

    /** Page zero, and in Chinese mode the later pages that are ready along with it. */
    method FreezeZero(ticks: nat, scorer: Scorer) returns (r: PageResult)
      requires PagesOk() && OrderOk() && pages == 0
      modifies this`pending, this`seen, this`frontier, this`expanded, this`exhausted, this`frozen, this`published, this`pages, this`reached
      ensures PagesOk() && OrderOk()
      ensures NoneDropped(norm, old(published + pending), published + pending) && AllTraced()
      ensures r.Ready? && 0 in frozen && frozen[0].candidates == r.page.candidates && frozen[0].ids == r.page.ids
      ensures var ready := old(Freezable());
              if FirstPage(ready, Chinese()) == [] && old(exhausted) then r.page.candidates == [LiteralCandidate(inputs.raw)]
              else IsFirstPage(ready, Chinese(), r.page.candidates)
      ensures (old(Clean()) ==> Clean()) && (old(Buckets()) ==> Buckets())
    {
      hide Traced, PagesAre, FrontierOk, CleanAre, NoneLonger, NoneDropped, Freezable, FirstPage, BucketsAre, InputsOk, OneRemainder,
           NoneExpanded, ExactTail, IsFirstPage, Filter, Kept, Target, RipeNow, HanSorted;
      FreezeFirstPage();
      r := Ready(frozen[0]);
      if Chinese() {
        ghost var middle: seq<Candidate>;
        middle := published + pending;
        ghost var zero := frozen;
        FreezeReady(ticks, scorer);
        KeptAt(zero, frozen, 0);
        NoneDroppedTwice(norm, old(published + pending), middle, published + pending);
        TracedTwice(old(frontier), old(published + pending), old(frontier), middle, frontier, published + pending);
      }
    }

    /** The lexical walk is resumed for a page that is not full, if it can help to fill it. */
    method ResumeLexical(offered: Option<seq<Candidate>>, mayFill: bool) returns (ghost ready: seq<Candidate>)
      requires Chinese() && |Freezable()| < PageSize() && (offered.Some? ==> forall c :: c in offered.value ==> Offerable(c))
      modifies this`pending, this`seen
      ensures ready == Freezable()
      ensures if offered.Some? && (mayFill || |old(Freezable())| + |offered.value| >= PageSize())
              then forall c :: c in ready <==> c in Supplemented(old(pending), old(seen), offered.value).0 && old(RipeNow())(c)
              else unchanged(this)
      ensures NoneDropped(norm, old(published + pending), published + pending) && AllTraced()
      ensures old(HanSorted(pending)) ==> SortedBy(ByHan(inputs.compact, inputs.hanRank), Filter(InScript(Han), ready))
      ensures (old(Clean()) ==> Clean()) && (old(Buckets()) ==> Buckets())
    {
      hide Traced, CleanAre, NoneDropped, Supplemented, BucketsAre, InputsOk, RipeNow, HanSorted, SortedBy;
      NoneDroppedHere(published + pending);
      TracedHere(frontier, published + pending, frontier, published + pending);
      if offered.Some? && (mayFill || |Freezable()| + |offered.value| >= PageSize()) {
        ghost var before := pending;
        Supplement(offered.value);
        BesidePages(norm, published, before, pending);
        TracedHere(frontier, published + before, frontier, published + pending);
      }
      ready := Freezable();
      ReadySorted();
    }

    lemma NoneDroppedHere(s: seq<Candidate>)
      ensures NoneDropped(norm, s, s)
    {}

    lemma NothingPublished()
      requires PagesOk() && pages == 0
      ensures published == []
    {}

    lemma FreezableOnce()
      ensures Clean() ==> NoRepeats(Freezable())
    {
      if Clean() {
        FilterNoRepeats(MayFreeze(if exhausted then None else MinimumFuture(frontier, expanded, inputs.hasRoot), 0 !in frozen, Chinese()), pending);
      }
    }

    /** A longer reading waits although the keys are spelled out: exact ones may still come. */
    method MayHaveExactSpellingTail() returns (may: bool)
      requires matcher.Valid()
      ensures may <==> ExactTail()
    {
      var complete := matcher.IsCompleteSyllableSequence(inputs.compact);
      may := complete && exists i :: 0 <= i < |pending| && IsLongReading(pending[i]);
    }

    predicate IsLongReading(c: Candidate) {
      c.script == Han && c.completes && Spelling(c.pinyin) != inputs.compact
    }

    /** Syllables spell the keys out, and a longer reading waits. */
    ghost predicate ExactTail()
      reads this`pending
    {
      inputs.compact != "" && Segmentable(matcher.syllables, inputs.compact, |inputs.compact|) && exists c :: c in pending && IsLongReading(c)
    }

    /** Publish the later pages that are ready along with page zero: it stops only when longer readings
        may give way to exact ones, all places are taken, or no full page is left. */
    method FreezeReady(ticks: nat, scorer: Scorer)
      requires PagesOk() && OrderOk() && pages > 0 && Chinese()
      modifies this`pending, this`seen, this`frontier, this`expanded, this`exhausted, this`frozen, this`published, this`pages, this`reached
      ensures PagesOk() && OrderOk() && Kept(old(frozen), frozen) && (old(Clean()) ==> Clean()) && (old(Buckets()) ==> Buckets())
      ensures NoneDropped(norm, old(published + pending), published + pending) && AllTraced()
      ensures |published| <= Capacity() && (ExactTail() || |published| == Capacity() || |Freezable()| < Target(|published|))
      ensures |old(published)| <= Capacity() && (pages > old(pages) <==>
                !old(ExactTail()) && |old(published)| < Capacity() && |old(Freezable())| >= Target(|old(published)|))
    {
      hide Traced, PagesAre, FrontierOk, CleanAre, NoneLonger, NoneDropped, Freezable, ExactTail, WellFormed, RowsHold, InputsOk,
           BucketsAre, OneRemainder, NoneExpanded;
      PublishedFits();
      var more := true;
      NoneDroppedHere(published + pending);
      TracedHere(frontier, published + pending, frontier, published + pending);
      while more
        invariant PagesOk() && OrderOk() && pages > 0 && Kept(old(frozen), frozen) && (old(Clean()) ==> Clean()) && (old(Buckets()) ==> Buckets())
        invariant NoneDropped(norm, old(published + pending), published + pending) && |published| <= Capacity()
        invariant Traced(old(frontier), old(published + pending), frontier, published + pending)
        invariant !more ==> ExactTail() || |published| == Capacity() || |Freezable()| < Target(|published|)
        invariant pages == old(pages) ==> unchanged(this)
        invariant pages >= old(pages) && (pages > old(pages) ==>
                    !old(ExactTail()) && |old(published)| < Capacity() && |old(Freezable())| >= Target(|old(published)|))
        decreases CHINESE_CANDIDATE_COUNT - |published|, more
      {
        PublishedFits();
        var tail := MayHaveExactSpellingTail();
        var total, next := TotalFrozen();
        var target := Target(total);
        if tail || total >= CHINESE_CANDIDATE_COUNT || |Freezable()| < target {
          more := false;
        } else {
          ghost var middle, waiting, queue := frozen, published + pending, frontier;
          var r := FreezeNext(ticks, scorer);
          KeptTwice(old(frozen), middle, frozen);
          NoneDroppedTwice(norm, old(published + pending), waiting, published + pending);
          TracedTwice(old(frontier), old(published + pending), queue, waiting, frontier, published + pending);
          PublishedFits();
          more := r.Ready?;
        }
      }
    }

    /** A request for a page: the frozen one, or nothing changes. */
    method QueryPage(index: nat) returns (r: PageResult)
      requires PagesOk()
      ensures r == (if index in frozen then Ready(frozen[index])
                    else if index == pages && (index > 0 ==> index - 1 in frozen && frozen[index - 1].hasMore) then NotReady else Failed)
    {
      if index in frozen { return Ready(frozen[index]); }
      var total, next := TotalFrozen();
      if index != next || (index > 0 && !frozen[index - 1].hasMore) { return Failed; }
      r := NotReady;
    }

    /** A whole session, in any order of demands and with any scorer: pages stay contiguous, bounded
        and unchanged, short readings come before long ones, no candidate that ever waited is lost,
        and no identity is ever shown twice, on pages, in waiting or in both. */
    method Serve(demands: seq<Demand>)
      requires PagesOk() && OrderOk() && forall d :: d in demands ==> LexicalDemand(d)
      modifies this`pending, this`seen, this`frontier, this`expanded, this`exhausted, this`frozen, this`published, this`pages, this`reached
      ensures PagesOk() && OrderOk() && Kept(old(frozen), frozen)
      ensures NoneDropped(norm, old(published + pending), published + pending)
      ensures old(Clean()) ==> Clean() && Unique(norm, published, pending)
      ensures old(Buckets()) ==> Buckets()
      ensures AllTraced()
      ensures inputs.hasRoot ==>
                forall f, c :: (f in old(published) && Counted(f) && c in published + pending && c !in old(published + pending)
                                && c.kind == Neural && c.script == Han) ==> f.predicted <= c.predicted
      ensures KeysParse(inputs) ==>
                forall c :: c in published + pending && c !in old(published + pending) && c.kind == Neural && c.script == Han ==> Legal(c)
    {
      hide Traced, PagesAre, FrontierOk, CleanAre, NoneLonger, NoneDropped, LexicalDemand, InputsOk, Unique, BucketsAre;
      NoneDroppedHere(published + pending);
      TracedHere(frontier, published + pending, frontier, published + pending);
      if inputs.hasRoot { NothingShorter(); }
      if KeysParse(inputs) { YieldedIsLegal(); }
      hide Legal, KeysParse;
      for n := 0 to |demands|
        invariant PagesOk() && OrderOk() && Kept(old(frozen), frozen)
        invariant Traced(old(frontier), old(published + pending), frontier, published + pending)
        invariant NoneDropped(norm, old(published + pending), published + pending)
        invariant (old(Clean()) ==> Clean()) && (old(Buckets()) ==> Buckets())
      {
        assert demands[n] in demands;
        ghost var middle, waiting, queue := frozen, published + pending, frontier;
        Answer(demands[n]);
        KeptTwice(old(frozen), middle, frozen);
        NoneDroppedTwice(norm, old(published + pending), waiting, published + pending);
        TracedTwice(old(frontier), old(published + pending), queue, waiting, frontier, published + pending);
      }
      if Clean() { CleanIsUnique(); }
      NewIsYielded(old(frontier), old(published + pending), frontier, published + pending);
    }

    lemma NewIsYielded(was: seq<Item>, shown: seq<Candidate>, frontier: seq<Item>, pending: seq<Candidate>)
      requires Traced(was, shown, frontier, pending)
      ensures forall c :: c in pending && c !in shown && c.kind == Neural ==> Yielded(was, c)
    {
      hide Descends, Yielded;
    }

    /** Short before long, for all that the frontier can yield. */
    lemma NothingShorter()
      requires OrderOk() && inputs.hasRoot
      ensures forall f, c :: f in published && Counted(f) && Yielded(frontier, c) && c.script == Han ==> f.predicted <= c.predicted
    {
      hide FrontierOk, CanYield, InputsOk, OneRemainder, NoneLonger;
      forall f, c | f in published && Counted(f) && Yielded(frontier, c) && c.script == Han ensures f.predicted <= c.predicted {
        var x, n: nat :| x in frontier && CanYield(x, c, n);
        ShortBeforeLong(f, x, c, n);
      }
    }

    ghost predicate LexicalDemand(d: Demand) {
      forall c :: c in OfferedBy(d) ==> Offerable(c)
    }

    /** One demand. */
    method Answer(d: Demand)
      requires PagesOk() && OrderOk() && LexicalDemand(d)
      modifies this`pending, this`seen, this`frontier, this`expanded, this`exhausted, this`frozen, this`published, this`pages, this`reached
      ensures PagesOk() && OrderOk() && Kept(old(frozen), frozen)
      ensures NoneDropped(norm, old(published + pending), published + pending) && AllTraced()
      ensures (old(Clean()) ==> Clean()) && (old(Buckets()) ==> Buckets())
    {
      hide Traced, PagesAre, FrontierOk, CleanAre, NoneLonger, NoneDropped, Supplemented, Freezable, FirstPage, BucketsAre, InputsOk, OneRemainder,
           NoneExpanded, HanSorted, Carried;
      NoneDroppedHere(published + pending);
      TracedHere(frontier, published + pending, frontier, published + pending);
      ghost var before := pending;
      match d {
        case AskFirst(found, preparing, mayFill, prepares, searching, ticks, scorer) =>
          if 0 !in frozen {
            FirstIsMissing();
            var r, ready := FreezeFirst(found, preparing, mayFill, prepares, searching, ticks, scorer);
          }
        case AskNext(ticks, scorer) =>
          if 0 in frozen {
            FirstIsThere();
            var r := FreezeNext(ticks, scorer);
          }
        case Offer(offered) =>
          Supplement(offered);
          BesidePages(norm, published, before, pending);
          TracedHere(frontier, published + before, frontier, published + pending);
        case Prepare =>
          PrepareSearch();
          BesidePages(norm, published, before, pending);
          TracedBeside(published, old(frontier), before, frontier, pending);
        case LookAhead(ticks, scorer) =>
          var raised := EnsureFreezable(CHINESE_CANDIDATE_COUNT, ticks, scorer);
          BesidePages(norm, published, before, pending);
          TracedBeside(published, old(frontier), before, frontier, pending);
      }
    }

    lemma FirstIsMissing()
      requires PagesOk() && 0 !in frozen
      ensures pages == 0 && frozen == map[]
    {
      ZeroIsFirst();
      assert frozen.Keys == {};
    }

    lemma ZeroIsFirst()
      requires PagesOk()
      ensures (0 as nat) in frozen <==> 0 < pages
    {}

    lemma FirstIsThere()
      requires PagesOk() && 0 in frozen
      ensures pages > 0
    {}
  }

  /** What a session is asked to do: the first page, a later page, lexical candidates, search. */
  datatype Demand =
    | AskFirst(found: Option<seq<Candidate>>, preparing: bool, mayFill: bool, prepares: bool, searching: bool, ticks: nat, scorer: Scorer)
    | AskNext(ticks: nat, scorer: Scorer)
    | Offer(offered: seq<Candidate>)
    | Prepare
    | LookAhead(ticks: nat, scorer: Scorer)

  function OfferedBy(d: Demand): seq<Candidate> {
    match d
    case AskFirst(found, _, _, _, _, _, _) => if found.Some? then found.value else []
    case Offer(offered) => offered
    case _ => []
  }

  datatype PageResult = Ready(page: Page) | NotReady | Failed

  function LiteralCandidate(raw: string): Candidate {
    Candidate(raw, [], |raw|, true, 0, Latin, Literal, [], 0.0, LITERAL_TIER)
  }

  /** Candidates are Latin, or Han in their text; a literal is the keys. */
  predicate Worded(raw: string, c: Candidate) {
    if c.kind == Literal then c == LiteralCandidate(raw) else c.script == Latin || (c.script == Han && HanOnly(c.text))
  }

  function Take(s: seq<Candidate>, n: nat): (r: seq<Candidate>)
    ensures |r| <= n && r <= s
  {
    if |s| <= n then s else s[..n]
  }

  /** Page zero keeps one place for Latin whenever there is any. */
  function FirstPage(freezable: seq<Candidate>, chinese: bool): (r: seq<Candidate>)
    ensures |r| <= if chinese then CHINESE_PAGE_SIZE else LATIN_PAGE_SIZE
  {
    if !chinese then Take(freezable, LATIN_PAGE_SIZE)
    else
      var han, latin := Filter(InScript(Han), freezable), Filter(InScript(Latin), freezable);
      if han == [] then Take(if latin != [] then latin else Filter((c: Candidate) => c.kind == Literal, freezable), CHINESE_PAGE_SIZE)
      else
        var first := Take(han, if latin != [] then CHINESE_PAGE_SIZE - 1 else CHINESE_PAGE_SIZE);
        first + Take(latin, CHINESE_PAGE_SIZE - |first|)
  }

  /** Page zero, from what may be frozen: in Latin mode its first five. In Chinese mode the first Han
      candidates, up to seven, but up to six when there is a Latin one, which together with the Latin
      ones behind it takes the places left; without Han the first seven Latin ones, or else literals. */
  ghost predicate IsFirstPage(ready: seq<Candidate>, chinese: bool, page: seq<Candidate>) {
    var han, latin, literals := Filter(InScript(Han), ready), Filter(InScript(Latin), ready), Filter((c: Candidate) => c.kind == Literal, ready);
    if !chinese then page == ready[..Least(|ready|, 5)]
    else if han != [] && latin != [] then page == han[..Least(|han|, 6)] + latin[..Least(|latin|, 7 - Least(|han|, 6))]
    else if han != [] then page == han[..Least(|han|, 7)]
    else if latin != [] then page == latin[..Least(|latin|, 7)]
    else page == literals[..Least(|literals|, 7)]
  }

  function Least(m: nat, n: nat): nat {
    if m < n then m else n
  }

  lemma FirstPageExactly(ready: seq<Candidate>, chinese: bool)
    ensures IsFirstPage(ready, chinese, FirstPage(ready, chinese))
  {
    hide Filter;
  }

  /** Neither script is crowded out: page zero has the first of each that there is. */
  lemma BothScriptsStay(ready: seq<Candidate>, page: seq<Candidate>, c: Candidate)
    requires IsFirstPage(ready, true, page) && c in ready
    ensures c.script == Han ==> Filter(InScript(Han), ready) != [] && Filter(InScript(Han), ready)[0] in page
    ensures c.script == Latin ==> Filter(InScript(Latin), ready) != [] && Filter(InScript(Latin), ready)[0] in page
  {
    hide Filter;
    var han, latin := Filter(InScript(Han), ready), Filter(InScript(Latin), ready);
    assert c.script == Han ==> InScript(Han)(c) && c in han;
    assert c.script == Latin ==> InScript(Latin)(c) && c in latin;
    if c.script == Han { assert page[0] == han[0]; }
    if c.script == Latin { assert page[if han == [] then 0 else Least(|han|, 6)] == latin[0]; }
  }

  lemma FirstPageOk(freezable: seq<Candidate>, chinese: bool)
    ensures forall c :: c in FirstPage(freezable, chinese) ==> c in freezable
    ensures NoRepeats(freezable) ==> NoRepeats(FirstPage(freezable, chinese))
  {
    hide NoRepeats;
    var han, latin := Filter(InScript(Han), freezable), Filter(InScript(Latin), freezable);
    TakeOk(freezable, LATIN_PAGE_SIZE);
    ScriptOk(freezable, InScript(Latin), CHINESE_PAGE_SIZE);
    ScriptOk(freezable, (c: Candidate) => c.kind == Literal, CHINESE_PAGE_SIZE);
    if chinese && han != [] {
      var n := if latin != [] then CHINESE_PAGE_SIZE - 1 else CHINESE_PAGE_SIZE;
      var first := Take(han, n);
      ScriptOk(freezable, InScript(Han), n);
      ScriptOk(freezable, InScript(Latin), CHINESE_PAGE_SIZE - |first|);
      if NoRepeats(freezable) { JoinNoRepeats(first, Take(latin, CHINESE_PAGE_SIZE - |first|)); }
    }
  }

  lemma TakePrefix(s: seq<Candidate>, n: nat)
    ensures Filter(InScript(Han), Take(s, n)) <= Filter(InScript(Han), s)
  {
    FilterJoin(InScript(Han), Take(s, n), s[|Take(s, n)|..]);
    assert s == Take(s, n) + s[|Take(s, n)|..];
  }

  /** Page zero takes Han candidates from the front. */
  lemma FirstPagePrefix(freezable: seq<Candidate>)
    ensures Filter(InScript(Han), FirstPage(freezable, true)) <= Filter(InScript(Han), freezable)
  {
    hide NoRepeats, Filter;
    var han, latin := Filter(InScript(Han), freezable), Filter(InScript(Latin), freezable);
    FirstPageOk(freezable, true);
    if han == [] {
      NoneKept(InScript(Han), FirstPage(freezable, true));
    } else {
      var first := Take(han, if latin != [] then CHINESE_PAGE_SIZE - 1 else CHINESE_PAGE_SIZE);
      var rest := Take(latin, CHINESE_PAGE_SIZE - |first|);
      TakeOk(han, |first|);
      TakeOk(latin, CHINESE_PAGE_SIZE - |first|);
      HanHead(first, rest);
    }
  }

  lemma HanHead(first: seq<Candidate>, rest: seq<Candidate>)
    requires (forall c :: c in first ==> c.script == Han) && forall c :: c in rest ==> c.script == Latin
    ensures Filter(InScript(Han), first + rest) == first
  {
    FilterJoin(InScript(Han), first, rest);
    AllKept(InScript(Han), first);
    NoneKept(InScript(Han), rest);
  }

  lemma TakeOk(s: seq<Candidate>, n: nat)
    ensures forall c :: c in Take(s, n) ==> c in s
    ensures NoRepeats(s) ==> NoRepeats(Take(s, n))
  {}

  lemma ScriptOk(s: seq<Candidate>, keep: Candidate -> bool, n: nat)
    ensures forall c :: c in Take(Filter(keep, s), n) ==> c in s && keep(c)
    ensures NoRepeats(s) ==> NoRepeats(Take(Filter(keep, s), n))
  {
    TakeOk(Filter(keep, s), n);
    if NoRepeats(s) { FilterNoRepeats(keep, s); }
  }

  /** Whether one waiting candidate may be frozen, given the least future bucket. */
  function MayFreeze(least: Option<nat>, first: bool, chinese: bool): Candidate -> bool {
    (c: Candidate) =>
      var short := least.None? || c.script != Han || !c.completes || c.predicted < least.value;
      if !chinese then short
      else
        && (short || (first && c.script == Han && c.completes && c.predicted == 0) || (c.kind == Lexical && c.completes))
        && (c.script != Han || c.completes)
  }
}
